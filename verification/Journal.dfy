/** The resume journal (src/runtime/journal.ts): append-only entries, folded when a run resumes. */
module Journal {
  import opened Options
  import opened Usage
  import opened Keys
  import opened Engine

  datatype Entry =
    | Meta(seed: int, createdAt: int)
    | StartEntry(key: Key, index: nat)
    | ResultEntry(key: Key, index: nat, status: Status, value: Value, usage: Usage)

  datatype Loaded = Loaded(meta: Option<Entry>, results: map<Key, Entry>, indexByKey: map<Key, nat>)

  const NOTHING_LOADED: Loaded := Loaded(Nothing, map[], map[])

  function Absorb(out: Loaded, e: Entry): Loaded {
    match e
    case Meta(_, _) => out.(meta := Just(e))
    case StartEntry(k, i) => out.(indexByKey := out.indexByKey[k := i])
    case ResultEntry(k, i, _, _, _) => out.(results := out.results[k := e], indexByKey := out.indexByKey[k := i])
  }

  /** What a journal means: later entries win. */
  function Load(es: seq<Entry>): Loaded {
    if es == [] then NOTHING_LOADED else Absorb(Load(es[..|es| - 1]), es[|es| - 1])
  }

  /* ----- consistency across attempts ----- */

  /** A key and its display index determine each other. */
  ghost predicate OneIndex(es: seq<Entry>) {
    forall i, j :: 0 <= i < |es| && 0 <= j < |es| && !es[i].Meta? && !es[j].Meta? ==>
      (es[i].key == es[j].key <==> es[i].index == es[j].index)
  }

  /** Nothing is recorded for a key after its success. */
  ghost predicate SuccessIsFinal(es: seq<Entry>) {
    forall i, j :: 0 <= i < j < |es| && es[i].ResultEntry? && es[j].ResultEntry? && es[i].status.Completed? ==>
      es[i].key != es[j].key
  }

  ghost predicate Consistent(es: seq<Entry>) { OneIndex(es) && SuccessIsFinal(es) }

  /** The successes a resume replays. */
  function Successes(l: Loaded): map<Key, Recorded>
    requires forall k :: k in l.results ==> l.results[k].ResultEntry?
  {
    map k | k in l.results && l.results[k].status.Completed? :: Recorded(l.results[k].value, l.results[k].usage)
  }

  lemma {:induction false} ResultSource(es: seq<Entry>, k: Key) returns (i: nat)
    requires k in Load(es).results
    ensures i < |es| && es[i] == Load(es).results[k] && es[i].ResultEntry? && es[i].key == k
    ensures forall j :: i < j < |es| && es[j].ResultEntry? ==> es[j].key != k
  {
    var n := |es| - 1;
    if es[n].ResultEntry? && es[n].key == k { i := n; } else { i := ResultSource(es[..n], k); }
  }

  lemma {:induction false} ResultKept(es: seq<Entry>, i: nat)
    requires i < |es| && es[i].ResultEntry?
    requires forall j :: i < j < |es| && es[j].ResultEntry? ==> es[j].key != es[i].key
    ensures es[i].key in Load(es).results && Load(es).results[es[i].key] == es[i]
  {
    var n := |es| - 1;
    if i < n { ResultKept(es[..n], i); }
  }

  lemma {:induction false} IndexSource(es: seq<Entry>, k: Key) returns (i: nat)
    requires k in Load(es).indexByKey
    ensures i < |es| && !es[i].Meta? && es[i].key == k && es[i].index == Load(es).indexByKey[k]
  {
    var n := |es| - 1;
    if !es[n].Meta? && es[n].key == k { i := n; } else { i := IndexSource(es[..n], k); }
  }

  lemma {:induction false} IndexKept(es: seq<Entry>, i: nat)
    requires OneIndex(es) && i < |es| && !es[i].Meta?
    ensures es[i].key in Load(es).indexByKey && Load(es).indexByKey[es[i].key] == es[i].index
  {
    var n := |es| - 1;
    if i < n {
      assert forall j | 0 <= j < n :: es[..n][j] == es[j];
      IndexKept(es[..n], i);
    }
  }

  lemma {:induction false} LoadedResults(es: seq<Entry>)
    ensures forall k :: k in Load(es).results ==> Load(es).results[k].ResultEntry?
  {
    if es != [] { LoadedResults(es[..|es| - 1]); }
  }

  function Recordings(es: seq<Entry>): map<Key, Recorded> {
    LoadedResults(es);
    Successes(Load(es))
  }

  /**
   Whatever follows a consistent journal, as long as the whole stays consistent: a success keeps its
   value and usage, and a key keeps its index.
   */
  lemma Stable(es: seq<Entry>, more: seq<Entry>)
    requires Consistent(es + more)
    ensures forall k :: k in Recordings(es) ==>
              k in Recordings(es + more) && Recordings(es + more)[k] == Recordings(es)[k]
    ensures forall k :: k in Load(es).indexByKey ==>
              k in Load(es + more).indexByKey && Load(es + more).indexByKey[k] == Load(es).indexByKey[k]
  {
    var all := es + more;
    forall k | k in Recordings(es) ensures k in Recordings(all) && Recordings(all)[k] == Recordings(es)[k] {
      var i := ResultSource(es, k);
      assert all[i] == es[i];
      ResultKept(all, i);
    }
    forall k | k in Load(es).indexByKey
      ensures k in Load(all).indexByKey && Load(all).indexByKey[k] == Load(es).indexByKey[k]
    {
      var i := IndexSource(es, k);
      assert all[i] == es[i];
      IndexKept(all, i);
    }
  }
}
