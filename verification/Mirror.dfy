/**
 Mirroring a run's branches into a machine's cache repository (src/remote/helper.ts, syncCache), from
 manifests stamped by the run (src/remote/agent.ts, nextGeneration) that may arrive in any order.
 Each synchronization holds the repository's lock to its end.
 */
module Mirror {
  import opened Options
  import opened Commits

  /** Generation stamps: the clock, but always past the last one. */
  class Stamps {
    var last: nat

    constructor ()
      ensures last == 0
    {
      last := 0;
    }

    method NextGeneration(now: nat) returns (generation: nat)
      modifies this
      ensures generation > old(last) && generation >= now && last == generation
      ensures generation == now || generation == old(last) + 1
    {
      last := if now >= last + 1 then now else last + 1;
      generation := last;
    }
  }

  /** Git refuses a branch whose name is a directory of another's. */
  predicate Under(dir: string, name: string) { |dir| < |name| && name[..|dir|] == dir && name[|dir|] == '/' }

  ghost predicate Storable(names: set<string>) { forall a, b :: a in names && b in names ==> !Under(a, b) }

  predicate StartsWith(s: string, p: string) { |p| <= |s| && s[..|p|] == p }

  /** The branches a synchronization never touches: a live worktree's, or an attempt's own. */
  predicate Protected(checkedOut: set<string>, branch: string) {
    StartsWith(branch, "omegacode/") || branch in checkedOut
  }

  /** The cache's refs: branches, the tips it advertises, and the generation last applied. */
  datatype Refs = Refs(heads: map<string, Commit>, have: set<Commit>, applied: nat)

  /** One prepare's manifest, with what the transfer left in the object store and what worktrees are on. */
  datatype Manifest = Manifest(base: Commit, branches: map<string, Commit>, generation: nat, present: set<Commit>,
    checkedOut: set<string>)

  datatype Outcome = Synced | BaseMissing | RefConflict

  predicate Arrived(m: Manifest) { m.base in m.present && m.branches.Values <= m.present }

  function Wanted(m: Manifest): map<string, Commit> {
    map b | b in m.branches && !Protected(m.checkedOut, b) :: m.branches[b]
  }

  /** The branches that survive the deletions. */
  function Surviving(heads: map<string, Commit>, m: Manifest): map<string, Commit> {
    map b | b in heads && (Protected(m.checkedOut, b) || b in m.branches) :: heads[b]
  }

  ghost predicate Conflicts(heads: map<string, Commit>, m: Manifest) {
    !Storable(Surviving(heads, m).Keys + Wanted(m).Keys)
  }

  /** What a synchronization means. */
  ghost function Sync(r: Refs, m: Manifest): (Outcome, Refs) {
    if !Arrived(m) then (BaseMissing, r)
    else if m.generation <= r.applied then (Synced, r.(have := r.have + {m.base}))
    else if Conflicts(r.heads, m) then (RefConflict, r.(heads := Surviving(r.heads, m)))
    else (Synced, Refs(Surviving(r.heads, m) + Wanted(m), r.have + {m.base}, m.generation))
  }

  class Cache {
    var heads: map<string, Commit>
    var have: set<Commit>
    var applied: nat

    constructor ()
      ensures heads == map[] && have == {} && applied == 0
    {
      heads, have, applied := map[], {}, 0;
    }

    function State(): Refs
      reads this
    {
      Refs(heads, have, applied)
    }

    /** Deletes go in a transaction of their own, before the updates. */
    method SyncCache(m: Manifest) returns (r: Outcome)
      modifies this
      ensures (r, State()) == Sync(old(State()), m)
    {
      var arrived := CheckCommits(m);
      if !arrived { return BaseMissing; }
      if m.generation <= applied {
        have := have + {m.base};
        return Synced;
      }
      heads := DeleteBranches(heads, m);
      var clear := CheckNames(heads.Keys + Wanted(m).Keys);
      if !clear { return RefConflict; }
      heads := heads + Wanted(m);
      have, applied := have + {m.base}, m.generation;
      return Synced;
    }
  }

  method CheckCommits(m: Manifest) returns (ok: bool)
    ensures ok == Arrived(m)
  {
    ok := true;
    var rest := {m.base} + m.branches.Values;
    while rest != {}
      invariant rest <= {m.base} + m.branches.Values
      invariant ok == forall c :: c in {m.base} + m.branches.Values && c !in rest ==> c in m.present
      decreases |rest|
    {
      var c :| c in rest;
      rest := rest - {c};
      if c !in m.present { ok := false; }
    }
    assert ok ==> m.base in {m.base} + m.branches.Values;
  }

  method DeleteBranches(heads: map<string, Commit>, m: Manifest) returns (left: map<string, Commit>)
    ensures left == Surviving(heads, m)
  {
    left := heads;
    var rest := heads.Keys;
    while rest != {}
      invariant rest <= heads.Keys
      invariant forall b :: b in left <==> b in heads && (b in rest || Protected(m.checkedOut, b) || b in m.branches)
      invariant forall b :: b in left ==> left[b] == heads[b]
      decreases |rest|
    {
      var b :| b in rest;
      rest := rest - {b};
      if !Protected(m.checkedOut, b) && b !in m.branches { left := left - {b}; }
    }
  }

  method CheckNames(names: set<string>) returns (clear: bool)
    ensures clear == Storable(names)
  {
    clear := !exists a, b :: a in names && b in names && Under(a, b);
  }

  /* ----- one synchronization ----- */

  function Lookup(heads: map<string, Commit>, branch: string): (tip: Option<Commit>)
    ensures tip.Just? <==> branch in heads
    ensures tip.Just? ==> heads[branch] == tip.value
  {
    if branch in heads then Just(heads[branch]) else Nothing
  }

  /** A branch of an attempt, or one that a worktree is on. */
  predicate Off(m: Manifest, branch: string) {
    branch in m.checkedOut || (|branch| >= 10 && branch[..10] == "omegacode/")
  }

  /**
   An older manifest moves no branch; a newer one makes the branches that are not off limits exactly its own; those
   never move. A manifest with a commit that did not arrive changes nothing, and a refused one has deleted only.
   */
  lemma SyncMirrors(r: Refs, m: Manifest, branch: string)
    ensures var (o, t) := Sync(r, m);
            && r.applied <= t.applied
            && (m.generation <= r.applied ==> t.heads == r.heads && !o.RefConflict?)
            && (Off(m, branch) ==> Lookup(t.heads, branch) == Lookup(r.heads, branch))
            && (o.Synced? && m.generation > r.applied && !Off(m, branch) ==>
                 Lookup(t.heads, branch) == Lookup(m.branches, branch) && t.applied == m.generation)
            && (o.Synced? ==> t.have == r.have + {m.base})
            && (!o.Synced? ==> t.applied == r.applied && t.have == r.have)
            && (o.BaseMissing? <==>
              !(m.base in m.present && forall b :: b in m.branches ==> m.branches[b] in m.present))
            && (o.BaseMissing? ==> t == r)
            && (o.RefConflict? && !Off(m, branch) ==>
                 Lookup(t.heads, branch) == if branch in m.branches then Lookup(r.heads, branch) else Nothing)
            && (!o.BaseMissing? && m.generation > r.applied ==> (o.RefConflict? <==> Conflicts(r.heads, m)))
  {
    assert forall b :: b in m.branches ==> m.branches[b] in m.branches.Values;
  }

  /**
   Given branch sets Git could store on either side, a newer manifest is refused exactly when one of its
   unprotected branches and a protected branch of the cache are in each other's way.
   */
  lemma ConflictsExactly(heads: map<string, Commit>, m: Manifest)
    requires Storable(heads.Keys) && Storable(m.branches.Keys)
    ensures Conflicts(heads, m) <==>
            exists p, w :: p in heads && Protected(m.checkedOut, p) && w in Wanted(m) && (Under(p, w) || Under(w, p))
  {
    if p, w :| p in heads && Protected(m.checkedOut, p) && w in Wanted(m) && (Under(p, w) || Under(w, p)) {
      assert p in Surviving(heads, m) && w in Wanted(m);
    }
    if Conflicts(heads, m) {
      var a, b :| a in Surviving(heads, m).Keys + Wanted(m).Keys && b in Surviving(heads, m).Keys + Wanted(m).Keys &&
        Under(a, b);
      assert a in heads && b in heads ==> false;
      assert a in m.branches && b in m.branches ==> false;
    }
  }

  predicate Below(dir: string, name: string, rest: string) { name == dir + "/" + rest }

  /** One name is in the way of another exactly when that is a path below it. */
  lemma UnderIsBelow(dir: string, name: string)
    ensures Under(dir, name) <==> exists rest :: Below(dir, name, rest)
  {
    if Under(dir, name) { assert Below(dir, name, name[|dir| + 1..]); }
  }

  /** A branch named `omegacode` is such a one as soon as the machine holds any attempt's branch. */
  lemma OmegacodeBranchConflicts(heads: map<string, Commit>, m: Manifest, attempt: string)
    requires "omegacode/" + attempt in heads && "omegacode" in m.branches && "omegacode" !in m.checkedOut
    ensures Conflicts(heads, m)
  {
    var p := "omegacode/" + attempt;
    assert p[..|"omegacode/"|] == "omegacode/" && p[..|"omegacode"|] == "omegacode";
    assert p in Surviving(heads, m) && "omegacode" in Wanted(m) && Under("omegacode", p);
  }

  /* ----- any arrival order ----- */

  /** Between synchronizations worktrees come and go, moving only branches that are protected then. */
  datatype Event = Prepared(m: Manifest) | Worktree(heads: map<string, Commit>)

  ghost predicate Allowed(r: Refs, e: Event, branch: string) {
    match e
    case Prepared(m) => !Protected(m.checkedOut, branch) && !Sync(r, m).0.RefConflict?
    case Worktree(heads) => Lookup(heads, branch) == Lookup(r.heads, branch)
  }

  ghost function Apply(r: Refs, e: Event): Refs {
    match e
    case Prepared(m) => Sync(r, m).1
    case Worktree(heads) => r.(heads := heads)
  }

  ghost function After(r: Refs, es: seq<Event>): Refs {
    if es == [] then r else Apply(After(r, es[..|es| - 1]), es[|es| - 1])
  }

  /** `branch` is not protected when a manifest arrives, nor moved by a worktree, and no manifest is refused. */
  ghost predicate Open(r: Refs, es: seq<Event>, branch: string) {
    es == [] || (Open(r, es[..|es| - 1], branch) && Allowed(After(r, es[..|es| - 1]), es[|es| - 1], branch))
  }

  /** The manifest of the highest generation that arrived complete; the first of them if several share it. */
  ghost function Newest(es: seq<Event>): Option<Manifest> {
    if es == [] then Nothing
    else
      var so, e := Newest(es[..|es| - 1]), es[|es| - 1];
      if e.Prepared? && Arrived(e.m) && e.m.generation > 0 && (so.Just? ==> e.m.generation > so.value.generation) then
        Just(e.m) else so
  }

  const FRESH: Refs := Refs(map[], {}, 0)

  /** In whatever order prepares arrive, the cache's open branches are the newest manifest's. */
  lemma {:induction false} NewestWins(es: seq<Event>, branch: string)
    requires Open(FRESH, es, branch)
    ensures var r, n := After(FRESH, es), Newest(es);
            && r.applied == (if n.Just? then n.value.generation else 0)
            && Lookup(r.heads, branch) == (if n.Just? then Lookup(n.value.branches, branch) else Nothing)
  {
    if es != [] {
      var before := es[..|es| - 1];
      NewestWins(before, branch);
      var e := es[|es| - 1];
      if e.Prepared? { SyncMirrors(After(FRESH, before), e.m, branch); }
    }
  }

  lemma {:induction false} NewestIsNewest(es: seq<Event>)
    ensures var n := Newest(es);
            && (n.Just? ==> Prepared(n.value) in es && Arrived(n.value) && n.value.generation > 0)
            && forall e :: e in es && e.Prepared? && Arrived(e.m) && e.m.generation > 0 ==>
              n.Just? && e.m.generation <= n.value.generation
  {
    if es != [] {
      var before, e := es[..|es| - 1], es[|es| - 1];
      NewestIsNewest(before);
      assert es == before + [e];
    }
  }

  ghost predicate DistinctStamps(es: seq<Event>) {
    forall d, e :: d in es && e in es && d.Prepared? && e.Prepared? && d.m.generation == e.m.generation ==> d == e
  }

  lemma SameNewest(es: seq<Event>, fs: seq<Event>)
    requires DistinctStamps(es) && forall e :: e in es <==> e in fs
    ensures Newest(es) == Newest(fs)
  {
    NewestIsNewest(es);
    NewestIsNewest(fs);
    hide Newest, Arrived;
    var a, b := Newest(es), Newest(fs);
    assert a.Just? ==> Prepared(a.value) in fs;
    assert b.Just? ==> Prepared(b.value) in es;
  }

  /** Stamps being distinct, the order of arrival does not matter. */
  lemma ArrivalOrderIsIrrelevant(es: seq<Event>, fs: seq<Event>, branch: string)
    requires multiset(es) == multiset(fs) && DistinctStamps(es)
    requires Open(FRESH, es, branch) && Open(FRESH, fs, branch)
    ensures Lookup(After(FRESH, es).heads, branch) == Lookup(After(FRESH, fs).heads, branch)
    ensures After(FRESH, es).applied == After(FRESH, fs).applied
  {
    NewestWins(es, branch);
    NewestWins(fs, branch);
    hide After, Newest, Open, Lookup, DistinctStamps;
    assert forall e :: e in es <==> e in fs by {
      assert forall e :: e in es <==> e in multiset(es);
      assert forall e :: e in fs <==> e in multiset(fs);
    }
    SameNewest(es, fs);
  }

  /** The applied generation never decreases, refused and incomplete manifests included. */
  lemma {:induction false} GenerationNeverDecreases(r: Refs, es: seq<Event>, n: nat)
    requires n <= |es|
    ensures After(r, es[..n]).applied <= After(r, es).applied
  {
    if n == |es| {
      assert es[..n] == es;
    } else {
      var before := es[..|es| - 1];
      GenerationNeverDecreases(r, before, n);
      assert before[..n] == es[..n];
      if es[|es| - 1].Prepared? { SyncMirrors(After(r, before), es[|es| - 1].m, ""); }
    }
  }
}
