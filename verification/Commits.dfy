/** Git history as far as the remote protocol looks at it: commits, reachability, and ref updates. */
module Commits {
  import opened Options

  type Files = string

  /** A commit is named by its contents, parents included, so histories are acyclic by construction. */
  datatype Commit = Commit(files: Files, parents: seq<Commit>)

  /** Everything `git rev-list c` lists. */
  function History(c: Commit): set<Commit> {
    {c} + set i, d | 0 <= i < |c.parents| && d in History(c.parents[i]) :: d
  }

  lemma {:induction false} HistoryIsTransitive(a: Commit, b: Commit, c: Commit)
    requires a in History(b) && b in History(c)
    ensures a in History(c)
    decreases c
  {
    if b != c {
      var i :| 0 <= i < |c.parents| && b in History(c.parents[i]);
      HistoryIsTransitive(a, b, c.parents[i]);
    }
  }

  function Reachable(ref: Option<Commit>): set<Commit> { if ref.Just? then History(ref.value) else {} }

  /** The new commit of a ref descends from the one it replaces, or the ref is new. */
  predicate FastForward(was: Option<Commit>, now: Commit) { was.Just? ==> was.value in History(now) }

  /** A ref update keeps every commit its ref reached exactly when it is a fast-forward. */
  lemma UpdateKeepsHistory(was: Option<Commit>, now: Commit)
    ensures Reachable(was) <= History(now) <==> FastForward(was, now)
  {
    if FastForward(was, now) {
      forall c | c in Reachable(was) ensures c in History(now) { HistoryIsTransitive(c, was.value, now); }
    } else {
      assert was.value in Reachable(was);
    }
  }

  /** A worktree: its HEAD, and its files when `git status` says they differ from it (ignored files aside). */
  datatype Checkout = Checkout(head: Commit, dirty: Option<Files>)

  /** The commit that holds everything in a worktree: snapshot() makes it. */
  function Sealed(w: Checkout): Commit {
    if w.dirty.Nothing? then w.head else Commit(w.dirty.value, [w.head])
  }

  lemma SealKeepsHead(w: Checkout)
    ensures w.head in History(Sealed(w)) && Sealed(Checkout(Sealed(w), Nothing)) == Sealed(w)
  {
    if w.dirty.Just? {
      assert Sealed(w).parents[0] == w.head;
      assert w.head in History(w.head);
    }
  }
}
