/**
 The FIFO semaphore that bounds running agents (src/runtime/semaphore.ts). A release hands its slot to the
 next waiter without giving it up in between.
 */
module Semaphore {
  import opened Options

  /**
   `active` and `queue` are the semaphore; the rest is the history of its acquire() calls, numbered in order:
   who was granted a slot, and when, who released it, and who was aborted while waiting.
   */
  datatype Sem = Sem(limit: nat, active: nat, queue: seq<nat>, calls: nat, granted: seq<nat>, released: set<nat>,
    aborted: set<nat>)

  datatype Event = Acquire(aborted: bool) | Abort(k: nat) | Release(k: nat)

  function IndexOf(q: seq<nat>, k: nat): (i: nat)
    ensures i <= |q| && (i < |q| ==> q[i] == k) && (i == |q| ==> k !in q)
  {
    if q == [] || q[0] == k then 0 else 1 + IndexOf(q[1..], k)
  }

  function Acquired(s: Sem, aborted: bool): Sem {
    var t := s.(calls := s.calls + 1);
    if aborted then t.(aborted := s.aborted + {s.calls})
    else if s.active < s.limit then t.(active := s.active + 1, granted := s.granted + [s.calls])
    else t.(queue := s.queue + [s.calls])
  }

  /** An abort is only heard while waiting: being granted a slot removes the listener. */
  function Aborted(s: Sem, k: nat): Sem {
    var i := IndexOf(s.queue, k);
    if i == |s.queue| then s else s.(queue := s.queue[..i] + s.queue[i + 1..], aborted := s.aborted + {k})
  }

  /** The release of a slot: a no-op before it is granted, or the second time. */
  function Released(s: Sem, k: nat): Sem {
    if k !in s.granted || k in s.released then s
    else
      var t := s.(released := s.released + {k});
      if s.queue != [] then t.(queue := s.queue[1..], granted := s.granted + [s.queue[0]])
      else if s.active == 0 then t
      else t.(active := s.active - 1)
  }

  function Next(s: Sem, e: Event): Sem {
    match e
    case Acquire(aborted) => Acquired(s, aborted)
    case Abort(k) => Aborted(s, k)
    case Release(k) => Released(s, k)
  }

  function Fresh(limit: nat): Sem { Sem(limit, 0, [], 0, [], {}, {}) }

  function Exec(limit: nat, es: seq<Event>): Sem {
    if es == [] then Fresh(limit) else Next(Exec(limit, es[..|es| - 1]), es[|es| - 1])
  }

  class Semaphore {
    const limit: nat
    var active: nat
    var queue: seq<nat>
    var calls: nat
    var granted: seq<nat>
    var released: set<nat>
    var aborted: set<nat>

    ghost predicate Valid()
      reads this
    {
      Sound(State())
    }

    function State(): Sem
      reads this
    {
      Sem(limit, active, queue, calls, granted, released, aborted)
    }

    constructor (limit: nat)
      requires limit >= 1
      ensures State() == Fresh(limit) && Valid()
    {
      this.limit := limit;
      active, queue, calls, granted, released, aborted := 0, [], 0, [], {}, {};
    }

    /** A limit that is not positive is refused. */
    static method Create(limit: int) returns (s: Option<Semaphore>)
      ensures s.Just? <==> limit >= 1
      ensures s.Just? ==> fresh(s.value) && s.value.State() == Fresh(limit) && s.value.Valid()
    {
      if limit < 1 { return Nothing; }
      var sem := new Semaphore(limit);
      return Just(sem);
    }

    /** Returns the call's number, and whether a slot was granted at once. */
    method Acquire(abortedAlready: bool) returns (k: nat, now: bool)
      requires Valid()
      modifies this
      ensures Valid() && State() == Acquired(old(State()), abortedAlready)
      ensures k == old(calls) && now == (!abortedAlready && old(active) < limit)
    {
      AcquireKeepsSound(State(), abortedAlready);
      k, now := calls, false;
      calls := calls + 1;
      if abortedAlready {
        aborted := aborted + {k};
      } else if active < limit {
        active, granted, now := active + 1, granted + [k], true;
      } else {
        queue := queue + [k];
      }
    }

    method Abort(k: nat)
      requires Valid()
      modifies this
      ensures Valid() && State() == Aborted(old(State()), k)
    {
      AbortKeepsSound(State(), k);
      var i := IndexOf(queue, k);
      if i < |queue| {
        queue := queue[..i] + queue[i + 1..];
        aborted := aborted + {k};
      }
    }

    method Release(k: nat)
      requires Valid()
      modifies this
      ensures Valid() && State() == Released(old(State()), k)
    {
      ReleaseKeepsSound(State(), k);
      if k !in granted || k in released { return; }
      released := released + {k};
      if queue != [] {
        granted := granted + [queue[0]];
        queue := queue[1..];
      } else {
        active := active - 1;
      }
    }
  }

  /* ----- safety over all runs ----- */

  predicate Increasing(q: seq<nat>) { forall i, j :: 0 <= i < j < |q| ==> q[i] < q[j] }

  function Elements(q: seq<nat>): set<nat> { set k | k in q }

  /** Those holding a slot now: granted, and not released. */
  function Holders(s: Sem): set<nat> { Elements(s.granted) - s.released }

  ghost predicate Sound(s: Sem) {
    && s.limit >= 1 && |Holders(s)| == s.active <= s.limit
    && (s.queue != [] ==> s.active == s.limit)
    && s.released <= Elements(s.granted)
    && Increasing(s.granted + s.queue)
    && (forall k: nat :: k < s.calls <==> k in s.granted || k in s.queue || k in s.aborted)
    && (forall k :: k in s.aborted ==> k !in s.granted && k !in s.queue)
  }

  lemma SnocKeepsOrder(q: seq<nat>, k: nat)
    requires Increasing(q) && forall j :: j in q ==> j < k
    ensures Increasing(q + [k])
  {
    assert forall i :: 0 <= i < |q| ==> q[i] in q;
  }

  /** A new call's number is past every other. */
  lemma NumberIsNew(s: Sem)
    requires Sound(s)
    ensures s.calls !in s.granted && s.calls !in s.queue && s.calls !in s.aborted && s.calls !in Holders(s)
    ensures Increasing(s.granted + s.queue + [s.calls])
  {
    assert forall j :: j in s.granted + s.queue ==> j in s.granted || j in s.queue;
    SnocKeepsOrder(s.granted + s.queue, s.calls);
  }

  lemma GrantAdds(granted: seq<nat>, released: set<nat>, k: nat)
    requires k !in granted && released <= Elements(granted)
    ensures Elements(granted + [k]) == Elements(granted) + {k}
    ensures |Elements(granted + [k]) - released| == |Elements(granted) - released| + 1
  {
    assert Elements(granted + [k]) - released == (Elements(granted) - released) + {k};
  }

  lemma ReleaseTakes(granted: seq<nat>, released: set<nat>, k: nat)
    requires k in granted && k !in released
    ensures k in Elements(granted) && |Elements(granted) - (released + {k})| == |Elements(granted) - released| - 1
  {
    assert Elements(granted) - (released + {k}) == (Elements(granted) - released) - {k};
  }

  lemma AcquireKeepsSound(s: Sem, aborted: bool)
    requires Sound(s)
    ensures Sound(Acquired(s, aborted))
  {
    hide Increasing, Elements;
    NumberIsNew(s);
    if aborted {
      assert Increasing(s.granted + s.queue);
    } else if s.active < s.limit {
      assert s.queue == [];
      assert s.granted + s.queue + [s.calls] == s.granted + [s.calls] + s.queue;
      GrantAdds(s.granted, s.released, s.calls);
    } else {
      assert s.granted + s.queue + [s.calls] == s.granted + (s.queue + [s.calls]);
    }
  }

  lemma AbortKeepsSound(s: Sem, k: nat)
    requires Sound(s)
    ensures Sound(Aborted(s, k))
  {
    hide Increasing;
    var i := IndexOf(s.queue, k);
    if i < |s.queue| {
      var t := Aborted(s, k);
      assert forall j :: j in s.queue <==> j in t.queue || j == k by {
        assert s.queue == s.queue[..i] + [k] + s.queue[i + 1..];
      }
      CutKeepsOrder(s.granted, s.queue, i);
      assert Holders(t) == Holders(s);
    }
  }

  lemma CutKeepsOrder(a: seq<nat>, q: seq<nat>, i: nat)
    requires Increasing(a + q) && i < |q|
    ensures Increasing(a + (q[..i] + q[i + 1..])) && q[i] !in a && q[i] !in q[..i] + q[i + 1..]
  {
    var all, cut, at := a + q, a + (q[..i] + q[i + 1..]), |a| + i;
    assert all[at] == q[i];
    assert forall j :: 0 <= j < |cut| ==> cut[j] == all[if j < at then j else j + 1];
    assert forall j :: 0 <= j < |a| ==> a[j] == all[j];
    var r := q[..i] + q[i + 1..];
    assert forall j :: 0 <= j < |r| ==> r[j] == cut[|a| + j];
  }

  lemma ReleaseKeepsSound(s: Sem, k: nat)
    requires Sound(s)
    ensures Sound(Released(s, k))
  {
    hide Increasing, Elements;
    if k in s.granted && k !in s.released {
      ReleaseTakes(s.granted, s.released, k);
      if s.queue != [] { HandOffKeepsSound(s, k); }
    }
  }

  lemma HandOffKeepsSound(s: Sem, k: nat)
    requires Sound(s) && k in s.granted && k !in s.released && s.queue != []
    ensures Sound(Released(s, k))
  {
    hide Increasing, Elements;
    var t, head := Released(s, k), s.queue[0];
    CutKeepsOrder(s.granted, s.queue, 0);
    ReleaseTakes(s.granted, s.released, k);
    GrantAdds(s.granted, s.released + {k}, head);
    assert t.granted + t.queue == s.granted + s.queue;
    assert s.queue == [head] + t.queue && s.queue[..0] + s.queue[1..] == t.queue;
  }

  lemma {:induction false} Reached(limit: nat, es: seq<Event>)
    requires limit >= 1
    ensures Sound(Exec(limit, es)) && Exec(limit, es).limit == limit
  {
    hide Sound;
    if es == [] {
      FreshIsSound(limit);
    } else {
      var s := Exec(limit, es[..|es| - 1]);
      Reached(limit, es[..|es| - 1]);
      match es[|es| - 1]
      case Acquire(aborted) => AcquireKeepsSound(s, aborted);
      case Abort(k) => AbortKeepsSound(s, k);
      case Release(k) => ReleaseKeepsSound(s, k);
    }
  }

  lemma FreshIsSound(limit: nat)
    requires limit >= 1
    ensures Sound(Fresh(limit))
  {
    assert Holders(Fresh(limit)) == {};
  }

  /**
   Never more than `limit` holders, each counted once in `active`; and while anyone waits, the semaphore is
   full and someone holds a slot whose release will wake the first in line: no slot is ever lost.
   */
  lemma NeverOverAdmitsNorLosesASlot(limit: nat, es: seq<Event>)
    requires limit >= 1
    ensures var s := Exec(limit, es);
            && |Holders(s)| == s.active <= limit
            && (s.queue != [] ==> |Holders(s)| == limit)
            && (s.queue != [] ==> forall k :: k in Holders(s) ==> Released(s, k).granted == s.granted + [s.queue[0]])
  {
    hide Exec;
    Reached(limit, es);
  }

  /**
   Slots are granted in the order of the calls: when a call has one, every earlier call had one before it or was
   aborted.
   */
  lemma GrantsAreFifo(limit: nat, es: seq<Event>, j: nat, k: nat)
    requires limit >= 1 && j < k && k in Exec(limit, es).granted && j !in Exec(limit, es).aborted
    ensures var s := Exec(limit, es);
            exists a, b :: 0 <= a < b < |s.granted| && s.granted[a] == j && s.granted[b] == k
  {
    hide Exec;
    Reached(limit, es);
    var s := Exec(limit, es);
    var all := s.granted + s.queue;
    var b :| 0 <= b < |s.granted| && s.granted[b] == k;
    assert k in s.granted && k < s.calls && j < s.calls;
    assert j in s.granted || j in s.queue;
    assert j in all;
    var a :| 0 <= a < |all| && all[a] == j;
    assert all[b] == k && a < b;
  }

  /** An abort removes only its own waiter: everyone else keeps their place, slots and all. */
  lemma AbortRemovesOnlyItsOwn(limit: nat, es: seq<Event>, k: nat)
    requires limit >= 1
    ensures var s, t := Exec(limit, es), Aborted(Exec(limit, es), k);
            && t.active == s.active && t.granted == s.granted && t.released == s.released
            && (forall j :: j != k ==> (j in s.queue <==> j in t.queue)) && k !in t.queue
            && (k in s.granted ==> t == s)
  {
    hide Exec;
    Reached(limit, es);
    AbortKeepsSound(Exec(limit, es), k);
    var s := Exec(limit, es);
    var i := IndexOf(s.queue, k);
    if i < |s.queue| {
      CutKeepsOrder(s.granted, s.queue, i);
      assert s.queue == s.queue[..i] + [k] + s.queue[i + 1..];
    }
  }

  /** Releasing again changes nothing. */
  lemma ReleaseIsIdempotent(s: Sem, k: nat)
    requires Sound(s)
    ensures Released(Released(s, k), k) == Released(s, k)
  {}
}
