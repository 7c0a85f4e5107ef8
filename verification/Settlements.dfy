/** A log of settled promises: each promise is a ticket, and may be resolved or rejected once. */
module Settlements {
  datatype Outcome = Resolved(value: string) | Rejected(reason: string)

  datatype Settlement = Settlement(ticket: nat, outcome: Outcome)

  /** How often a promise was settled. */
  function Times(log: seq<Settlement>, ticket: nat): nat {
    if log == [] then 0 else Times(log[..|log| - 1], ticket) + if log[|log| - 1].ticket == ticket then 1 else 0
  }

  lemma TimesSnoc(log: seq<Settlement>, s: Settlement, ticket: nat)
    ensures Times(log + [s], ticket) == Times(log, ticket) + if s.ticket == ticket then 1 else 0
  {
    assert (log + [s])[..|log|] == log;
  }

  lemma {:induction false} TimesConcat(a: seq<Settlement>, b: seq<Settlement>, ticket: nat)
    ensures Times(a + b, ticket) == Times(a, ticket) + Times(b, ticket)
  {
    if b == [] {
      assert a + b == a;
    } else {
      assert (a + b)[..|a + b| - 1] == a + b[..|b| - 1];
      TimesConcat(a, b[..|b| - 1], ticket);
    }
  }
}
