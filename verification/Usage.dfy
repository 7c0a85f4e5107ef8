/** Token and cost accounting of one agent call (src/dsl/types.ts). */
module Usage {
  import opened Options

  datatype Usage = Usage(
    inputTokens: int,
    outputTokens: int,
    costUsd: real,
    cacheRead: Option<int>,
    cacheCreation: Option<int>,
    reasoning: Option<int>)

  const EMPTY: Usage := Usage(0, 0, 0.0, Nothing, Nothing, Nothing)

  /** A counter nobody reported stays unreported. */
  function AddOptional(a: Option<int>, b: Option<int>): Option<int> {
    if a.Nothing? && b.Nothing? then Nothing
    else Just((if a.Just? then a.value else 0) + (if b.Just? then b.value else 0))
  }

  function Add(a: Usage, b: Usage): Usage {
    Usage(a.inputTokens + b.inputTokens,
          a.outputTokens + b.outputTokens,
          a.costUsd + b.costUsd,
          AddOptional(a.cacheRead, b.cacheRead),
          AddOptional(a.cacheCreation, b.cacheCreation),
          AddOptional(a.reasoning, b.reasoning))
  }

  /** Usages form a commutative monoid, so a total does not depend on the order agents finish in. */
  lemma AddIsCommutativeMonoid(a: Usage, b: Usage, c: Usage)
    ensures Add(a, EMPTY) == a && Add(EMPTY, a) == a
    ensures Add(a, b) == Add(b, a)
    ensures Add(Add(a, b), c) == Add(a, Add(b, c))
  {}

  function Sum(us: seq<Usage>): Usage {
    if us == [] then EMPTY else Add(Sum(us[..|us| - 1]), us[|us| - 1])
  }

  lemma {:induction false} SumConcat(a: seq<Usage>, b: seq<Usage>)
    ensures Sum(a + b) == Add(Sum(a), Sum(b))
  {
    if b == [] {
      assert a + b == a;
      AddIsCommutativeMonoid(Sum(a), EMPTY, EMPTY);
    } else {
      var n := |b| - 1;
      assert (a + b)[..|a + b| - 1] == a + b[..n];
      SumConcat(a, b[..n]);
      AddIsCommutativeMonoid(Sum(a), Sum(b[..n]), b[n]);
    }
  }
}
