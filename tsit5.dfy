/** What the Tsitouras 5(4) table of `construct_tsit5` satisfies. Its
    decimals are truncated, so every identity holds to within `Tolerance`
    (or twice it), not exactly. */
module Tsit5Properties {
  import opened Vectors
  import opened Butcher
  import opened OrderConditions
  import opened Constants
  import opened Tsit5Evaluation

  /** Each row of `A` sums to the node `c[i]` it belongs to. */
  lemma Tsit5RowSums()
    ensures RowSums(ConstructTsit5(), Tolerance)
  {
  }

  /** With the omitted leading 0 restored, the nodes are non-decreasing
      and lie in [0, 1]. */
  lemma Tsit5Nodes()
    ensures NodesOrdered(ConstructTsit5())
  {
  }

  /** The solution weights sum to 1. */
  lemma Tsit5Consistent()
    ensures Consistent(ConstructTsit5(), Tolerance)
  {
    SumSol();
  }

  /** First same as last, exactly; so the last stage sits at the end of the
      step. */
  lemma Tsit5Fsal()
    ensures Fsal(ConstructTsit5())
    ensures Within(Nodes(ConstructTsit5())[6], 1.0, 2.0 * Tolerance)
  {
    Tsit5RowSums();
    Tsit5Consistent();
    FsalLastNode(ConstructTsit5(), Tolerance);
  }

  /** The returned error weights are `bsol - berr` for the literal embedded
      weights, so the embedded weights can be read back from the table. */
  lemma Tsit5EmbeddedWeights()
    ensures EmbeddedWeights(ConstructTsit5()) == Tsit5LowOrderWeights()
    ensures forall i :: 0 <= i < 7 ==>
      ConstructTsit5().bErr[i] == ConstructTsit5().bSol[i] - Tsit5LowOrderWeights()[i]
  {
    SubSub(ConstructTsit5().bSol, Tsit5LowOrderWeights());
  }

  /** The embedded weights sum to 1 as well, so the error weights sum to 0,
      each to within the tolerance of the decimals. */
  lemma Tsit5ErrorWeightsSum()
    ensures Within(Sum(Tsit5LowOrderWeights()), 1.0, Tolerance)
    ensures Within(Sum(ConstructTsit5().bErr), 0.0, 2.0 * Tolerance)
  {
    var t := ConstructTsit5();
    Tsit5Consistent();
    SumLow();
    Tsit5EmbeddedWeights();
    ErrorWeightsSum(t);
  }

  /** The solution weights have order 5: all 17 conditions hold to within
      the tolerance. */
  lemma Tsit5SolutionOrder()
    ensures HasOrder(ConstructTsit5(), ConstructTsit5().bSol, 5, Tolerance)
  {
    forall k | 0 <= k < |Trees()| && Order(Trees()[k]) <= 5
      ensures TreeCondition(ConstructTsit5().bSol, N(), R(), Trees()[k], 1.0, Tolerance)
    {
      TreeFacts(k);
    }
  }

  /** The embedded weights have order 4. */
  lemma Tsit5EmbeddedOrder()
    ensures HasOrder(ConstructTsit5(), EmbeddedWeights(ConstructTsit5()), 4, Tolerance)
  {
    Tsit5EmbeddedWeights();
    forall k | 0 <= k < |Trees()| && Order(Trees()[k]) <= 4
      ensures TreeCondition(Tsit5LowOrderWeights(), N(), R(), Trees()[k], 1.0, Tolerance)
    {
      TreeFacts(k);
    }
  }

  /** The embedded weights do not have order 5, not even to within a
      tolerance below 1/2000: their b . c^4 misses 1/5 by more than that. */
  lemma Tsit5EmbeddedNotOrder5(tol: real)
    requires tol < 1.0 / 2000.0
    ensures !HasOrder(ConstructTsit5(), EmbeddedWeights(ConstructTsit5()), 5, tol)
  {
    Tsit5EmbeddedWeights();
    LowOrderWeightsNotOrder5(tol);
  }

  /** The condition of the tree c^4 fails for the literal embedded weights. */
  lemma LowOrderWeightsNotOrder5(tol: real)
    requires tol < 1.0 / 2000.0
    ensures !SatisfiesAt(Tsit5LowOrderWeights(), N(), R(), 5, 1.0, tol)
  {
    Witness8Low();
    Coefficient8();
    TreeOrder8();
    assert !TreeCondition(Tsit5LowOrderWeights(), N(), R(), Trees()[8], 1.0, tol);
  }

  /** The error estimate cancels every term of order at most 4, to within
      twice the tolerance. */
  lemma Tsit5ErrorAnnihilates()
    ensures forall k :: 0 <= k < |Trees()| && Order(Trees()[k]) <= 4 ==>
      Within(Dot(ConstructTsit5().bErr, ElementaryWeight(Trees()[k], N(), R())), 0.0, 2.0 * Tolerance)
  {
    var t := ConstructTsit5();
    Tsit5SolutionOrder();
    Tsit5EmbeddedOrder();
    assert HasOrder(t, t.bSol, 4, Tolerance);
    ErrorWeightsAnnihilate(t, 4, Tolerance);
  }
}
