/** What the Dormand–Prince 5(4) table of `construct_dopri5` and the
    mid-point weights of `construct_4th` satisfy. */
module Dopri5Properties {
  import opened Vectors
  import opened Butcher
  import opened OrderConditions
  import opened Constants
  import opened Dopri5Evaluation

  /** Each row of `A` sums to the node `c[i]` it belongs to, exactly. */
  lemma Dopri5RowSums()
    ensures RowSums(ConstructDopri5(), 0.0)
    ensures forall i :: 0 <= i < 6 ==> Sum(ConstructDopri5().A[i]) == ConstructDopri5().c[i]
  {
  }

  /** With the omitted leading 0 restored, the nodes are non-decreasing
      and lie in [0, 1]. */
  lemma Dopri5Nodes()
    ensures NodesOrdered(ConstructDopri5())
  {
  }

  /** The solution weights sum to 1. */
  lemma Dopri5Consistent()
    ensures Consistent(ConstructDopri5(), 0.0)
    ensures Sum(ConstructDopri5().bSol) == 1.0
  {
  }

  /** First same as last; so the last stage sits at the end of the step. */
  lemma Dopri5Fsal()
    ensures Fsal(ConstructDopri5())
    ensures Nodes(ConstructDopri5())[6] == 1.0
  {
    Dopri5RowSums();
    Dopri5Consistent();
    FsalLastNode(ConstructDopri5(), 0.0);
  }

  /** The returned error weights are `bsol - berr` for the literal embedded
      weights, so the embedded weights can be read back from the table. */
  lemma Dopri5EmbeddedWeights()
    ensures EmbeddedWeights(ConstructDopri5()) == Dopri5LowOrderWeights()
    ensures forall i :: 0 <= i < 7 ==>
      ConstructDopri5().bErr[i] == ConstructDopri5().bSol[i] - Dopri5LowOrderWeights()[i]
  {
    SubSub(ConstructDopri5().bSol, Dopri5LowOrderWeights());
  }

  /** The embedded weights sum to 1 as well, so the error weights sum to 0. */
  lemma Dopri5ErrorWeightsSum()
    ensures Sum(Dopri5LowOrderWeights()) == 1.0
    ensures Sum(ConstructDopri5().bErr) == 0.0
  {
    var t := ConstructDopri5();
    Dopri5Consistent();
    Dopri5EmbeddedWeights();
    ErrorWeightsSum(t);
  }

  /** The solution weights have order 5: all 17 conditions hold exactly. */
  lemma Dopri5SolutionOrder()
    ensures HasOrder(ConstructDopri5(), ConstructDopri5().bSol, 5, 0.0)
  {
    forall k | 0 <= k < |Trees()| && Order(Trees()[k]) <= 5
      ensures TreeCondition(ConstructDopri5().bSol, N(), R(), Trees()[k], 1.0, 0.0)
    {
      TreeFacts(k);
    }
  }

  /** The embedded weights have order 4. */
  lemma Dopri5EmbeddedOrder()
    ensures HasOrder(ConstructDopri5(), EmbeddedWeights(ConstructDopri5()), 4, 0.0)
  {
    Dopri5EmbeddedWeights();
    forall k | 0 <= k < |Trees()| && Order(Trees()[k]) <= 4
      ensures TreeCondition(Dopri5LowOrderWeights(), N(), R(), Trees()[k], 1.0, 0.0)
    {
      TreeFacts(k);
    }
  }

  /** The embedded weights do not have order 5, not even to within a
      tolerance below 71/405000: they give b . c^4 = 1/5 - 71/405000. */
  lemma Dopri5EmbeddedNotOrder5(tol: real)
    requires tol < 71.0 / 405000.0
    ensures !HasOrder(ConstructDopri5(), EmbeddedWeights(ConstructDopri5()), 5, tol)
  {
    Dopri5EmbeddedWeights();
    LowOrderWeightsNotOrder5(tol);
  }

  /** The condition of the tree c^4 fails for the literal embedded weights. */
  lemma LowOrderWeightsNotOrder5(tol: real)
    requires tol < 71.0 / 405000.0
    ensures !SatisfiesAt(Dopri5LowOrderWeights(), N(), R(), 5, 1.0, tol)
  {
    Witness8Low();
    Coefficient8();
    TreeOrder8();
    assert !TreeCondition(Dopri5LowOrderWeights(), N(), R(), Trees()[8], 1.0, tol);
  }

  /** The error estimate cancels every term of order at most 4: the error
      weights annihilate the elementary weight vectors of those trees. */
  lemma Dopri5ErrorAnnihilates()
    ensures forall k :: 0 <= k < |Trees()| && Order(Trees()[k]) <= 4 ==>
      Dot(ConstructDopri5().bErr, ElementaryWeight(Trees()[k], N(), R())) == 0.0
  {
    var t := ConstructDopri5();
    Dopri5SolutionOrder();
    Dopri5EmbeddedOrder();
    assert HasOrder(t, t.bSol, 4, 0.0);
    ErrorWeightsAnnihilate(t, 4, 0.0);
  }

  /** The mid-point weights: one per dopri5 stage, no weight on stage 2
      (which the solution weights skip too), and they sum to 1/2 to within
      the rounding of their binary64 decimals. */
  lemma MidpointWeights()
    ensures |Construct4th()| == |ConstructDopri5().bSol|
    ensures Construct4th()[1] == 0.0 == ConstructDopri5().bSol[1]
    ensures Within(Sum(Construct4th()), 0.5, MidpointTolerance)
  {
    SumMid();
  }

  /** Evaluated at the mid-point, the dense output is of order 4: the
      mid-point weights meet the conditions of every tree of order at most 4
      at theta = 1/2, to within the rounding of their decimals. */
  lemma MidpointOrder()
    ensures SatisfiesAt(Construct4th(), N(), R(), 4, 0.5, MidpointTolerance)
  {
    forall k | 0 <= k < |Trees()| && Order(Trees()[k]) <= 4
      ensures TreeCondition(Construct4th(), N(), R(), Trees()[k], 0.5, MidpointTolerance)
    {
      TreeFacts(k);
    }
  }
}
