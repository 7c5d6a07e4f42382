/** What the classical RK4 table of `construct_rk4` satisfies. */
module Rk4Properties {
  import opened Vectors
  import opened Butcher
  import opened OrderConditions
  import opened Constants
  import opened Rk4Evaluation

  /** Each row of `A` sums to the node `c[i+1]` it belongs to. */
  lemma Rk4RowSums()
    ensures RowSums(ConstructRk4(), 0.0)
    ensures forall i :: 0 <= i < 3 ==> Sum(ConstructRk4().A[i]) == ConstructRk4().c[i + 1]
  {
  }

  /** The nodes 0, 1/2, 1/2, 1 are ordered within the step, and the node
      vector begins with the node 0 that `c` lists itself. */
  lemma Rk4Nodes()
    ensures NodesOrdered(ConstructRk4())
    ensures Nodes(ConstructRk4())[0] == 0.0
  {
  }

  /** The solution weights sum to 1. */
  lemma Rk4Consistent()
    ensures Consistent(ConstructRk4(), 0.0)
    ensures Sum(ConstructRk4().bSol) == 1.0
  {
  }

  /** The last row of RK4 is not its solution weights: RK4 is not
      first-same-as-last. */
  lemma Rk4NotFsal()
    ensures !Fsal(ConstructRk4())
  {
    assert ConstructRk4().A[2][0] != ConstructRk4().bSol[0];
  }

  /** The error vector is a placeholder: one zero entry rather than one
      error weight per stage. */
  lemma Rk4ErrorPlaceholder()
    ensures ConstructRk4().bErr == [0.0]
    ensures |ConstructRk4().bErr| != Stages(ConstructRk4()) && !EmbeddedShape(ConstructRk4())
  {
  }

  /** RK4 has order 4: its weights meet the conditions of all eight trees of
      order at most 4 exactly. */
  lemma Rk4Order()
    ensures HasOrder(ConstructRk4(), ConstructRk4().bSol, 4, 0.0)
  {
    forall k | 0 <= k < |Trees()| && Order(Trees()[k]) <= 4
      ensures TreeCondition(ConstructRk4().bSol, N(), R(), Trees()[k], 1.0, 0.0)
    {
      TreeFacts(k);
    }
  }

  /** RK4 does not have order 5, not even to within a tolerance below 1/120:
      its weights give b . c^4 = 5/24 instead of 1/5. */
  lemma Rk4NotOrder5(tol: real)
    requires tol < 1.0 / 120.0
    ensures !HasOrder(ConstructRk4(), ConstructRk4().bSol, 5, tol)
  {
    Witness8Sol();
    Coefficient8();
    TreeOrder8();
    assert !TreeCondition(ConstructRk4().bSol, N(), R(), Trees()[8], 1.0, tol);
  }
}
