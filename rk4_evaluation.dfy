/** Exact evaluation of the order conditions of classical RK4: its stage vectors
    and, tree by tree, the dot products of its solution weights with the
    elementary weight vectors. */
module Rk4Evaluation {
  import opened Vectors
  import opened Butcher
  import opened OrderConditions
  import opened Constants

  /** Full node vector. */
  function N(): (r: seq<real>) {
    Nodes(ConstructRk4())
  }

  /** Full stage matrix. */
  function R(): (r: seq<seq<real>>) {
    Rows(ConstructRk4())
  }

  // The stage vectors the elementary weights are built from, written out
  // exactly, each with the product that yields it.

  /** c^2 */
  function C2(): (r: seq<real>) {
    [0.0, 0.25, 0.25, 1.0]
  }

  lemma EvalC2()
    ensures Had(N(), N()) == C2()
  {
  }

  /** A c */
  function Ac(): (r: seq<real>) {
    [0.0, 0.0, 0.25, 0.5]
  }

  lemma EvalAc()
    ensures MatVec(R(), N()) == Ac()
  {
  }

  /** c^3 */
  function C3(): (r: seq<real>) {
    [0.0, 0.125, 0.125, 1.0]
  }

  lemma EvalC3()
    ensures Had(N(), C2()) == C3()
  {
  }

  /** c (A c) */
  function CAc(): (r: seq<real>) {
    [0.0, 0.0, 0.125, 0.5]
  }

  lemma EvalCAc()
    ensures Had(N(), Ac()) == CAc()
  {
  }

  /** A c^2 */
  function AC2(): (r: seq<real>) {
    [0.0, 0.0, 0.125, 0.25]
  }

  lemma EvalAC2()
    ensures MatVec(R(), C2()) == AC2()
  {
  }

  /** A A c */
  function AAc(): (r: seq<real>) {
    [0.0, 0.0, 0.0, 0.25]
  }

  lemma EvalAAc()
    ensures MatVec(R(), Ac()) == AAc()
  {
  }

  /** c^4 */
  function C4(): (r: seq<real>) {
    [0.0, 0.0625, 0.0625, 1.0]
  }

  lemma EvalC4()
    ensures Had(N(), C3()) == C4()
  {
  }

  lemma EvalPhi0()
    ensures ElementaryWeight(Trees()[0], N(), R()) == Ones(4)
  {
  }

  lemma SumSol()
    ensures Sum(ConstructRk4().bSol) == 1.0
  {
  }

  lemma Tree0()
    ensures TreeCondition(ConstructRk4().bSol, N(), R(), Trees()[0], 1.0, 0.0)
  {
    EvalPhi0();
    SumSol();
    DotOnes(ConstructRk4().bSol, 4);
    Coefficient0();
  }

  lemma EvalPhi1()
    ensures ElementaryWeight(Trees()[1], N(), R()) == N()
  {
  }

  lemma Dot1Sol()
    ensures Dot(ConstructRk4().bSol, N()) == 0.5
  {
  }

  lemma Tree1()
    ensures TreeCondition(ConstructRk4().bSol, N(), R(), Trees()[1], 1.0, 0.0)
  {
    EvalPhi1();
    Dot1Sol();
    Coefficient1();
  }

  lemma EvalPhi2()
    ensures ElementaryWeight(Trees()[2], N(), R()) == C2()
  {
    EvalC2();
  }

  lemma Dot2Sol()
    ensures Dot(ConstructRk4().bSol, C2()) == 1.0 / 3.0
  {
  }

  lemma Tree2()
    ensures TreeCondition(ConstructRk4().bSol, N(), R(), Trees()[2], 1.0, 0.0)
  {
    EvalPhi2();
    Dot2Sol();
    Coefficient2();
  }

  lemma EvalPhi3()
    ensures ElementaryWeight(Trees()[3], N(), R()) == Ac()
  {
    EvalAc();
  }

  lemma Dot3Sol()
    ensures Dot(ConstructRk4().bSol, Ac()) == 1.0 / 6.0
  {
  }

  lemma Tree3()
    ensures TreeCondition(ConstructRk4().bSol, N(), R(), Trees()[3], 1.0, 0.0)
  {
    EvalPhi3();
    Dot3Sol();
    Coefficient3();
  }

  lemma EvalPhi4()
    ensures ElementaryWeight(Trees()[4], N(), R()) == C3()
  {
    EvalC2();
    EvalC3();
  }

  lemma Dot4Sol()
    ensures Dot(ConstructRk4().bSol, C3()) == 0.25
  {
  }

  lemma Tree4()
    ensures TreeCondition(ConstructRk4().bSol, N(), R(), Trees()[4], 1.0, 0.0)
  {
    EvalPhi4();
    Dot4Sol();
    Coefficient4();
  }

  lemma EvalPhi5()
    ensures ElementaryWeight(Trees()[5], N(), R()) == CAc()
  {
    EvalAc();
    EvalCAc();
  }

  lemma Dot5Sol()
    ensures Dot(ConstructRk4().bSol, CAc()) == 0.125
  {
  }

  lemma Tree5()
    ensures TreeCondition(ConstructRk4().bSol, N(), R(), Trees()[5], 1.0, 0.0)
  {
    EvalPhi5();
    Dot5Sol();
    Coefficient5();
  }

  lemma EvalPhi6()
    ensures ElementaryWeight(Trees()[6], N(), R()) == AC2()
  {
    EvalC2();
    EvalAC2();
  }

  lemma Dot6Sol()
    ensures Dot(ConstructRk4().bSol, AC2()) == 1.0 / 12.0
  {
  }

  lemma Tree6()
    ensures TreeCondition(ConstructRk4().bSol, N(), R(), Trees()[6], 1.0, 0.0)
  {
    EvalPhi6();
    Dot6Sol();
    Coefficient6();
  }

  lemma EvalPhi7()
    ensures ElementaryWeight(Trees()[7], N(), R()) == AAc()
  {
    EvalAc();
    EvalAAc();
  }

  lemma Dot7Sol()
    ensures Dot(ConstructRk4().bSol, AAc()) == 1.0 / 24.0
  {
  }

  lemma Tree7()
    ensures TreeCondition(ConstructRk4().bSol, N(), R(), Trees()[7], 1.0, 0.0)
  {
    EvalPhi7();
    Dot7Sol();
    Coefficient7();
  }

  lemma EvalPhi8()
    ensures ElementaryWeight(Trees()[8], N(), R()) == C4()
  {
    EvalC2();
    EvalC3();
    EvalC4();
  }

  lemma Dot8Sol()
    ensures Dot(ConstructRk4().bSol, C4()) == 5.0 / 24.0
  {
  }

  /** The condition of tree 8 fails for these weights. */
  lemma Witness8Sol()
    ensures Dot(ConstructRk4().bSol, ElementaryWeight(Trees()[8], N(), R())) == 5.0 / 24.0
  {
    EvalPhi8();
    Dot8Sol();
  }

  lemma Facts0(k: nat)
    requires k == 0
    ensures (Order(Trees()[k]) <= 4 ==> TreeCondition(ConstructRk4().bSol, N(), R(), Trees()[k], 1.0, 0.0))
  {
    Tree0();
    TreeOrder0();
  }

  lemma Facts1(k: nat)
    requires k == 1
    ensures (Order(Trees()[k]) <= 4 ==> TreeCondition(ConstructRk4().bSol, N(), R(), Trees()[k], 1.0, 0.0))
  {
    Tree1();
    TreeOrder1();
  }

  lemma TreeFacts0To1(k: nat)
    requires k < 2
    ensures (Order(Trees()[k]) <= 4 ==> TreeCondition(ConstructRk4().bSol, N(), R(), Trees()[k], 1.0, 0.0))
  {
    if k < 1 {
      Facts0(k);
    } else {
      Facts1(k);
    }
  }

  lemma Facts2(k: nat)
    requires k == 2
    ensures (Order(Trees()[k]) <= 4 ==> TreeCondition(ConstructRk4().bSol, N(), R(), Trees()[k], 1.0, 0.0))
  {
    Tree2();
    TreeOrder2();
  }

  lemma Facts3(k: nat)
    requires k == 3
    ensures (Order(Trees()[k]) <= 4 ==> TreeCondition(ConstructRk4().bSol, N(), R(), Trees()[k], 1.0, 0.0))
  {
    Tree3();
    TreeOrder3();
  }

  lemma TreeFacts2To3(k: nat)
    requires 2 <= k < 4
    ensures (Order(Trees()[k]) <= 4 ==> TreeCondition(ConstructRk4().bSol, N(), R(), Trees()[k], 1.0, 0.0))
  {
    if k < 3 {
      Facts2(k);
    } else {
      Facts3(k);
    }
  }

  lemma TreeFacts0To3(k: nat)
    requires k < 4
    ensures (Order(Trees()[k]) <= 4 ==> TreeCondition(ConstructRk4().bSol, N(), R(), Trees()[k], 1.0, 0.0))
  {
    if k < 2 {
      TreeFacts0To1(k);
    } else {
      TreeFacts2To3(k);
    }
  }

  lemma Facts4(k: nat)
    requires k == 4
    ensures (Order(Trees()[k]) <= 4 ==> TreeCondition(ConstructRk4().bSol, N(), R(), Trees()[k], 1.0, 0.0))
  {
    Tree4();
    TreeOrder4();
  }

  lemma Facts5(k: nat)
    requires k == 5
    ensures (Order(Trees()[k]) <= 4 ==> TreeCondition(ConstructRk4().bSol, N(), R(), Trees()[k], 1.0, 0.0))
  {
    Tree5();
    TreeOrder5();
  }

  lemma TreeFacts4To5(k: nat)
    requires 4 <= k < 6
    ensures (Order(Trees()[k]) <= 4 ==> TreeCondition(ConstructRk4().bSol, N(), R(), Trees()[k], 1.0, 0.0))
  {
    if k < 5 {
      Facts4(k);
    } else {
      Facts5(k);
    }
  }

  lemma Facts6(k: nat)
    requires k == 6
    ensures (Order(Trees()[k]) <= 4 ==> TreeCondition(ConstructRk4().bSol, N(), R(), Trees()[k], 1.0, 0.0))
  {
    Tree6();
    TreeOrder6();
  }

  lemma Facts7(k: nat)
    requires k == 7
    ensures (Order(Trees()[k]) <= 4 ==> TreeCondition(ConstructRk4().bSol, N(), R(), Trees()[k], 1.0, 0.0))
  {
    Tree7();
    TreeOrder7();
  }

  lemma TreeFacts6To7(k: nat)
    requires 6 <= k < 8
    ensures (Order(Trees()[k]) <= 4 ==> TreeCondition(ConstructRk4().bSol, N(), R(), Trees()[k], 1.0, 0.0))
  {
    if k < 7 {
      Facts6(k);
    } else {
      Facts7(k);
    }
  }

  lemma TreeFacts4To7(k: nat)
    requires 4 <= k < 8
    ensures (Order(Trees()[k]) <= 4 ==> TreeCondition(ConstructRk4().bSol, N(), R(), Trees()[k], 1.0, 0.0))
  {
    if k < 6 {
      TreeFacts4To5(k);
    } else {
      TreeFacts6To7(k);
    }
  }

  /** The conditions of tree `k` that the weight vectors of this tableau meet. */
  lemma TreeFacts(k: nat)
    requires k < 8
    ensures (Order(Trees()[k]) <= 4 ==> TreeCondition(ConstructRk4().bSol, N(), R(), Trees()[k], 1.0, 0.0))
  {
    if k < 4 {
      TreeFacts0To3(k);
    } else {
      TreeFacts4To7(k);
    }
  }

}

