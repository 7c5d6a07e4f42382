/** Exact evaluation of the order conditions of Dormand–Prince 5(4): its stage vectors
    and, tree by tree, the dot products of its solution weights, the embedded weights and the mid-point dense-output weights with the
    elementary weight vectors. */
module Dopri5Evaluation {
  import opened Vectors
  import opened Butcher
  import opened OrderConditions
  import opened Constants

  /** How closely the binary64 mid-point weights meet their conditions. */
  const MidpointTolerance: real := 1.0e-16

  /** Full node vector. */
  function N(): (r: seq<real>) {
    Nodes(ConstructDopri5())
  }

  /** Full stage matrix. */
  function R(): (r: seq<seq<real>>) {
    Rows(ConstructDopri5())
  }

  // The stage vectors the elementary weights are built from, written out
  // exactly, each with the product that yields it.

  /** c^2 */
  function C2(): (r: seq<real>) {
    [0.0, 0.04, 0.09, 0.64, 64.0 / 81.0, 1.0, 1.0]
  }

  lemma EvalC2()
    ensures Had(N(), N()) == C2()
  {
  }

  /** A c */
  function Ac(): (r: seq<real>) {
    [0.0, 0.0, 0.045, 0.32, 32.0 / 81.0, 0.5, 0.5]
  }

  lemma EvalAc()
    ensures MatVec(R(), N()) == Ac()
  {
  }

  /** c^3 */
  function C3(): (r: seq<real>) {
    [0.0, 0.008, 0.027, 0.512, 512.0 / 729.0, 1.0, 1.0]
  }

  lemma EvalC3()
    ensures Had(N(), C2()) == C3()
  {
  }

  /** c (A c) */
  function CAc(): (r: seq<real>) {
    [0.0, 0.0, 0.0135, 0.256, 256.0 / 729.0, 0.5, 0.5]
  }

  lemma EvalCAc()
    ensures Had(N(), Ac()) == CAc()
  {
  }

  /** A c^2 */
  function AC2(): (r: seq<real>) {
    [0.0, 0.0, 0.009, 64.0 / 375.0, 512.0 / 2187.0, 1.0 / 3.0, 1.0 / 3.0]
  }

  lemma EvalAC2()
    ensures MatVec(R(), C2()) == AC2()
  {
  }

  /** A A c */
  function AAc(): (r: seq<real>) {
    [0.0, 0.0, 0.0, 0.16, 424.0 / 1215.0, 21.0 / 55.0, 1.0 / 6.0]
  }

  lemma EvalAAc()
    ensures MatVec(R(), Ac()) == AAc()
  {
  }

  /** c^4 */
  function C4(): (r: seq<real>) {
    [0.0, 0.0016, 0.0081, 0.4096, 4096.0 / 6561.0, 1.0, 1.0]
  }

  lemma EvalC4()
    ensures Had(N(), C3()) == C4()
  {
  }

  /** c^2 (A c) */
  function C2Ac(): (r: seq<real>) {
    [0.0, 0.0, 0.00405, 0.2048, 2048.0 / 6561.0, 0.5, 0.5]
  }

  lemma EvalC2Ac()
    ensures Had(N(), CAc()) == C2Ac()
  {
  }

  /** (A c)^2 */
  function AcAc(): (r: seq<real>) {
    [0.0, 0.0, 0.002025, 0.1024, 1024.0 / 6561.0, 0.25, 0.25]
  }

  lemma EvalAcAc()
    ensures Had(Ac(), Ac()) == AcAc()
  {
  }

  /** c (A c^2) */
  function CAC2(): (r: seq<real>) {
    [0.0, 0.0, 0.0027, 256.0 / 1875.0, 4096.0 / 19683.0, 1.0 / 3.0, 1.0 / 3.0]
  }

  lemma EvalCAC2()
    ensures Had(N(), AC2()) == CAC2()
  {
  }

  /** c (A A c) */
  function CAAc(): (r: seq<real>) {
    [0.0, 0.0, 0.0, 0.128, 3392.0 / 10935.0, 21.0 / 55.0, 1.0 / 6.0]
  }

  lemma EvalCAAc()
    ensures Had(N(), AAc()) == CAAc()
  {
  }

  /** A c^3 */
  function AC3(): (r: seq<real>) {
    [0.0, 0.0, 0.0018, 124.0 / 1875.0, 1288.0 / 54675.0, 173.0 / 1650.0, 0.25]
  }

  lemma EvalAC3()
    ensures MatVec(R(), C3()) == AC3()
  {
  }

  /** A (c (A c)) */
  function ACAc(): (r: seq<real>) {
    [0.0, 0.0, 0.0, 0.048, 212.0 / 3645.0, 21.0 / 220.0, 0.125]
  }

  lemma EvalACAc()
    ensures MatVec(R(), CAc()) == ACAc()
  {
  }

  /** A A c^2 */
  function AAC2(): (r: seq<real>) {
    [0.0, 0.0, 0.0, 0.032, 424.0 / 10935.0, 7.0 / 110.0, 1.0 / 12.0]
  }

  lemma EvalAAC2()
    ensures MatVec(R(), AC2()) == AAC2()
  {
  }

  /** A A A c */
  function AAAc(): (r: seq<real>) {
    [0.0, 0.0, 0.0, 0.0, -848.0 / 18225.0, -14.0 / 275.0, 1.0 / 24.0]
  }

  lemma EvalAAAc()
    ensures MatVec(R(), AAc()) == AAAc()
  {
  }

  lemma EvalPhi0()
    ensures ElementaryWeight(Trees()[0], N(), R()) == Ones(7)
  {
  }

  lemma SumSol()
    ensures Sum(ConstructDopri5().bSol) == 1.0
  {
  }

  lemma SumLow()
    ensures Sum(Dopri5LowOrderWeights()) == 1.0
  {
  }

  lemma SumMid()
    ensures Sum(Construct4th()) == 0.499999999999999993
  {
  }

  lemma Tree0()
    ensures TreeCondition(ConstructDopri5().bSol, N(), R(), Trees()[0], 1.0, 0.0)
      && TreeCondition(Dopri5LowOrderWeights(), N(), R(), Trees()[0], 1.0, 0.0)
      && TreeCondition(Construct4th(), N(), R(), Trees()[0], 0.5, MidpointTolerance)
  {
    EvalPhi0();
    SumSol();
    DotOnes(ConstructDopri5().bSol, 7);
    SumLow();
    DotOnes(Dopri5LowOrderWeights(), 7);
    SumMid();
    DotOnes(Construct4th(), 7);
    HalfCoefficient0();
    Coefficient0();
  }

  lemma EvalPhi1()
    ensures ElementaryWeight(Trees()[1], N(), R()) == N()
  {
  }

  lemma Dot1Sol()
    ensures Dot(ConstructDopri5().bSol, N()) == 0.5
  {
  }

  lemma Dot1Low()
    ensures Dot(Dopri5LowOrderWeights(), N()) == 0.5
  {
  }

  lemma Dot1Mid()
    ensures Dot(Construct4th(), N()) == 0.124999999999999997
  {
  }

  lemma Tree1()
    ensures TreeCondition(ConstructDopri5().bSol, N(), R(), Trees()[1], 1.0, 0.0)
      && TreeCondition(Dopri5LowOrderWeights(), N(), R(), Trees()[1], 1.0, 0.0)
      && TreeCondition(Construct4th(), N(), R(), Trees()[1], 0.5, MidpointTolerance)
  {
    EvalPhi1();
    Dot1Sol();
    Dot1Low();
    Dot1Mid();
    HalfCoefficient1();
    Coefficient1();
  }

  lemma EvalPhi2()
    ensures ElementaryWeight(Trees()[2], N(), R()) == C2()
  {
    EvalC2();
  }

  lemma Dot2Sol()
    ensures Dot(ConstructDopri5().bSol, C2()) == 1.0 / 3.0
  {
  }

  lemma Dot2Low()
    ensures Dot(Dopri5LowOrderWeights(), C2()) == 1.0 / 3.0
  {
  }

  lemma Dot2Mid()
    ensures Dot(Construct4th(), C2()) == 0.0416666666666666652
  {
  }

  lemma Tree2()
    ensures TreeCondition(ConstructDopri5().bSol, N(), R(), Trees()[2], 1.0, 0.0)
      && TreeCondition(Dopri5LowOrderWeights(), N(), R(), Trees()[2], 1.0, 0.0)
      && TreeCondition(Construct4th(), N(), R(), Trees()[2], 0.5, MidpointTolerance)
  {
    EvalPhi2();
    Dot2Sol();
    Dot2Low();
    Dot2Mid();
    HalfCoefficient2();
    Coefficient2();
  }

  lemma EvalPhi3()
    ensures ElementaryWeight(Trees()[3], N(), R()) == Ac()
  {
    EvalAc();
  }

  lemma Dot3Sol()
    ensures Dot(ConstructDopri5().bSol, Ac()) == 1.0 / 6.0
  {
  }

  lemma Dot3Low()
    ensures Dot(Dopri5LowOrderWeights(), Ac()) == 1.0 / 6.0
  {
  }

  lemma Dot3Mid()
    ensures Dot(Construct4th(), Ac()) == 0.0208333333333333326
  {
  }

  lemma Tree3()
    ensures TreeCondition(ConstructDopri5().bSol, N(), R(), Trees()[3], 1.0, 0.0)
      && TreeCondition(Dopri5LowOrderWeights(), N(), R(), Trees()[3], 1.0, 0.0)
      && TreeCondition(Construct4th(), N(), R(), Trees()[3], 0.5, MidpointTolerance)
  {
    EvalPhi3();
    Dot3Sol();
    Dot3Low();
    Dot3Mid();
    HalfCoefficient3();
    Coefficient3();
  }

  lemma EvalPhi4()
    ensures ElementaryWeight(Trees()[4], N(), R()) == C3()
  {
    EvalC2();
    EvalC3();
  }

  lemma Dot4Sol()
    ensures Dot(ConstructDopri5().bSol, C3()) == 0.25
  {
  }

  lemma Dot4Low()
    ensures Dot(Dopri5LowOrderWeights(), C3()) == 0.25
  {
  }

  lemma Dot4Mid()
    ensures Dot(Construct4th(), C3()) == 0.01562499999999999926
  {
  }

  lemma Tree4()
    ensures TreeCondition(ConstructDopri5().bSol, N(), R(), Trees()[4], 1.0, 0.0)
      && TreeCondition(Dopri5LowOrderWeights(), N(), R(), Trees()[4], 1.0, 0.0)
      && TreeCondition(Construct4th(), N(), R(), Trees()[4], 0.5, MidpointTolerance)
  {
    EvalPhi4();
    Dot4Sol();
    Dot4Low();
    Dot4Mid();
    HalfCoefficient4();
    Coefficient4();
  }

  lemma EvalPhi5()
    ensures ElementaryWeight(Trees()[5], N(), R()) == CAc()
  {
    EvalAc();
    EvalCAc();
  }

  lemma Dot5Sol()
    ensures Dot(ConstructDopri5().bSol, CAc()) == 0.125
  {
  }

  lemma Dot5Low()
    ensures Dot(Dopri5LowOrderWeights(), CAc()) == 0.125
  {
  }

  lemma Dot5Mid()
    ensures Dot(Construct4th(), CAc()) == 0.00781249999999999963
  {
  }

  lemma Tree5()
    ensures TreeCondition(ConstructDopri5().bSol, N(), R(), Trees()[5], 1.0, 0.0)
      && TreeCondition(Dopri5LowOrderWeights(), N(), R(), Trees()[5], 1.0, 0.0)
      && TreeCondition(Construct4th(), N(), R(), Trees()[5], 0.5, MidpointTolerance)
  {
    EvalPhi5();
    Dot5Sol();
    Dot5Low();
    Dot5Mid();
    HalfCoefficient5();
    Coefficient5();
  }

  lemma EvalPhi6()
    ensures ElementaryWeight(Trees()[6], N(), R()) == AC2()
  {
    EvalC2();
    EvalAC2();
  }

  lemma Dot6Sol()
    ensures Dot(ConstructDopri5().bSol, AC2()) == 1.0 / 12.0
  {
  }

  lemma Dot6Low()
    ensures Dot(Dopri5LowOrderWeights(), AC2()) == 1.0 / 12.0
  {
  }

  lemma Dot6Mid()
    ensures Dot(Construct4th(), AC2()) == 781249999999999963.0 / 150000000000000000000.0
  {
  }

  lemma Tree6()
    ensures TreeCondition(ConstructDopri5().bSol, N(), R(), Trees()[6], 1.0, 0.0)
      && TreeCondition(Dopri5LowOrderWeights(), N(), R(), Trees()[6], 1.0, 0.0)
      && TreeCondition(Construct4th(), N(), R(), Trees()[6], 0.5, MidpointTolerance)
  {
    EvalPhi6();
    Dot6Sol();
    Dot6Low();
    Dot6Mid();
    HalfCoefficient6();
    Coefficient6();
  }

  lemma EvalPhi7()
    ensures ElementaryWeight(Trees()[7], N(), R()) == AAc()
  {
    EvalAc();
    EvalAAc();
  }

  lemma Dot7Sol()
    ensures Dot(ConstructDopri5().bSol, AAc()) == 1.0 / 24.0
  {
  }

  lemma Dot7Low()
    ensures Dot(Dopri5LowOrderWeights(), AAc()) == 1.0 / 24.0
  {
  }

  lemma Dot7Mid()
    ensures Dot(Construct4th(), AAc()) == 0.0026041666666666663
  {
  }

  lemma Tree7()
    ensures TreeCondition(ConstructDopri5().bSol, N(), R(), Trees()[7], 1.0, 0.0)
      && TreeCondition(Dopri5LowOrderWeights(), N(), R(), Trees()[7], 1.0, 0.0)
      && TreeCondition(Construct4th(), N(), R(), Trees()[7], 0.5, MidpointTolerance)
  {
    EvalPhi7();
    Dot7Sol();
    Dot7Low();
    Dot7Mid();
    HalfCoefficient7();
    Coefficient7();
  }

  lemma EvalPhi8()
    ensures ElementaryWeight(Trees()[8], N(), R()) == C4()
  {
    EvalC2();
    EvalC3();
    EvalC4();
  }

  lemma Dot8Sol()
    ensures Dot(ConstructDopri5().bSol, C4()) == 0.2
  {
  }

  lemma Dot8Low()
    ensures Dot(Dopri5LowOrderWeights(), C4()) == 80929.0 / 405000.0
  {
  }

  /** The condition of tree 8 fails for these weights. */
  lemma Witness8Low()
    ensures Dot(Dopri5LowOrderWeights(), ElementaryWeight(Trees()[8], N(), R())) == 80929.0 / 405000.0
  {
    EvalPhi8();
    Dot8Low();
  }

  lemma Tree8()
    ensures TreeCondition(ConstructDopri5().bSol, N(), R(), Trees()[8], 1.0, 0.0)
  {
    EvalPhi8();
    Dot8Sol();
    Coefficient8();
  }

  lemma EvalPhi9()
    ensures ElementaryWeight(Trees()[9], N(), R()) == C2Ac()
  {
    EvalAc();
    EvalCAc();
    EvalC2Ac();
  }

  lemma Dot9Sol()
    ensures Dot(ConstructDopri5().bSol, C2Ac()) == 0.1
  {
  }

  lemma Tree9()
    ensures TreeCondition(ConstructDopri5().bSol, N(), R(), Trees()[9], 1.0, 0.0)
  {
    EvalPhi9();
    Dot9Sol();
    Coefficient9();
  }

  lemma EvalPhi10()
    ensures ElementaryWeight(Trees()[10], N(), R()) == AcAc()
  {
    EvalAc();
    EvalAcAc();
  }

  lemma Dot10Sol()
    ensures Dot(ConstructDopri5().bSol, AcAc()) == 0.05
  {
  }

  lemma Tree10()
    ensures TreeCondition(ConstructDopri5().bSol, N(), R(), Trees()[10], 1.0, 0.0)
  {
    EvalPhi10();
    Dot10Sol();
    Coefficient10();
  }

  lemma EvalPhi11()
    ensures ElementaryWeight(Trees()[11], N(), R()) == CAC2()
  {
    EvalC2();
    EvalAC2();
    EvalCAC2();
  }

  lemma Dot11Sol()
    ensures Dot(ConstructDopri5().bSol, CAC2()) == 1.0 / 15.0
  {
  }

  lemma Tree11()
    ensures TreeCondition(ConstructDopri5().bSol, N(), R(), Trees()[11], 1.0, 0.0)
  {
    EvalPhi11();
    Dot11Sol();
    Coefficient11();
  }

  lemma EvalPhi12()
    ensures ElementaryWeight(Trees()[12], N(), R()) == CAAc()
  {
    EvalAc();
    EvalAAc();
    EvalCAAc();
  }

  lemma Dot12Sol()
    ensures Dot(ConstructDopri5().bSol, CAAc()) == 1.0 / 30.0
  {
  }

  lemma Tree12()
    ensures TreeCondition(ConstructDopri5().bSol, N(), R(), Trees()[12], 1.0, 0.0)
  {
    EvalPhi12();
    Dot12Sol();
    Coefficient12();
  }

  lemma EvalPhi13()
    ensures ElementaryWeight(Trees()[13], N(), R()) == AC3()
  {
    EvalC2();
    EvalC3();
    EvalAC3();
  }

  lemma Dot13Sol()
    ensures Dot(ConstructDopri5().bSol, AC3()) == 0.05
  {
  }

  lemma Tree13()
    ensures TreeCondition(ConstructDopri5().bSol, N(), R(), Trees()[13], 1.0, 0.0)
  {
    EvalPhi13();
    Dot13Sol();
    Coefficient13();
  }

  lemma EvalPhi14()
    ensures ElementaryWeight(Trees()[14], N(), R()) == ACAc()
  {
    EvalAc();
    EvalCAc();
    EvalACAc();
  }

  lemma Dot14Sol()
    ensures Dot(ConstructDopri5().bSol, ACAc()) == 0.025
  {
  }

  lemma Tree14()
    ensures TreeCondition(ConstructDopri5().bSol, N(), R(), Trees()[14], 1.0, 0.0)
  {
    EvalPhi14();
    Dot14Sol();
    Coefficient14();
  }

  lemma EvalPhi15()
    ensures ElementaryWeight(Trees()[15], N(), R()) == AAC2()
  {
    EvalC2();
    EvalAC2();
    EvalAAC2();
  }

  lemma Dot15Sol()
    ensures Dot(ConstructDopri5().bSol, AAC2()) == 1.0 / 60.0
  {
  }

  lemma Tree15()
    ensures TreeCondition(ConstructDopri5().bSol, N(), R(), Trees()[15], 1.0, 0.0)
  {
    EvalPhi15();
    Dot15Sol();
    Coefficient15();
  }

  lemma EvalPhi16()
    ensures ElementaryWeight(Trees()[16], N(), R()) == AAAc()
  {
    EvalAc();
    EvalAAc();
    EvalAAAc();
  }

  lemma Dot16Sol()
    ensures Dot(ConstructDopri5().bSol, AAAc()) == 1.0 / 120.0
  {
  }

  lemma Tree16()
    ensures TreeCondition(ConstructDopri5().bSol, N(), R(), Trees()[16], 1.0, 0.0)
  {
    EvalPhi16();
    Dot16Sol();
    Coefficient16();
  }

  lemma Facts0(k: nat)
    requires k == 0
    ensures TreeCondition(ConstructDopri5().bSol, N(), R(), Trees()[k], 1.0, 0.0)
      && (Order(Trees()[k]) <= 4 ==> TreeCondition(Dopri5LowOrderWeights(), N(), R(), Trees()[k], 1.0, 0.0))
      && (Order(Trees()[k]) <= 4 ==> TreeCondition(Construct4th(), N(), R(), Trees()[k], 0.5, MidpointTolerance))
  {
    Tree0();
    TreeOrder0();
  }

  lemma Facts1(k: nat)
    requires k == 1
    ensures TreeCondition(ConstructDopri5().bSol, N(), R(), Trees()[k], 1.0, 0.0)
      && (Order(Trees()[k]) <= 4 ==> TreeCondition(Dopri5LowOrderWeights(), N(), R(), Trees()[k], 1.0, 0.0))
      && (Order(Trees()[k]) <= 4 ==> TreeCondition(Construct4th(), N(), R(), Trees()[k], 0.5, MidpointTolerance))
  {
    Tree1();
    TreeOrder1();
  }

  lemma TreeFacts0To1(k: nat)
    requires k < 2
    ensures TreeCondition(ConstructDopri5().bSol, N(), R(), Trees()[k], 1.0, 0.0)
      && (Order(Trees()[k]) <= 4 ==> TreeCondition(Dopri5LowOrderWeights(), N(), R(), Trees()[k], 1.0, 0.0))
      && (Order(Trees()[k]) <= 4 ==> TreeCondition(Construct4th(), N(), R(), Trees()[k], 0.5, MidpointTolerance))
  {
    if k < 1 {
      Facts0(k);
    } else {
      Facts1(k);
    }
  }

  lemma Facts2(k: nat)
    requires k == 2
    ensures TreeCondition(ConstructDopri5().bSol, N(), R(), Trees()[k], 1.0, 0.0)
      && (Order(Trees()[k]) <= 4 ==> TreeCondition(Dopri5LowOrderWeights(), N(), R(), Trees()[k], 1.0, 0.0))
      && (Order(Trees()[k]) <= 4 ==> TreeCondition(Construct4th(), N(), R(), Trees()[k], 0.5, MidpointTolerance))
  {
    Tree2();
    TreeOrder2();
  }

  lemma Facts3(k: nat)
    requires k == 3
    ensures TreeCondition(ConstructDopri5().bSol, N(), R(), Trees()[k], 1.0, 0.0)
      && (Order(Trees()[k]) <= 4 ==> TreeCondition(Dopri5LowOrderWeights(), N(), R(), Trees()[k], 1.0, 0.0))
      && (Order(Trees()[k]) <= 4 ==> TreeCondition(Construct4th(), N(), R(), Trees()[k], 0.5, MidpointTolerance))
  {
    Tree3();
    TreeOrder3();
  }

  lemma TreeFacts2To3(k: nat)
    requires 2 <= k < 4
    ensures TreeCondition(ConstructDopri5().bSol, N(), R(), Trees()[k], 1.0, 0.0)
      && (Order(Trees()[k]) <= 4 ==> TreeCondition(Dopri5LowOrderWeights(), N(), R(), Trees()[k], 1.0, 0.0))
      && (Order(Trees()[k]) <= 4 ==> TreeCondition(Construct4th(), N(), R(), Trees()[k], 0.5, MidpointTolerance))
  {
    if k < 3 {
      Facts2(k);
    } else {
      Facts3(k);
    }
  }

  lemma TreeFacts0To3(k: nat)
    requires k < 4
    ensures TreeCondition(ConstructDopri5().bSol, N(), R(), Trees()[k], 1.0, 0.0)
      && (Order(Trees()[k]) <= 4 ==> TreeCondition(Dopri5LowOrderWeights(), N(), R(), Trees()[k], 1.0, 0.0))
      && (Order(Trees()[k]) <= 4 ==> TreeCondition(Construct4th(), N(), R(), Trees()[k], 0.5, MidpointTolerance))
  {
    if k < 2 {
      TreeFacts0To1(k);
    } else {
      TreeFacts2To3(k);
    }
  }

  lemma Facts4(k: nat)
    requires k == 4
    ensures TreeCondition(ConstructDopri5().bSol, N(), R(), Trees()[k], 1.0, 0.0)
      && (Order(Trees()[k]) <= 4 ==> TreeCondition(Dopri5LowOrderWeights(), N(), R(), Trees()[k], 1.0, 0.0))
      && (Order(Trees()[k]) <= 4 ==> TreeCondition(Construct4th(), N(), R(), Trees()[k], 0.5, MidpointTolerance))
  {
    Tree4();
    TreeOrder4();
  }

  lemma Facts5(k: nat)
    requires k == 5
    ensures TreeCondition(ConstructDopri5().bSol, N(), R(), Trees()[k], 1.0, 0.0)
      && (Order(Trees()[k]) <= 4 ==> TreeCondition(Dopri5LowOrderWeights(), N(), R(), Trees()[k], 1.0, 0.0))
      && (Order(Trees()[k]) <= 4 ==> TreeCondition(Construct4th(), N(), R(), Trees()[k], 0.5, MidpointTolerance))
  {
    Tree5();
    TreeOrder5();
  }

  lemma TreeFacts4To5(k: nat)
    requires 4 <= k < 6
    ensures TreeCondition(ConstructDopri5().bSol, N(), R(), Trees()[k], 1.0, 0.0)
      && (Order(Trees()[k]) <= 4 ==> TreeCondition(Dopri5LowOrderWeights(), N(), R(), Trees()[k], 1.0, 0.0))
      && (Order(Trees()[k]) <= 4 ==> TreeCondition(Construct4th(), N(), R(), Trees()[k], 0.5, MidpointTolerance))
  {
    if k < 5 {
      Facts4(k);
    } else {
      Facts5(k);
    }
  }

  lemma Facts6(k: nat)
    requires k == 6
    ensures TreeCondition(ConstructDopri5().bSol, N(), R(), Trees()[k], 1.0, 0.0)
      && (Order(Trees()[k]) <= 4 ==> TreeCondition(Dopri5LowOrderWeights(), N(), R(), Trees()[k], 1.0, 0.0))
      && (Order(Trees()[k]) <= 4 ==> TreeCondition(Construct4th(), N(), R(), Trees()[k], 0.5, MidpointTolerance))
  {
    Tree6();
    TreeOrder6();
  }

  lemma Facts7(k: nat)
    requires k == 7
    ensures TreeCondition(ConstructDopri5().bSol, N(), R(), Trees()[k], 1.0, 0.0)
      && (Order(Trees()[k]) <= 4 ==> TreeCondition(Dopri5LowOrderWeights(), N(), R(), Trees()[k], 1.0, 0.0))
      && (Order(Trees()[k]) <= 4 ==> TreeCondition(Construct4th(), N(), R(), Trees()[k], 0.5, MidpointTolerance))
  {
    Tree7();
    TreeOrder7();
  }

  lemma TreeFacts6To7(k: nat)
    requires 6 <= k < 8
    ensures TreeCondition(ConstructDopri5().bSol, N(), R(), Trees()[k], 1.0, 0.0)
      && (Order(Trees()[k]) <= 4 ==> TreeCondition(Dopri5LowOrderWeights(), N(), R(), Trees()[k], 1.0, 0.0))
      && (Order(Trees()[k]) <= 4 ==> TreeCondition(Construct4th(), N(), R(), Trees()[k], 0.5, MidpointTolerance))
  {
    if k < 7 {
      Facts6(k);
    } else {
      Facts7(k);
    }
  }

  lemma TreeFacts4To7(k: nat)
    requires 4 <= k < 8
    ensures TreeCondition(ConstructDopri5().bSol, N(), R(), Trees()[k], 1.0, 0.0)
      && (Order(Trees()[k]) <= 4 ==> TreeCondition(Dopri5LowOrderWeights(), N(), R(), Trees()[k], 1.0, 0.0))
      && (Order(Trees()[k]) <= 4 ==> TreeCondition(Construct4th(), N(), R(), Trees()[k], 0.5, MidpointTolerance))
  {
    if k < 6 {
      TreeFacts4To5(k);
    } else {
      TreeFacts6To7(k);
    }
  }

  lemma TreeFacts0To7(k: nat)
    requires k < 8
    ensures TreeCondition(ConstructDopri5().bSol, N(), R(), Trees()[k], 1.0, 0.0)
      && (Order(Trees()[k]) <= 4 ==> TreeCondition(Dopri5LowOrderWeights(), N(), R(), Trees()[k], 1.0, 0.0))
      && (Order(Trees()[k]) <= 4 ==> TreeCondition(Construct4th(), N(), R(), Trees()[k], 0.5, MidpointTolerance))
  {
    if k < 4 {
      TreeFacts0To3(k);
    } else {
      TreeFacts4To7(k);
    }
  }

  lemma Facts8(k: nat)
    requires k == 8
    ensures TreeCondition(ConstructDopri5().bSol, N(), R(), Trees()[k], 1.0, 0.0)
      && (Order(Trees()[k]) <= 4 ==> TreeCondition(Dopri5LowOrderWeights(), N(), R(), Trees()[k], 1.0, 0.0))
      && (Order(Trees()[k]) <= 4 ==> TreeCondition(Construct4th(), N(), R(), Trees()[k], 0.5, MidpointTolerance))
  {
    Tree8();
    TreeOrder8();
  }

  lemma Facts9(k: nat)
    requires k == 9
    ensures TreeCondition(ConstructDopri5().bSol, N(), R(), Trees()[k], 1.0, 0.0)
      && (Order(Trees()[k]) <= 4 ==> TreeCondition(Dopri5LowOrderWeights(), N(), R(), Trees()[k], 1.0, 0.0))
      && (Order(Trees()[k]) <= 4 ==> TreeCondition(Construct4th(), N(), R(), Trees()[k], 0.5, MidpointTolerance))
  {
    Tree9();
    TreeOrder9();
  }

  lemma TreeFacts8To9(k: nat)
    requires 8 <= k < 10
    ensures TreeCondition(ConstructDopri5().bSol, N(), R(), Trees()[k], 1.0, 0.0)
      && (Order(Trees()[k]) <= 4 ==> TreeCondition(Dopri5LowOrderWeights(), N(), R(), Trees()[k], 1.0, 0.0))
      && (Order(Trees()[k]) <= 4 ==> TreeCondition(Construct4th(), N(), R(), Trees()[k], 0.5, MidpointTolerance))
  {
    if k < 9 {
      Facts8(k);
    } else {
      Facts9(k);
    }
  }

  lemma Facts10(k: nat)
    requires k == 10
    ensures TreeCondition(ConstructDopri5().bSol, N(), R(), Trees()[k], 1.0, 0.0)
      && (Order(Trees()[k]) <= 4 ==> TreeCondition(Dopri5LowOrderWeights(), N(), R(), Trees()[k], 1.0, 0.0))
      && (Order(Trees()[k]) <= 4 ==> TreeCondition(Construct4th(), N(), R(), Trees()[k], 0.5, MidpointTolerance))
  {
    Tree10();
    TreeOrder10();
  }

  lemma Facts11(k: nat)
    requires k == 11
    ensures TreeCondition(ConstructDopri5().bSol, N(), R(), Trees()[k], 1.0, 0.0)
      && (Order(Trees()[k]) <= 4 ==> TreeCondition(Dopri5LowOrderWeights(), N(), R(), Trees()[k], 1.0, 0.0))
      && (Order(Trees()[k]) <= 4 ==> TreeCondition(Construct4th(), N(), R(), Trees()[k], 0.5, MidpointTolerance))
  {
    Tree11();
    TreeOrder11();
  }

  lemma TreeFacts10To11(k: nat)
    requires 10 <= k < 12
    ensures TreeCondition(ConstructDopri5().bSol, N(), R(), Trees()[k], 1.0, 0.0)
      && (Order(Trees()[k]) <= 4 ==> TreeCondition(Dopri5LowOrderWeights(), N(), R(), Trees()[k], 1.0, 0.0))
      && (Order(Trees()[k]) <= 4 ==> TreeCondition(Construct4th(), N(), R(), Trees()[k], 0.5, MidpointTolerance))
  {
    if k < 11 {
      Facts10(k);
    } else {
      Facts11(k);
    }
  }

  lemma TreeFacts8To11(k: nat)
    requires 8 <= k < 12
    ensures TreeCondition(ConstructDopri5().bSol, N(), R(), Trees()[k], 1.0, 0.0)
      && (Order(Trees()[k]) <= 4 ==> TreeCondition(Dopri5LowOrderWeights(), N(), R(), Trees()[k], 1.0, 0.0))
      && (Order(Trees()[k]) <= 4 ==> TreeCondition(Construct4th(), N(), R(), Trees()[k], 0.5, MidpointTolerance))
  {
    if k < 10 {
      TreeFacts8To9(k);
    } else {
      TreeFacts10To11(k);
    }
  }

  lemma Facts12(k: nat)
    requires k == 12
    ensures TreeCondition(ConstructDopri5().bSol, N(), R(), Trees()[k], 1.0, 0.0)
      && (Order(Trees()[k]) <= 4 ==> TreeCondition(Dopri5LowOrderWeights(), N(), R(), Trees()[k], 1.0, 0.0))
      && (Order(Trees()[k]) <= 4 ==> TreeCondition(Construct4th(), N(), R(), Trees()[k], 0.5, MidpointTolerance))
  {
    Tree12();
    TreeOrder12();
  }

  lemma Facts13(k: nat)
    requires k == 13
    ensures TreeCondition(ConstructDopri5().bSol, N(), R(), Trees()[k], 1.0, 0.0)
      && (Order(Trees()[k]) <= 4 ==> TreeCondition(Dopri5LowOrderWeights(), N(), R(), Trees()[k], 1.0, 0.0))
      && (Order(Trees()[k]) <= 4 ==> TreeCondition(Construct4th(), N(), R(), Trees()[k], 0.5, MidpointTolerance))
  {
    Tree13();
    TreeOrder13();
  }

  lemma TreeFacts12To13(k: nat)
    requires 12 <= k < 14
    ensures TreeCondition(ConstructDopri5().bSol, N(), R(), Trees()[k], 1.0, 0.0)
      && (Order(Trees()[k]) <= 4 ==> TreeCondition(Dopri5LowOrderWeights(), N(), R(), Trees()[k], 1.0, 0.0))
      && (Order(Trees()[k]) <= 4 ==> TreeCondition(Construct4th(), N(), R(), Trees()[k], 0.5, MidpointTolerance))
  {
    if k < 13 {
      Facts12(k);
    } else {
      Facts13(k);
    }
  }

  lemma Facts14(k: nat)
    requires k == 14
    ensures TreeCondition(ConstructDopri5().bSol, N(), R(), Trees()[k], 1.0, 0.0)
      && (Order(Trees()[k]) <= 4 ==> TreeCondition(Dopri5LowOrderWeights(), N(), R(), Trees()[k], 1.0, 0.0))
      && (Order(Trees()[k]) <= 4 ==> TreeCondition(Construct4th(), N(), R(), Trees()[k], 0.5, MidpointTolerance))
  {
    Tree14();
    TreeOrder14();
  }

  lemma Facts15(k: nat)
    requires k == 15
    ensures TreeCondition(ConstructDopri5().bSol, N(), R(), Trees()[k], 1.0, 0.0)
      && (Order(Trees()[k]) <= 4 ==> TreeCondition(Dopri5LowOrderWeights(), N(), R(), Trees()[k], 1.0, 0.0))
      && (Order(Trees()[k]) <= 4 ==> TreeCondition(Construct4th(), N(), R(), Trees()[k], 0.5, MidpointTolerance))
  {
    Tree15();
    TreeOrder15();
  }

  lemma Facts16(k: nat)
    requires k == 16
    ensures TreeCondition(ConstructDopri5().bSol, N(), R(), Trees()[k], 1.0, 0.0)
      && (Order(Trees()[k]) <= 4 ==> TreeCondition(Dopri5LowOrderWeights(), N(), R(), Trees()[k], 1.0, 0.0))
      && (Order(Trees()[k]) <= 4 ==> TreeCondition(Construct4th(), N(), R(), Trees()[k], 0.5, MidpointTolerance))
  {
    Tree16();
    TreeOrder16();
  }

  lemma TreeFacts15To16(k: nat)
    requires 15 <= k < 17
    ensures TreeCondition(ConstructDopri5().bSol, N(), R(), Trees()[k], 1.0, 0.0)
      && (Order(Trees()[k]) <= 4 ==> TreeCondition(Dopri5LowOrderWeights(), N(), R(), Trees()[k], 1.0, 0.0))
      && (Order(Trees()[k]) <= 4 ==> TreeCondition(Construct4th(), N(), R(), Trees()[k], 0.5, MidpointTolerance))
  {
    if k < 16 {
      Facts15(k);
    } else {
      Facts16(k);
    }
  }

  lemma TreeFacts14To16(k: nat)
    requires 14 <= k < 17
    ensures TreeCondition(ConstructDopri5().bSol, N(), R(), Trees()[k], 1.0, 0.0)
      && (Order(Trees()[k]) <= 4 ==> TreeCondition(Dopri5LowOrderWeights(), N(), R(), Trees()[k], 1.0, 0.0))
      && (Order(Trees()[k]) <= 4 ==> TreeCondition(Construct4th(), N(), R(), Trees()[k], 0.5, MidpointTolerance))
  {
    if k < 15 {
      Facts14(k);
    } else {
      TreeFacts15To16(k);
    }
  }

  lemma TreeFacts12To16(k: nat)
    requires 12 <= k < 17
    ensures TreeCondition(ConstructDopri5().bSol, N(), R(), Trees()[k], 1.0, 0.0)
      && (Order(Trees()[k]) <= 4 ==> TreeCondition(Dopri5LowOrderWeights(), N(), R(), Trees()[k], 1.0, 0.0))
      && (Order(Trees()[k]) <= 4 ==> TreeCondition(Construct4th(), N(), R(), Trees()[k], 0.5, MidpointTolerance))
  {
    if k < 14 {
      TreeFacts12To13(k);
    } else {
      TreeFacts14To16(k);
    }
  }

  lemma TreeFacts8To16(k: nat)
    requires 8 <= k < 17
    ensures TreeCondition(ConstructDopri5().bSol, N(), R(), Trees()[k], 1.0, 0.0)
      && (Order(Trees()[k]) <= 4 ==> TreeCondition(Dopri5LowOrderWeights(), N(), R(), Trees()[k], 1.0, 0.0))
      && (Order(Trees()[k]) <= 4 ==> TreeCondition(Construct4th(), N(), R(), Trees()[k], 0.5, MidpointTolerance))
  {
    if k < 12 {
      TreeFacts8To11(k);
    } else {
      TreeFacts12To16(k);
    }
  }

  /** The conditions of tree `k` that the weight vectors of this tableau meet. */
  lemma TreeFacts(k: nat)
    requires k < 17
    ensures TreeCondition(ConstructDopri5().bSol, N(), R(), Trees()[k], 1.0, 0.0)
      && (Order(Trees()[k]) <= 4 ==> TreeCondition(Dopri5LowOrderWeights(), N(), R(), Trees()[k], 1.0, 0.0))
      && (Order(Trees()[k]) <= 4 ==> TreeCondition(Construct4th(), N(), R(), Trees()[k], 0.5, MidpointTolerance))
  {
    if k < 8 {
      TreeFacts0To7(k);
    } else {
      TreeFacts8To16(k);
    }
  }

}

