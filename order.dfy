/** The classical order conditions of explicit Runge–Kutta methods
    (Hairer, Nørsett and Wanner, Solving Ordinary Differential Equations I,
    section II.2): one condition per rooted tree τ, b · Φ(τ) = 1 / γ(τ),
    with Φ(τ) the elementary weight vector of τ and γ(τ) its density.
    The weights are written over the node vector c, as in Table 2.2 of that
    section: a leaf hanging from the root contributes c_i = sum_j a_ij, an
    inner subtree σ contributes (A Φ(σ))_i. `Butcher.RowSums` states the
    identity this relies on. */
module OrderConditions {
  import opened Vectors
  import opened Butcher

  /** A rooted tree: a root and the subtrees hanging from it. */
  datatype Tree = Tree(children: seq<Tree>)

  /** Number of vertices. */
  function Order(t: Tree): (r: nat)
    ensures r >= 1
    decreases t, 1, 0
  {
    1 + OrderFrom(t, 0)
  }

  /** Vertices in the subtrees `t.children[i..]`. */
  function OrderFrom(t: Tree, i: nat): (r: nat)
    requires i <= |t.children|
    decreases t, 0, |t.children| - i
  {
    if i == |t.children| then 0 else Order(t.children[i]) + OrderFrom(t, i + 1)
  }

  /** Density γ: the order of the tree times the densities of its subtrees. */
  function Density(t: Tree): (r: nat)
    ensures r >= Order(t)
    decreases t, 1, 0
  {
    Order(t) * DensityFrom(t, 0)
  }

  /** Product of the densities of the subtrees `t.children[i..]`. */
  function DensityFrom(t: Tree, i: nat): (r: nat)
    requires i <= |t.children|
    ensures r >= 1
    decreases t, 0, |t.children| - i
  {
    if i == |t.children| then 1 else Density(t.children[i]) * DensityFrom(t, i + 1)
  }

  /** Elementary weight vector Φ(t): the ones vector for the single vertex,
      otherwise the elementwise product of one factor per subtree. */
  function ElementaryWeight(t: Tree, c: seq<real>, rows: seq<seq<real>>): (r: seq<real>)
    requires |c| == |rows|
    ensures |r| == |c|
    decreases t, 1, 0
  {
    if |t.children| == 0 then Ones(|c|) else Factors(t, 0, c, rows)
  }

  /** Elementwise product of the factors of the subtrees `t.children[i..]`:
      c for a leaf, A Φ(σ) for an inner subtree σ. */
  function Factors(t: Tree, i: nat, c: seq<real>, rows: seq<seq<real>>): (r: seq<real>)
    requires i < |t.children| && |c| == |rows|
    ensures |r| == |c|
    decreases t, 0, |t.children| - i
  {
    var s := t.children[i];
    var f := if |s.children| == 0 then c else MatVec(rows, ElementaryWeight(s, c, rows));
    if i == |t.children| - 1 then f else Had(f, Factors(t, i + 1, c, rows))
  }

  /** The single vertex. */
  function Leaf(): (r: Tree) {
    Tree([])
  }

  /** The 17 rooted trees of order at most 5, by increasing order, in the
      sequence of Table 2.2; the comment gives each one's elementary weight. */
  function Trees(): (r: seq<Tree>) {
    var l := Leaf();
    var l1 := Tree([l]);
    [l,                                   // 1
     l1,                                  // c
     Tree([l, l]),                        // c^2
     Tree([l1]),                          // A c
     Tree([l, l, l]),                     // c^3
     Tree([l, l1]),                       // c (A c)
     Tree([Tree([l, l])]),                // A c^2
     Tree([Tree([l1])]),                  // A A c
     Tree([l, l, l, l]),                  // c^4
     Tree([l, l, l1]),                    // c^2 (A c)
     Tree([l1, l1]),                      // (A c)^2
     Tree([l, Tree([l, l])]),             // c (A c^2)
     Tree([l, Tree([l1])]),               // c (A A c)
     Tree([Tree([l, l, l])]),             // A c^3
     Tree([Tree([l, l1])]),               // A (c (A c))
     Tree([Tree([Tree([l, l])])]),        // A A c^2
     Tree([Tree([Tree([l1])])])]          // A A A c
  }

  // The order and the density of each tree of `Trees()`, as tabulated in
  // Table 2.2.

  lemma TreeOrder0()
    ensures Order(Trees()[0]) == 1
  {
  }

  lemma TreeDensity0()
    ensures Density(Trees()[0]) == 1
  {
  }

  lemma TreeOrder1()
    ensures Order(Trees()[1]) == 2
  {
  }

  lemma TreeDensity1()
    ensures Density(Trees()[1]) == 2
  {
  }

  lemma TreeOrder2()
    ensures Order(Trees()[2]) == 3
  {
  }

  lemma TreeDensity2()
    ensures Density(Trees()[2]) == 3
  {
  }

  lemma TreeOrder3()
    ensures Order(Trees()[3]) == 3
  {
  }

  lemma TreeDensity3()
    ensures Density(Trees()[3]) == 6
  {
  }

  lemma TreeOrder4()
    ensures Order(Trees()[4]) == 4
  {
  }

  lemma TreeDensity4()
    ensures Density(Trees()[4]) == 4
  {
  }

  lemma TreeOrder5()
    ensures Order(Trees()[5]) == 4
  {
  }

  lemma TreeDensity5()
    ensures Density(Trees()[5]) == 8
  {
  }

  lemma TreeOrder6()
    ensures Order(Trees()[6]) == 4
  {
  }

  lemma TreeDensity6()
    ensures Density(Trees()[6]) == 12
  {
  }

  lemma TreeOrder7()
    ensures Order(Trees()[7]) == 4
  {
  }

  lemma TreeDensity7()
    ensures Density(Trees()[7]) == 24
  {
  }

  lemma TreeOrder8()
    ensures Order(Trees()[8]) == 5
  {
  }

  lemma TreeDensity8()
    ensures Density(Trees()[8]) == 5
  {
  }

  lemma TreeOrder9()
    ensures Order(Trees()[9]) == 5
  {
  }

  lemma TreeDensity9()
    ensures Density(Trees()[9]) == 10
  {
  }

  lemma TreeOrder10()
    ensures Order(Trees()[10]) == 5
  {
  }

  lemma TreeDensity10()
    ensures Density(Trees()[10]) == 20
  {
  }

  lemma TreeOrder11()
    ensures Order(Trees()[11]) == 5
  {
  }

  lemma TreeDensity11()
    ensures Density(Trees()[11]) == 15
  {
  }

  lemma TreeOrder12()
    ensures Order(Trees()[12]) == 5
  {
  }

  lemma TreeDensity12()
    ensures Density(Trees()[12]) == 30
  {
  }

  lemma TreeOrder13()
    ensures Order(Trees()[13]) == 5
  {
  }

  lemma TreeDensity13()
    ensures Density(Trees()[13]) == 20
  {
  }

  lemma TreeOrder14()
    ensures Order(Trees()[14]) == 5
  {
  }

  lemma TreeDensity14()
    ensures Density(Trees()[14]) == 40
  {
  }

  lemma TreeOrder15()
    ensures Order(Trees()[15]) == 5
  {
  }

  lemma TreeDensity15()
    ensures Density(Trees()[15]) == 60
  {
  }

  lemma TreeOrder16()
    ensures Order(Trees()[16]) == 5
  {
  }

  lemma TreeDensity16()
    ensures Density(Trees()[16]) == 120
  {
  }

  /** The table lists 17 different trees. */
  lemma TreesDistinct()
    ensures |Trees()| == 17
    ensures forall i, j :: 0 <= i < j < |Trees()| ==> Trees()[i] != Trees()[j]
  {
  }

  /** The orders down the table: one tree each of order 1 and 2, then two of
      order 3, four of order 4 and nine of order 5. */
  lemma TreesOrders()
    ensures seq(|Trees()|, k requires 0 <= k < |Trees()| => Order(Trees()[k]))
         == [1, 2, 3, 3, 4, 4, 4, 4, 5, 5, 5, 5, 5, 5, 5, 5, 5]
  {
    TreeOrder0(); TreeOrder1(); TreeOrder2(); TreeOrder3(); TreeOrder4(); TreeOrder5();
    TreeOrder6(); TreeOrder7(); TreeOrder8(); TreeOrder9(); TreeOrder10(); TreeOrder11();
    TreeOrder12(); TreeOrder13(); TreeOrder14(); TreeOrder15(); TreeOrder16();
  }

  /** The densities down the table. */
  lemma TreesDensities()
    ensures seq(|Trees()|, k requires 0 <= k < |Trees()| => Density(Trees()[k]))
         == [1, 2, 3, 6, 4, 8, 12, 24, 5, 10, 20, 15, 30, 20, 40, 60, 120]
  {
    TreeDensity0(); TreeDensity1(); TreeDensity2(); TreeDensity3(); TreeDensity4(); TreeDensity5();
    TreeDensity6(); TreeDensity7(); TreeDensity8(); TreeDensity9(); TreeDensity10(); TreeDensity11();
    TreeDensity12(); TreeDensity13(); TreeDensity14(); TreeDensity15(); TreeDensity16();
  }

  /** The coefficient theta^q/γ of a tree of order q and density γ. */
  lemma TaylorCoefficient(t: Tree, theta: real, q: nat, g: nat, v: real)
    requires Order(t) == q && Density(t) == g && g > 0
    requires Power(theta, q) == v * (g as real)
    ensures Power(theta, Order(t)) / (Density(t) as real) == v
  {
  }

  // The Taylor coefficient 1/γ of each tree, and the coefficient
  // (1/2)^q/γ of the trees of order q at most 4 at the mid-point.

  lemma Coefficient0()
    ensures Power(1.0, Order(Trees()[0])) / (Density(Trees()[0]) as real) == 1.0
  {
    TreeOrder0();
    TreeDensity0();
    TaylorCoefficient(Trees()[0], 1.0, 1, 1, 1.0);
  }

  lemma Coefficient1()
    ensures Power(1.0, Order(Trees()[1])) / (Density(Trees()[1]) as real) == 0.5
  {
    TreeOrder1();
    TreeDensity1();
    TaylorCoefficient(Trees()[1], 1.0, 2, 2, 0.5);
  }

  lemma Coefficient2()
    ensures Power(1.0, Order(Trees()[2])) / (Density(Trees()[2]) as real) == 1.0 / 3.0
  {
    TreeOrder2();
    TreeDensity2();
    TaylorCoefficient(Trees()[2], 1.0, 3, 3, 1.0 / 3.0);
  }

  lemma Coefficient3()
    ensures Power(1.0, Order(Trees()[3])) / (Density(Trees()[3]) as real) == 1.0 / 6.0
  {
    TreeOrder3();
    TreeDensity3();
    TaylorCoefficient(Trees()[3], 1.0, 3, 6, 1.0 / 6.0);
  }

  lemma Coefficient4()
    ensures Power(1.0, Order(Trees()[4])) / (Density(Trees()[4]) as real) == 0.25
  {
    TreeOrder4();
    TreeDensity4();
    TaylorCoefficient(Trees()[4], 1.0, 4, 4, 0.25);
  }

  lemma Coefficient5()
    ensures Power(1.0, Order(Trees()[5])) / (Density(Trees()[5]) as real) == 0.125
  {
    TreeOrder5();
    TreeDensity5();
    TaylorCoefficient(Trees()[5], 1.0, 4, 8, 0.125);
  }

  lemma Coefficient6()
    ensures Power(1.0, Order(Trees()[6])) / (Density(Trees()[6]) as real) == 1.0 / 12.0
  {
    TreeOrder6();
    TreeDensity6();
    TaylorCoefficient(Trees()[6], 1.0, 4, 12, 1.0 / 12.0);
  }

  lemma Coefficient7()
    ensures Power(1.0, Order(Trees()[7])) / (Density(Trees()[7]) as real) == 1.0 / 24.0
  {
    TreeOrder7();
    TreeDensity7();
    TaylorCoefficient(Trees()[7], 1.0, 4, 24, 1.0 / 24.0);
  }

  lemma Coefficient8()
    ensures Power(1.0, Order(Trees()[8])) / (Density(Trees()[8]) as real) == 0.2
  {
    TreeOrder8();
    TreeDensity8();
    TaylorCoefficient(Trees()[8], 1.0, 5, 5, 0.2);
  }

  lemma Coefficient9()
    ensures Power(1.0, Order(Trees()[9])) / (Density(Trees()[9]) as real) == 0.1
  {
    TreeOrder9();
    TreeDensity9();
    TaylorCoefficient(Trees()[9], 1.0, 5, 10, 0.1);
  }

  lemma Coefficient10()
    ensures Power(1.0, Order(Trees()[10])) / (Density(Trees()[10]) as real) == 0.05
  {
    TreeOrder10();
    TreeDensity10();
    TaylorCoefficient(Trees()[10], 1.0, 5, 20, 0.05);
  }

  lemma Coefficient11()
    ensures Power(1.0, Order(Trees()[11])) / (Density(Trees()[11]) as real) == 1.0 / 15.0
  {
    TreeOrder11();
    TreeDensity11();
    TaylorCoefficient(Trees()[11], 1.0, 5, 15, 1.0 / 15.0);
  }

  lemma Coefficient12()
    ensures Power(1.0, Order(Trees()[12])) / (Density(Trees()[12]) as real) == 1.0 / 30.0
  {
    TreeOrder12();
    TreeDensity12();
    TaylorCoefficient(Trees()[12], 1.0, 5, 30, 1.0 / 30.0);
  }

  lemma Coefficient13()
    ensures Power(1.0, Order(Trees()[13])) / (Density(Trees()[13]) as real) == 0.05
  {
    TreeOrder13();
    TreeDensity13();
    TaylorCoefficient(Trees()[13], 1.0, 5, 20, 0.05);
  }

  lemma Coefficient14()
    ensures Power(1.0, Order(Trees()[14])) / (Density(Trees()[14]) as real) == 0.025
  {
    TreeOrder14();
    TreeDensity14();
    TaylorCoefficient(Trees()[14], 1.0, 5, 40, 0.025);
  }

  lemma Coefficient15()
    ensures Power(1.0, Order(Trees()[15])) / (Density(Trees()[15]) as real) == 1.0 / 60.0
  {
    TreeOrder15();
    TreeDensity15();
    TaylorCoefficient(Trees()[15], 1.0, 5, 60, 1.0 / 60.0);
  }

  lemma Coefficient16()
    ensures Power(1.0, Order(Trees()[16])) / (Density(Trees()[16]) as real) == 1.0 / 120.0
  {
    TreeOrder16();
    TreeDensity16();
    TaylorCoefficient(Trees()[16], 1.0, 5, 120, 1.0 / 120.0);
  }

  lemma HalfCoefficient0()
    ensures Power(0.5, Order(Trees()[0])) / (Density(Trees()[0]) as real) == 0.5
  {
    TreeOrder0();
    TreeDensity0();
    TaylorCoefficient(Trees()[0], 0.5, 1, 1, 0.5);
  }

  lemma HalfCoefficient1()
    ensures Power(0.5, Order(Trees()[1])) / (Density(Trees()[1]) as real) == 0.125
  {
    TreeOrder1();
    TreeDensity1();
    TaylorCoefficient(Trees()[1], 0.5, 2, 2, 0.125);
  }

  lemma HalfCoefficient2()
    ensures Power(0.5, Order(Trees()[2])) / (Density(Trees()[2]) as real) == 1.0 / 24.0
  {
    TreeOrder2();
    TreeDensity2();
    TaylorCoefficient(Trees()[2], 0.5, 3, 3, 1.0 / 24.0);
  }

  lemma HalfCoefficient3()
    ensures Power(0.5, Order(Trees()[3])) / (Density(Trees()[3]) as real) == 1.0 / 48.0
  {
    TreeOrder3();
    TreeDensity3();
    TaylorCoefficient(Trees()[3], 0.5, 3, 6, 1.0 / 48.0);
  }

  lemma HalfCoefficient4()
    ensures Power(0.5, Order(Trees()[4])) / (Density(Trees()[4]) as real) == 0.015625
  {
    TreeOrder4();
    TreeDensity4();
    TaylorCoefficient(Trees()[4], 0.5, 4, 4, 0.015625);
  }

  lemma HalfCoefficient5()
    ensures Power(0.5, Order(Trees()[5])) / (Density(Trees()[5]) as real) == 0.0078125
  {
    TreeOrder5();
    TreeDensity5();
    TaylorCoefficient(Trees()[5], 0.5, 4, 8, 0.0078125);
  }

  lemma HalfCoefficient6()
    ensures Power(0.5, Order(Trees()[6])) / (Density(Trees()[6]) as real) == 1.0 / 192.0
  {
    TreeOrder6();
    TreeDensity6();
    TaylorCoefficient(Trees()[6], 0.5, 4, 12, 1.0 / 192.0);
  }

  lemma HalfCoefficient7()
    ensures Power(0.5, Order(Trees()[7])) / (Density(Trees()[7]) as real) == 1.0 / 384.0
  {
    TreeOrder7();
    TreeDensity7();
    TaylorCoefficient(Trees()[7], 0.5, 4, 24, 1.0 / 384.0);
  }

  /** Weights `b` reproduce, to within `tol`, the Taylor coefficient
      theta^q / γ(t) of tree `t` of order q. */
  predicate TreeCondition(b: seq<real>, c: seq<real>, rows: seq<seq<real>>, t: Tree, theta: real, tol: real)
    requires |c| == |rows|
  {
    Within(Dot(b, ElementaryWeight(t, c, rows)), Power(theta, Order(t)) / (Density(t) as real), tol)
  }

  /** Weights `b` meet the conditions of every tree of order at most `p`.
      With theta = 1 these are the order conditions of a step; with
      0 < theta < 1, those of a continuous extension evaluated at the
      fraction theta of the step. */
  predicate SatisfiesAt(b: seq<real>, c: seq<real>, rows: seq<seq<real>>, p: nat, theta: real, tol: real)
    requires p <= 5 && |c| == |rows|
  {
    forall k :: 0 <= k < |Trees()| && Order(Trees()[k]) <= p ==>
      TreeCondition(b, c, rows, Trees()[k], theta, tol)
  }

  /** Weights `b` give tableau `t` order `p`, to within `tol`. */
  predicate HasOrder(t: Tableau, b: seq<real>, p: nat, tol: real)
    requires ExplicitShape(t) && p <= 5
  {
    SatisfiesAt(b, Nodes(t), Rows(t), p, 1.0, tol)
  }

  /** When the solution weights and the embedded weights both have order p,
      the error weights annihilate the elementary weight vector of every
      tree of order at most p: the error estimate vanishes on the terms both
      solutions reproduce and measures only the higher-order remainder. */
  lemma ErrorWeightsAnnihilate(t: Tableau, p: nat, tol: real)
    requires EmbeddedShape(t) && p <= 5
    requires HasOrder(t, t.bSol, p, tol) && HasOrder(t, EmbeddedWeights(t), p, tol)
    ensures forall k :: 0 <= k < |Trees()| && Order(Trees()[k]) <= p ==>
      Within(Dot(t.bErr, ElementaryWeight(Trees()[k], Nodes(t), Rows(t))), 0.0, 2.0 * tol)
  {
    var bLow := EmbeddedWeights(t);
    SubSub(t.bSol, t.bErr);
    forall k | 0 <= k < |Trees()| && Order(Trees()[k]) <= p
      ensures Within(Dot(t.bErr, ElementaryWeight(Trees()[k], Nodes(t), Rows(t))), 0.0, 2.0 * tol)
    {
      DotSub(t.bSol, bLow, ElementaryWeight(Trees()[k], Nodes(t), Rows(t)));
      assert TreeCondition(t.bSol, Nodes(t), Rows(t), Trees()[k], 1.0, tol);
      assert TreeCondition(bLow, Nodes(t), Rows(t), Trees()[k], 1.0, tol);
    }
  }
}
