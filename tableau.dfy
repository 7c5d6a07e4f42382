/** The Butcher tableau of an explicit Runge–Kutta method, in the field
    order of the `ExplicitRKTableau` tuple: nodes `c`, stage matrix `A`,
    solution weights `bSol` and error weights `bErr`. */
module Butcher {
  import opened Vectors

  /** `A[i]` is the row of stage i+2 (stages counted from 1): the
      coefficients of the i+1 earlier stage derivatives. Stage 1 has no row.
      `c` either lists the first node c_1 = 0 (RK4) or omits it (the
      embedded pairs); `Nodes` gives the full vector in both cases. */
  datatype Tableau = Tableau(c: seq<real>, A: seq<seq<real>>, bSol: seq<real>, bErr: seq<real>)

  /** Number of stages s: one per row of `A`, plus the first stage. */
  function Stages(t: Tableau): (r: nat) {
    |t.A| + 1
  }

  /** `c` lists all s nodes, the leading 0 included. */
  predicate ListsFirstNode(t: Tableau) {
    |t.c| == Stages(t)
  }

  /** Shape of an explicit method: row i of `A` has i+1 entries, `c` has
      s or s-1 entries, and there is one solution weight per stage. */
  predicate ExplicitShape(t: Tableau) {
    && (|t.c| == Stages(t) || |t.c| == Stages(t) - 1)
    && (forall i :: 0 <= i < |t.A| ==> |t.A[i]| == i + 1)
    && |t.bSol| == Stages(t)
  }

  /** An embedded pair also has one error weight per stage. */
  predicate EmbeddedShape(t: Tableau) {
    ExplicitShape(t) && |t.bErr| == Stages(t)
  }

  /** The node that row `A[i]` belongs to: `c[i+1]` when `c` lists the
      leading 0, `c[i]` when it omits it. */
  function RowNode(t: Tableau, i: nat): (r: real)
    requires ExplicitShape(t) && i < |t.A|
  {
    if ListsFirstNode(t) then t.c[i + 1] else t.c[i]
  }

  /** The full node vector c_1, ..., c_s. */
  function Nodes(t: Tableau): (r: seq<real>)
    requires ExplicitShape(t)
    ensures |r| == Stages(t)
    ensures !ListsFirstNode(t) ==> r[0] == 0.0
    ensures ListsFirstNode(t) ==> r[0] == t.c[0]
    ensures forall i :: 0 <= i < |t.A| ==> r[i + 1] == RowNode(t, i)
  {
    if ListsFirstNode(t) then t.c else [0.0] + t.c
  }

  /** The full strictly lower-triangular stage matrix, one row per stage;
      the first stage's row is empty. */
  function Rows(t: Tableau): (r: seq<seq<real>>)
    ensures |r| == Stages(t) && r[0] == []
    ensures forall i :: 0 <= i < |t.A| ==> r[i + 1] == t.A[i]
  {
    [[]] + t.A
  }

  /** The nodes are non-decreasing and all lie in [0, 1]: every stage is
      evaluated inside the step, at a time no earlier than the stage
      before it. */
  predicate NodesOrdered(t: Tableau)
    requires ExplicitShape(t)
  {
    forall i, j :: 0 <= i <= j < Stages(t) ==> 0.0 <= Nodes(t)[i] <= Nodes(t)[j] <= 1.0
  }

  /** Each row of `A` sums to its node, to within `tol`. */
  predicate RowSums(t: Tableau, tol: real)
    requires ExplicitShape(t)
  {
    forall i :: 0 <= i < |t.A| ==> Within(Sum(t.A[i]), RowNode(t, i), tol)
  }

  /** Consistency: the solution weights sum to 1, to within `tol`. */
  predicate Consistent(t: Tableau, tol: real)
    requires ExplicitShape(t)
  {
    Within(Sum(t.bSol), 1.0, tol)
  }

  /** First same as last: the last stage is evaluated at the new solution
      (its row is the solution weights) and gets weight 0 itself. */
  predicate Fsal(t: Tableau)
    requires ExplicitShape(t)
  {
    |t.A| > 0 && t.A[|t.A| - 1] == t.bSol[..|t.A|] && t.bSol[|t.A|] == 0.0
  }

  /** The embedded low-order weights that `bErr = bSol - bLow` was formed
      from. */
  function EmbeddedWeights(t: Tableau): (r: seq<real>)
    requires EmbeddedShape(t)
    ensures |r| == Stages(t)
    ensures forall i :: 0 <= i < |r| ==> t.bSol[i] - r[i] == t.bErr[i]
  {
    Sub(t.bSol, t.bErr)
  }

  /** A first-same-as-last, consistent tableau whose rows sum to their nodes
      places its last stage at the end of the step: c_s = 1 (to within
      twice the tolerance). */
  lemma FsalLastNode(t: Tableau, tol: real)
    requires ExplicitShape(t) && Fsal(t) && RowSums(t, tol) && Consistent(t, tol)
    ensures Within(Nodes(t)[Stages(t) - 1], 1.0, 2.0 * tol)
  {
    var n := |t.A|;
    SumLast(t.bSol);
    assert t.bSol[..|t.bSol| - 1] == t.A[n - 1];
    assert Within(Sum(t.A[n - 1]), RowNode(t, n - 1), tol);
  }

  /** The error weights of an embedded pair sum to the difference of the
      two weight sums. */
  lemma ErrorWeightsSum(t: Tableau)
    requires EmbeddedShape(t)
    ensures Sum(t.bErr) == Sum(t.bSol) - Sum(EmbeddedWeights(t))
  {
    SubSub(t.bSol, t.bErr);
    SumSub(t.bSol, EmbeddedWeights(t));
  }
}
