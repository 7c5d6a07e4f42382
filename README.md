# Butcher tableaus of torchdyn's explicit Runge–Kutta solvers

This project models `torchdyn/numerics/_constants.py`, the coefficient tables
of torchdyn's explicit Runge–Kutta solvers, and proves what the tables
promise:

- classical RK4 (`construct_rk4`);
- Dormand–Prince 5(4) (`construct_dopri5`);
- Tsitouras 5(4) (`construct_tsit5`);
- the dopri5 mid-point dense-output weights (`construct_4th`).

Each of the three tableau constructors returns a `(c, A, b_sol, b_err)` tuple
in the field order of `ExplicitRKTableau`. Here that tuple is the datatype
`Butcher.Tableau`. `construct_4th` returns a single vector, the seven
mid-point weights. The coefficients are exact `real`s:

- RK4 and DOPRI5 are written as exact quotients.
- TSIT5 uses its ~85-digit decimals digit for digit. A literal such as
  `.9646e-1` is rewritten as the plain decimal `0.09646`.
- The mid-point weights are taken as the decimals written in the source.

Modules:

- `Vectors` (vectors.dfy): sums, dot products, the elementwise difference
  that forms `bsol - berr`, and their linearity lemmas.
- `Butcher` (tableau.dfy): the tableau, its shape, and the full node vector.
  The full vector prepends the node 0 where `c` omits it (DOPRI5, TSIT5) and
  uses `c` itself where `c` lists it (RK4). Also here: row sums, consistency,
  first-same-as-last (FSAL), and reading the embedded weights back from the
  error weights.
- `OrderConditions` (order.dfy): rooted trees with their order, density and
  elementary weight vector. It lists the 17 trees of order at most 5 as in
  Table 2.2 of Hairer, Nørsett and Wanner, *Solving Ordinary Differential
  Equations I*, section II.2. It defines what "order p" means for a weight
  vector (to within a tolerance, and at a fraction theta of the step for
  dense output).
- `Constants` (constants.dfy): the four constructors.
- `Rk4Evaluation`, `Dopri5Evaluation`, `Tsit5Evaluation`: the exact stage
  vectors of each method (c², A c, …) and, tree by tree, the ground
  evaluation of every order condition. The dispatcher `TreeFacts(k)`
  collects these.
- `Rk4Properties`, `Dopri5Properties`, `Tsit5Properties`: the properties of
  each table.

The TSIT5 decimals are truncated, so its identities hold only to within
`Tsit5Evaluation.Tolerance` = 1e-83. The largest residual is below 4e-84.
The mid-point weights are binary64 decimals, and they meet their conditions
to within `Dopri5Evaluation.MidpointTolerance` = 1e-16.

## Model

| member | source | states |
|---|---|---|
| Constants.ConstructRk4 | torchdyn/numerics/_constants.py:8-16 | 4 stages; `c` lists the leading node 0; row i of `A` has i+1 entries; 4 solution weights; the error vector has one entry, so it is not an embedded pair |
| Constants.ConstructDopri5 | torchdyn/numerics/_constants.py:19-31 | 7 stages; 6 nodes (leading 0 omitted); 6 rows, row i of length i+1; 7 solution and 7 error weights |
| Constants.Dopri5LowOrderWeights | torchdyn/numerics/_constants.py:30 | the literal embedded weights written to `berr`, one per stage |
| Constants.ConstructTsit5 | torchdyn/numerics/_constants.py:34-97 | 7 stages; 6 nodes (leading 0 omitted); 6 rows, row i of length i+1; 7 solution and 7 error weights |
| Constants.Tsit5LowOrderWeights | torchdyn/numerics/_constants.py:88-96 | the literal embedded weights written to `berr`, one per stage |
| Constants.Construct4th | torchdyn/numerics/_constants.py:104-110 | seven mid-point weights, one per dopri5 stage |
| Vectors.Sub | torchdyn/numerics/_constants.py:31 | `bsol - berr` keeps the length and is the pointwise difference |
| Butcher.Nodes | torchdyn/numerics/_constants.py:20 | the full node vector has one node per stage, starts with 0 when `c` omits it and with `c[0]` when `c` lists it, and puts row i's node at position i+1 under both index conventions |
| Butcher.Rows | torchdyn/numerics/_constants.py:21-28 | the full stage matrix: an empty first row, then row i of `A` at position i+1 |
| Butcher.EmbeddedWeights | torchdyn/numerics/_constants.py:31 | the embedded weights read back from `bSol` and `bErr` satisfy `bSol[i] - r[i] == bErr[i]` at every stage |
| Butcher.FsalLastNode | torchdyn/numerics/_constants.py:27-29 | a consistent FSAL tableau whose rows sum to their nodes has last node 1, to within twice the tolerance |
| Butcher.ErrorWeightsSum | torchdyn/numerics/_constants.py:31 | error weights sum to the difference of the solution and embedded weight sums |
| OrderConditions.TreesDistinct | torchdyn/numerics/_constants.py:19-31 | the table behind the fifth-order claim of DOPRI5 lists 17 pairwise different trees |
| OrderConditions.TreesOrders | torchdyn/numerics/_constants.py:19-31 | the trees' orders: one each of order 1 and 2, two of order 3, four of order 4, nine of order 5 |
| OrderConditions.TreesDensities | torchdyn/numerics/_constants.py:19-31 | the trees' densities, as in Table 2.2 |
| OrderConditions.ErrorWeightsAnnihilate | torchdyn/numerics/_constants.py:29-31 | if both weight vectors have order p, the error weights annihilate the elementary weights of every tree of order at most p |
| Rk4Properties.Rk4Nodes | torchdyn/numerics/_constants.py:9 | the nodes 0, 1/2, 1/2, 1 are non-decreasing and lie in [0, 1]; the node vector starts with 0 |
| Rk4Properties.Rk4RowSums | torchdyn/numerics/_constants.py:9-13 | `sum(A[i]) == c[i+1]` exactly for the three rows |
| Rk4Properties.Rk4Consistent | torchdyn/numerics/_constants.py:14 | the solution weights sum to 1 |
| Rk4Properties.Rk4NotFsal | torchdyn/numerics/_constants.py:13-14 | RK4's last row is not its solution weights |
| Rk4Properties.Rk4ErrorPlaceholder | torchdyn/numerics/_constants.py:15 | the error vector is `[0]`, whose length differs from the stage count |
| Rk4Properties.Rk4Order | torchdyn/numerics/_constants.py:9-14 | the solution weights meet all 8 order conditions through order 4 exactly |
| Rk4Properties.Rk4NotOrder5 | torchdyn/numerics/_constants.py:9-14 | not order 5 for any tolerance below 1/120 (b·c⁴ = 5/24) |
| Rk4Evaluation.TreeFacts | torchdyn/numerics/_constants.py:9-14 | for each tree k of order at most 4, the RK4 condition of that tree holds |
| Dopri5Properties.Dopri5Nodes | torchdyn/numerics/_constants.py:20 | with the leading 0 restored, the nodes are non-decreasing and lie in [0, 1] |
| Dopri5Properties.Dopri5RowSums | torchdyn/numerics/_constants.py:20-28 | `sum(A[i]) == c[i]` exactly for all six rows |
| Dopri5Properties.Dopri5Consistent | torchdyn/numerics/_constants.py:29 | the solution weights sum to 1 |
| Dopri5Properties.Dopri5Fsal | torchdyn/numerics/_constants.py:27-29 | the last row equals the first six solution weights, `bsol[6] == 0`, and the last node is 1 |
| Dopri5Properties.Dopri5EmbeddedWeights | torchdyn/numerics/_constants.py:29-31 | the fourth component is `bsol[i] - berr[i]` pointwise, and the embedded weights read back from it are the literal `berr` |
| Dopri5Properties.Dopri5ErrorWeightsSum | torchdyn/numerics/_constants.py:30-31 | the literal `berr` sums to 1, so the error weights sum to 0 exactly |
| Dopri5Properties.Dopri5SolutionOrder | torchdyn/numerics/_constants.py:19-29 | the solution weights meet all 17 conditions through order 5 exactly |
| Dopri5Properties.Dopri5EmbeddedOrder | torchdyn/numerics/_constants.py:19-31 | the embedded weights meet all 8 conditions through order 4 exactly |
| Dopri5Properties.Dopri5EmbeddedNotOrder5 | torchdyn/numerics/_constants.py:30-31 | the embedded weights are not order 5 for any tolerance below 71/405000 |
| Dopri5Properties.LowOrderWeightsNotOrder5 | torchdyn/numerics/_constants.py:30 | the literal `berr` fails the order-5 conditions (at the tree c⁴) for any tolerance below 71/405000 |
| Dopri5Properties.Dopri5ErrorAnnihilates | torchdyn/numerics/_constants.py:29-31 | the error weights give 0 on the elementary weights of every tree of order at most 4 |
| Dopri5Properties.MidpointWeights | torchdyn/numerics/_constants.py:104-110 | one weight per dopri5 stage, entry 1 is 0 as is `bsol[1]`, and the weights sum to 1/2 within 1e-16 |
| Dopri5Properties.MidpointOrder | torchdyn/numerics/_constants.py:104-110 | at theta = 1/2 the weights meet every condition through order 4, to within 1e-16 |
| Dopri5Evaluation.TreeFacts | torchdyn/numerics/_constants.py:19-30 | for each tree k: the solution-weight condition; for order at most 4, also the embedded and the mid-point conditions |
| Tsit5Properties.Tsit5Nodes | torchdyn/numerics/_constants.py:36-43 | with the leading 0 restored, the nodes are non-decreasing and lie in [0, 1] |
| Tsit5Properties.Tsit5RowSums | torchdyn/numerics/_constants.py:36-78 | `sum(A[i])` is within 1e-83 of `c[i]` for all six rows |
| Tsit5Properties.Tsit5Consistent | torchdyn/numerics/_constants.py:79-87 | the solution weights sum to 1 within 1e-83 |
| Tsit5Properties.Tsit5Fsal | torchdyn/numerics/_constants.py:70-87 | the last row equals the first six solution weights exactly, `bsol[6] == 0`, and the last node is within 2e-83 of 1 |
| Tsit5Properties.Tsit5EmbeddedWeights | torchdyn/numerics/_constants.py:79-97 | the fourth component is `bsol[i] - berr[i]` pointwise, and the embedded weights read back from it are the literal `berr` |
| Tsit5Properties.Tsit5ErrorWeightsSum | torchdyn/numerics/_constants.py:88-97 | the literal `berr` sums to 1 within 1e-83, so the error weights sum to 0 within 2e-83 |
| Tsit5Properties.Tsit5SolutionOrder | torchdyn/numerics/_constants.py:34-87 | the solution weights meet all 17 conditions through order 5 within 1e-83 |
| Tsit5Properties.Tsit5EmbeddedOrder | torchdyn/numerics/_constants.py:34-97 | the embedded weights meet all 8 conditions through order 4 within 1e-83 |
| Tsit5Properties.Tsit5EmbeddedNotOrder5 | torchdyn/numerics/_constants.py:88-97 | the embedded weights are not order 5 for any tolerance below 1/2000 |
| Tsit5Properties.LowOrderWeightsNotOrder5 | torchdyn/numerics/_constants.py:88-96 | the literal `berr` fails the order-5 conditions (at the tree c⁴) for any tolerance below 1/2000 |
| Tsit5Properties.Tsit5ErrorAnnihilates | torchdyn/numerics/_constants.py:79-97 | the error weights give 0, within 2e-83, on the elementary weights of every tree of order at most 4 |
| Tsit5Evaluation.TreeFacts | torchdyn/numerics/_constants.py:34-96 | for each tree k: the solution-weight condition; for order at most 4, also the embedded condition, all within 1e-83 |

## Left out

- `torch` and `dtype`: tensor construction and rounding to the requested
  precision are not modelled. This includes Python evaluating `1 / 5` in
  binary64 before torch converts it, and RK4's `berr` ignoring `dtype`
  (line 15). All values are exact reals.
- The integrator that consumes these tables is not part of this model:
  stage evaluation, step-size control, and the dense-output polynomial.
  Neither is selecting a method by name, with its unknown-method and
  precision errors. None of these is in `_constants.py`.
- End-to-end accuracy (integrating `dy/dt = y` over one step) needs
  `exp` and floating point, and is not modelled.
- TSIT5 identities are stated within the tolerance, never exactly: the
  decimals are truncated, and RowSums, Consistent and the order conditions
  fail exactly by up to 4e-84.
- The only mid-point property stated is order 4 at theta = 1/2. Its order-5
  conditions are off by about 4e-4, and no other fraction of the step is
  covered.
- DOPRI5 and TSIT5 have one error weight per stage. RK4's `berr` is a
  one-entry `[0]`, commented as a compatibility placeholder (line 15).
  `ConstructRk4` models it as written, so it does not satisfy `EmbeddedShape`.
