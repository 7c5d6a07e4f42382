/** The coefficient tables of torchdyn/numerics/_constants.py: classical
    RK4, Dormand–Prince 5(4) (Dormand and Prince 1980), Tsitouras 5(4)
    (Tsitouras 2011) and the dopri5 mid-point dense-output weights.
    Coefficients are exact reals: quotients are exact rationals and the
    Tsitouras decimals are taken digit for digit. */
module Constants {
  import opened Vectors
  import opened Butcher

  /** Classical 4-stage RK4. `c` lists the leading node 0, so `A[i]` pairs
      with `c[i+1]`. There is no embedded method: `bErr` is a one-entry zero
      placeholder kept for compatibility with the other solvers, not an
      error estimator. */
  function ConstructRk4(): (t: Tableau)
    ensures ExplicitShape(t) && ListsFirstNode(t)
    ensures Stages(t) == 4 && |t.c| == 4 && |t.A| == 3 && |t.bSol| == 4
    ensures |t.bErr| == 1 && !EmbeddedShape(t)
  {
    Tableau(
      [0.0, 1.0 / 2.0, 1.0 / 2.0, 1.0],
      [[1.0 / 2.0],
       [0.0, 1.0 / 2.0],
       [0.0, 0.0, 1.0]],
      [1.0 / 6.0, 1.0 / 3.0, 1.0 / 3.0, 1.0 / 6.0],
      [0.0])
  }

  /** The 4th-order weights embedded in Dormand–Prince 5(4), as written to
      `berr` before the subtraction. */
  function Dopri5LowOrderWeights(): (r: seq<real>)
    ensures |r| == 7
  {
    [1951.0 / 21600.0, 0.0, 22642.0 / 50085.0, 451.0 / 720.0,
     -12231.0 / 42400.0, 649.0 / 6300.0, 1.0 / 60.0]
  }

  /** Dormand–Prince 5(4). `c` omits the leading node 0, so `A[i]` pairs
      with `c[i]`; `bErr` is `bSol` minus the embedded 4th-order weights. */
  function ConstructDopri5(): (t: Tableau)
    ensures EmbeddedShape(t) && !ListsFirstNode(t)
    ensures Stages(t) == 7 && |t.c| == 6 && |t.A| == 6 && |t.bSol| == 7 && |t.bErr| == 7
  {
    var bSol := [35.0 / 384.0, 0.0, 500.0 / 1113.0, 125.0 / 192.0, -2187.0 / 6784.0, 11.0 / 84.0, 0.0];
    Tableau(
      [1.0 / 5.0, 3.0 / 10.0, 4.0 / 5.0, 8.0 / 9.0, 1.0, 1.0],
      [[1.0 / 5.0],
       [3.0 / 40.0, 9.0 / 40.0],
       [44.0 / 45.0, -56.0 / 15.0, 32.0 / 9.0],
       [19372.0 / 6561.0, -25360.0 / 2187.0, 64448.0 / 6561.0, -212.0 / 729.0],
       [9017.0 / 3168.0, -355.0 / 33.0, 46732.0 / 5247.0, 49.0 / 176.0, -5103.0 / 18656.0],
       [35.0 / 384.0, 0.0, 500.0 / 1113.0, 125.0 / 192.0, -2187.0 / 6784.0, 11.0 / 84.0]],
      bSol,
      Sub(bSol, Dopri5LowOrderWeights()))
  }

  /** The 4th-order weights embedded in Tsitouras 5(4), as written to
      `berr` before the subtraction. */
  function Tsit5LowOrderWeights(): (r: seq<real>)
    ensures |r| == 7
  {
    [0.09468075576583945807478876255758922856117527357724631226139574065785592789071067303271,
     0.009183565540343253096776363936645313759813746240984095238905939532922955247253608687270,
     0.4877705284247615707855642599631228241516691959761363774365216240304071651579571959813,
     1.234297566930478985655109673884237654035539930748192848315425833500484878378061439761,
     -2.707712349983525454881109975059321670689605166938197378763992255714444407154902012702,
     1.866628418170587035753719399566211498666255505244122593996591602841258328965767580089,
     1.0 / 66.0]
  }

  /** Tsitouras 5(4). `c` omits the leading node 0, so `A[i]` pairs with
      `c[i]`; `bErr` is `bSol` minus the embedded 4th-order weights. The
      decimals are truncated, so its identities hold only approximately. */
  function ConstructTsit5(): (t: Tableau)
    ensures EmbeddedShape(t) && !ListsFirstNode(t)
    ensures Stages(t) == 7 && |t.c| == 6 && |t.A| == 6 && |t.bSol| == 7 && |t.bErr| == 7
  {
    var bSol :=
      [0.09646076681806522951816731316512876333711995238157997181903319145764851595234062815396,
       1.0 / 100.0,
       0.4798896504144995747752495322905965199130404621990332488332634944254542060153074523509,
       1.379008574103741893192274821856872770756462643091360525934940067397245698027561293331,
       -3.290069515436080679901047585711363850115683290894936158531296799594813811049925401677,
       2.324710524099773982415355918398765796109060233222962411944060046314465391054716027841,
       0.0];
    Tableau(
      [161.0 / 1000.0,
       327.0 / 1000.0,
       9.0 / 10.0,
       0.9800255409045096857298102862870245954942137979563024768854764293221195950761080302604,
       1.0,
       1.0],
      [[161.0 / 1000.0],
       [-0.008480655492356988544426874250230774675121177393430391537369234245294192976164141156943,
        0.3354806554923569885444268742502307746751211773934303915373692342452941929761641411569],
       [2.897153057105493432130432594192938764924887287701866490314866693455023795137503079289,
        -6.359448489975074843148159912383825625952700647415626703305928850207288721235210244366,
        4.362295432869581411017727318190886861027813359713760212991062156752264926097707165077],
       [5.325864828439256604428877920840511317836476253097040101202360397727981648835607691791,
        -11.74888356406282787774717033978577296188744178259862899288666928009020615663593781589,
        7.495539342889836208304604784564358155658679161518186721010132816213648793440552049753,
        -0.09249506636175524925650207933207191611349983406029535244034750452930469056411389539635],
       [5.861455442946420028659251486982647890394337666164814434818157239052507339770711679748,
        -12.92096931784710929170611868178335939541780751955743459166312250439928519268343184452,
        8.159367898576158643180400794539253485181918321135053305748355423955009222648673734986,
        -0.07158497328140099722453054252582973869127213147363544882721139659546372402303777878835,
        -0.02826905039406838290900305721271224146717633626879770007617876201276764571291579142206],
       [0.09646076681806522951816731316512876333711995238157997181903319145764851595234062815396,
        1.0 / 100.0,
        0.4798896504144995747752495322905965199130404621990332488332634944254542060153074523509,
        1.379008574103741893192274821856872770756462643091360525934940067397245698027561293331,
        -3.290069515436080679901047585711363850115683290894936158531296799594813811049925401677,
        2.324710524099773982415355918398765796109060233222962411944060046314465391054716027841]],
      bSol,
      Sub(bSol, Tsit5LowOrderWeights()))
  }

  /** Weights of the 4th-order interpolant of dopri5 at the mid-point of a
      step, one per dopri5 stage; binary64 decimals as written. */
  function Construct4th(): (r: seq<real>)
    ensures |r| == 7
  {
    [0.10013431883002395, 0.0, 0.3918321794184259, -0.02982460176594817,
     0.05893268337240795, -0.04497888809104361, 0.023904308236133973]
  }
}
