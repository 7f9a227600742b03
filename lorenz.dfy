/**
 The Lorenz engine: the right-hand side of one Lorenz-63 system, the
 right-hand side of three coupled systems, and the supermodel step that
 averages the three subsystems of a solver's output, row by row.
 The ODE solver itself is not modelled: its output is a parameter.
 */
module Lorenz {
  import opened Params

  /**
   Time derivative of one Lorenz-63 system at state s = [x, y, z]; the time t0
   is not used. For a != 0, x is stationary exactly on the plane x = y, and the
   z axis is invariant: on it only z moves.
   */
  function Derivative(s: seq<real>, t0: real, m: LModel): (r: seq<real>)
    requires |s| == 3
    ensures |r| == 3
    ensures m.a != 0.0 ==> (r[0] == 0.0 <==> s[0] == s[1])
    ensures s[0] == 0.0 && s[1] == 0.0 ==> r[0] == 0.0 && r[1] == 0.0
  {
    var x, y, z := s[0], s[1], s[2];
    [m.a * (y - x), m.b * x - y - x * z, x * y - m.c * z]
  }

  /** The system is autonomous: the derivative is the same at every time. */
  lemma DerivativeAutonomous(s: seq<real>, t0: real, t1: real, m: LModel)
    requires |s| == 3
    ensures Derivative(s, t0, m) == Derivative(s, t1, m)
  {
  }

  /**
   The equilibria of the system (for a != 0): x = y, x (b - 1 - z) = 0 and x^2 = c z,
   which gives the origin and, when b > 1, the two points with z = b - 1.
   */
  lemma DerivativeEquilibrium(s: seq<real>, t0: real, m: LModel)
    requires |s| == 3 && m.a != 0.0
    ensures Derivative(s, t0, m) == [0.0, 0.0, 0.0]
      <==> s[0] == s[1] && s[0] * (m.b - 1.0 - s[2]) == 0.0 && s[0] * s[0] == m.c * s[2]
  {
    var x, y, z := s[0], s[1], s[2];
    if Derivative(s, t0, m) == [0.0, 0.0, 0.0] {
      assert m.a * (y - x) == 0.0;
      assert y == x;
      assert x * (m.b - 1.0 - z) == m.b * x - y - x * z;
    }
    if x == y && x * (m.b - 1.0 - z) == 0.0 && x * x == m.c * z {
      assert m.b * x - y - x * z == x * (m.b - 1.0 - z);
    }
  }

  /** The system is symmetric under the half-turn (x, y, z) to (-x, -y, z) about the z axis. */
  lemma DerivativeHalfTurn(s: seq<real>, t0: real, m: LModel)
    requires |s| == 3
    ensures var r := Derivative(s, t0, m);
      Derivative([-s[0], -s[1], s[2]], t0, m) == [-r[0], -r[1], r[2]]
  {
    var x, y, z := s[0], s[1], s[2];
    var r, q := Derivative(s, t0, m), Derivative([-x, -y, z], t0, m);
    assert (-x) * (-y) == x * y;
    assert (-x) * z == -(x * z);
    assert q[0] == -r[0] && q[1] == -r[1] && q[2] == r[2];
  }

  /** Subsystem i's three components [x_i, y_i, z_i] of a coupled 9-component vector. */
  function Block(s: seq<real>, i: nat): (r: seq<real>)
    requires |s| == 9 && i < 3
    ensures |r| == 3 && r[0] == s[3 * i] && r[1] == s[3 * i + 1] && r[2] == s[3 * i + 2]
  {
    s[3 * i .. 3 * i + 3]
  }

  /**
   The derivative of one subsystem inside the coupled system: its own Lorenz
   terms, with dy written as x (b - z) - y, and each component pulled towards
   the other two subsystems u and v with strengths ku and kv (x, y, z order).
   */
  function PulledDerivative(own: seq<real>, u: seq<real>, v: seq<real>, m: LModel, ku: seq<real>, kv: seq<real>): (r: seq<real>)
    requires |own| == 3 && |u| == 3 && |v| == 3 && |ku| == 3 && |kv| == 3
    ensures |r| == 3
    ensures var d := Derivative(own, 0.0, m);
      r[0] == d[0] + ku[0] * (u[0] - own[0]) + kv[0] * (v[0] - own[0]) &&
      r[1] == d[1] + ku[1] * (u[1] - own[1]) + kv[1] * (v[1] - own[1]) &&
      r[2] == d[2] + ku[2] * (u[2] - own[2]) + kv[2] * (v[2] - own[2])
  {
    DyForms(own[0], own[1], own[2], m.b);
    var x, y, z := own[0], own[1], own[2];
    [m.a * (y - x) + ku[0] * (u[0] - x) + kv[0] * (v[0] - x),
     x * (m.b - z) - y + ku[1] * (u[1] - y) + kv[1] * (v[1] - y),
     x * y - m.c * z + ku[2] * (u[2] - z) + kv[2] * (v[2] - z)]
  }

  /**
   Time derivative of three coupled Lorenz-63 systems at the 9-component state
   s = [x1, y1, z1, x2, y2, z2, x3, y3, z3]: for each subsystem i in turn, its
   own derivative pulled towards subsystems j and k by the coefficients cvij
   and cvik. Only the first three models are read; the time t0 is not used.
   */
  function CoupledDerivative(s: seq<real>, t0: real, models: seq<LModel>, c: LCoeffs): (r: seq<real>)
    requires |s| == 9 && |models| >= 3
    ensures |r| == 9
    ensures Block(r, 0) == PulledDerivative(Block(s, 0), Block(s, 1), Block(s, 2), models[0], [c.cx12, c.cy12, c.cz12], [c.cx13, c.cy13, c.cz13])
    ensures Block(r, 1) == PulledDerivative(Block(s, 1), Block(s, 0), Block(s, 2), models[1], [c.cx21, c.cy21, c.cz21], [c.cx23, c.cy23, c.cz23])
    ensures Block(r, 2) == PulledDerivative(Block(s, 2), Block(s, 0), Block(s, 1), models[2], [c.cx31, c.cy31, c.cz31], [c.cx32, c.cy32, c.cz32])
  {
    var s1, s2, s3 := Block(s, 0), Block(s, 1), Block(s, 2);
    var d1 := PulledDerivative(s1, s2, s3, models[0], [c.cx12, c.cy12, c.cz12], [c.cx13, c.cy13, c.cz13]);
    var d2 := PulledDerivative(s2, s1, s3, models[1], [c.cx21, c.cy21, c.cz21], [c.cx23, c.cy23, c.cz23]);
    var d3 := PulledDerivative(s3, s1, s2, models[2], [c.cx31, c.cy31, c.cz31], [c.cx32, c.cy32, c.cz32]);
    BlocksOfConcat(d1, d2, d3);
    d1 + d2 + d3
  }

  /** The coupled derivative's dy, written x (b - z) - y, agrees with the single-system form b x - y - x z. */
  lemma DyForms(x: real, y: real, z: real, b: real)
    ensures x * (b - z) - y == b * x - y - x * z
  {
  }

  /**
   A subsystem's pulled derivative is its own Lorenz derivative when both
   pulls vanish: the strengths are zero, or the other two subsystems are in
   the same state as this one.
   */
  lemma PulledDerivativeUnpulled(own: seq<real>, u: seq<real>, v: seq<real>, t0: real, m: LModel, ku: seq<real>, kv: seq<real>)
    requires |own| == 3 && |u| == 3 && |v| == 3 && |ku| == 3 && |kv| == 3
    requires (ku == [0.0, 0.0, 0.0] && kv == [0.0, 0.0, 0.0]) || (u == own && v == own)
    ensures PulledDerivative(own, u, v, m, ku, kv) == Derivative(own, t0, m)
  {
    var r, d := PulledDerivative(own, u, v, m, ku, kv), Derivative(own, t0, m);
    DyForms(own[0], own[1], own[2], m.b);
    if u == own && v == own {
      assert r[0] == d[0] && r[1] == d[1] && r[2] == d[2];
    } else {
      assert r[0] == d[0] && r[1] == d[1] && r[2] == d[2];
    }
  }

  /** The blocks of three 3-component sequences laid end to end are those sequences. */
  lemma BlocksOfConcat(p: seq<real>, q: seq<real>, w: seq<real>)
    requires |p| == 3 && |q| == 3 && |w| == 3
    ensures Block(p + q + w, 0) == p && Block(p + q + w, 1) == q && Block(p + q + w, 2) == w
  {
  }

  /**
   Without coupling, the coupled derivative is the three subsystems' own
   derivatives, in the order subsystem 1, 2, 3, each under its own model.
   */
  lemma CoupledDerivativeUncoupled(s: seq<real>, t0: real, models: seq<LModel>, c: LCoeffs)
    requires |s| == 9 && |models| >= 3 && c.IsZero()
    ensures forall i :: 0 <= i < 3 ==>
      Block(CoupledDerivative(s, t0, models, c), i) == Derivative(Block(s, i), t0, models[i])
  {
    BlockDerivatives(s, t0, models, c);
  }

  /**
   When the three subsystems are in the same state every coupling term
   vanishes, whatever the coefficients.
   */
  lemma CoupledDerivativeSynchronized(s: seq<real>, t0: real, models: seq<LModel>, c: LCoeffs)
    requires |s| == 9 && |models| >= 3
    requires Block(s, 0) == Block(s, 1) == Block(s, 2)
    ensures forall i :: 0 <= i < 3 ==>
      Block(CoupledDerivative(s, t0, models, c), i) == Derivative(Block(s, i), t0, models[i])
  {
    BlockDerivatives(s, t0, models, c);
  }

  /** Each block of the coupled derivative is its subsystem's own derivative once the coupling terms vanish. */
  lemma BlockDerivatives(s: seq<real>, t0: real, models: seq<LModel>, c: LCoeffs)
    requires |s| == 9 && |models| >= 3
    requires c.IsZero() || Block(s, 0) == Block(s, 1) == Block(s, 2)
    ensures forall i :: 0 <= i < 3 ==>
      Block(CoupledDerivative(s, t0, models, c), i) == Derivative(Block(s, i), t0, models[i])
  {
    var s1, s2, s3 := Block(s, 0), Block(s, 1), Block(s, 2);
    var d1 := PulledDerivative(s1, s2, s3, models[0], [c.cx12, c.cy12, c.cz12], [c.cx13, c.cy13, c.cz13]);
    var d2 := PulledDerivative(s2, s1, s3, models[1], [c.cx21, c.cy21, c.cz21], [c.cx23, c.cy23, c.cz23]);
    var d3 := PulledDerivative(s3, s1, s2, models[2], [c.cx31, c.cy31, c.cz31], [c.cx32, c.cy32, c.cz32]);
    PulledDerivativeUnpulled(s1, s2, s3, t0, models[0], [c.cx12, c.cy12, c.cz12], [c.cx13, c.cy13, c.cz13]);
    PulledDerivativeUnpulled(s2, s1, s3, t0, models[1], [c.cx21, c.cy21, c.cz21], [c.cx23, c.cy23, c.cz23]);
    PulledDerivativeUnpulled(s3, s1, s2, t0, models[2], [c.cx31, c.cy31, c.cz31], [c.cx32, c.cy32, c.cz32]);
    BlocksOfConcat(d1, d2, d3);
  }

  /** The three-way mean: deviations from it sum to zero, and three equal values are their own mean. */
  function Mean3(u: real, v: real, w: real): (r: real)
    ensures (u - r) + (v - r) + (w - r) == 0.0
    ensures u == v == w ==> r == u
  {
    (u + v + w) / 3.0
  }

  /** Each row of a coupled solver output holds the nine components of one time sample. */
  predicate Rows9(rows: seq<seq<real>>) {
    forall k :: 0 <= k < |rows| ==> |rows[k]| == 9
  }

  /**
   Component j (0 for x, 1 for y, 2 for z) averaged over the three subsystems,
   one value per row: columns j, j + 3 and j + 6.
   */
  function BlockMeans(rows: seq<seq<real>>, j: nat): (r: seq<real>)
    requires j < 3 && Rows9(rows)
    ensures |r| == |rows|
    ensures forall k :: 0 <= k < |rows| ==> r[k] == Mean3(rows[k][j], rows[k][j + 3], rows[k][j + 6])
  {
    seq(|rows|, k requires 0 <= k < |rows| => Mean3(rows[k][j], rows[k][j + 3], rows[k][j + 6]))
  }

  /** Every solver output in the list is a matrix of 9-component rows. */
  predicate Outputs9(s: seq<seq<seq<real>>>) {
    forall i :: 0 <= i < |s| ==> Rows9(s[i])
  }

  /** The number of time samples, summed over every solver output in the list. */
  function SampleCount(s: seq<seq<seq<real>>>): nat {
    if s == [] then 0 else SampleCount(s[..|s| - 1]) + |s[|s| - 1]|
  }

  /**
   Component j's means of every solver output in the list, one after the
   other: one mean per time sample.
   */
  function Concatenated(s: seq<seq<seq<real>>>, j: nat): (r: seq<real>)
    requires j < 3 && Outputs9(s)
    ensures |r| == SampleCount(s)
  {
    if s == [] then [] else Concatenated(s[..|s| - 1], j) + BlockMeans(s[|s| - 1], j)
  }

  /** A single solver output gives one mean per row: the number of time samples is kept. */
  lemma ConcatenatedSingle(rows: seq<seq<real>>, j: nat)
    requires j < 3 && Rows9(rows)
    ensures Concatenated([rows], j) == BlockMeans(rows, j)
    ensures |Concatenated([rows], j)| == |rows|
  {
  }

  /**
   The supermodel step of the coupled integration: for every solver output in
   s, the x, y and z means of the three subsystems at each time sample,
   appended to the accumulated sequences.
   */
  method AverageSubsystems(s: seq<seq<seq<real>>>) returns (xs: seq<real>, ys: seq<real>, zs: seq<real>)
    requires Outputs9(s)
    ensures xs == Concatenated(s, 0) && ys == Concatenated(s, 1) && zs == Concatenated(s, 2)
    ensures |s| == 1 ==> |xs| == |s[0]| && |ys| == |s[0]| && |zs| == |s[0]|
    ensures |s| == 1 ==> forall k :: 0 <= k < |s[0]| ==>
      xs[k] == Mean3(s[0][k][0], s[0][k][3], s[0][k][6]) &&
      ys[k] == Mean3(s[0][k][1], s[0][k][4], s[0][k][7]) &&
      zs[k] == Mean3(s[0][k][2], s[0][k][5], s[0][k][8])
  {
    xs, ys, zs := [], [], [];
    for i := 0 to |s|
      invariant xs == Concatenated(s[..i], 0) && ys == Concatenated(s[..i], 1) && zs == Concatenated(s[..i], 2)
    {
      assert s[..i + 1][..i] == s[..i];
      xs := xs + BlockMeans(s[i], 0);
      ys := ys + BlockMeans(s[i], 1);
      zs := zs + BlockMeans(s[i], 2);
    }
    assert s[..|s|] == s;
    if |s| == 1 {
      assert s == [s[0]];
      ConcatenatedSingle(s[0], 0);
      ConcatenatedSingle(s[0], 1);
      ConcatenatedSingle(s[0], 2);
    }
  }

  /** A permutation (p0, p1, p2) of the three subsystem positions. */
  predicate IsPermutation(p0: nat, p1: nat, p2: nat) {
    p0 < 3 && p1 < 3 && p2 < 3 && p0 != p1 && p1 != p2 && p0 != p2
  }

  /** A 9-component row with its three subsystem blocks rearranged as p0, p1, p2. */
  function PermuteBlocks(row: seq<real>, p0: nat, p1: nat, p2: nat): (r: seq<real>)
    requires |row| == 9 && IsPermutation(p0, p1, p2)
    ensures |r| == 9 && Block(r, 0) == Block(row, p0) && Block(r, 1) == Block(row, p1) && Block(r, 2) == Block(row, p2)
  {
    Block(row, p0) + Block(row, p1) + Block(row, p2)
  }

  /** Rearranging the subsystem blocks of a row leaves each component's three-way mean unchanged. */
  lemma Mean3Permuted(row: seq<real>, p0: nat, p1: nat, p2: nat, j: nat)
    requires |row| == 9 && IsPermutation(p0, p1, p2) && j < 3
    ensures var q := PermuteBlocks(row, p0, p1, p2);
      Mean3(q[j], q[j + 3], q[j + 6]) == Mean3(row[j], row[j + 3], row[j + 6])
  {
  }

  /**
   The supermodel average is invariant under any relabelling of the three
   subsystems: permuting every row's blocks gives the same means.
   */
  lemma BlockMeansPermuted(rows: seq<seq<real>>, p0: nat, p1: nat, p2: nat, j: nat)
    requires Rows9(rows) && IsPermutation(p0, p1, p2) && j < 3
    ensures var permuted := seq(|rows|, k requires 0 <= k < |rows| => PermuteBlocks(rows[k], p0, p1, p2));
      Rows9(permuted) && BlockMeans(permuted, j) == BlockMeans(rows, j)
  {
  }

  /** At a time sample where the three subsystems agree, the average is their common state. */
  lemma BlockMeansAgreeing(rows: seq<seq<real>>, k: nat)
    requires Rows9(rows) && k < |rows|
    requires Block(rows[k], 0) == Block(rows[k], 1) == Block(rows[k], 2)
    ensures [BlockMeans(rows, 0)[k], BlockMeans(rows, 1)[k], BlockMeans(rows, 2)[k]] == Block(rows[k], 0)
  {
  }
}
