/**
 The Henon engine: the quadratic map, its two-subsystem coupled variant, the
 trajectory generators that fill preallocated arrays from the fixed initial
 state (0.1, 0.3), and the supermodel average of the two coupled subsystems.
 */
module Henon {
  import opened Params

  /** Number of iterations of every generator; trajectories hold NIter + 1 states. */
  const NIter: nat := 10000

  /** A state (x, y) of one Henon map. */
  datatype Point = Point(x: real, y: real)

  /** The state (x1, y1, x2, y2) of two coupled Henon subsystems. */
  datatype Coupled = Coupled(s1: Point, s2: Point)
  {
    /** The same state with the subsystems' labels exchanged. */
    function Swap(): Coupled {
      Coupled(s2, s1)
    }
  }

  /** Initial state of every generator, for each subsystem alike. */
  const Start: Point := Point(0.1, 0.3)

  /**
   One step of the Henon map: (x, y) goes to (1 - a x^2 + y, b x). The input
   can be read back from the output: b x is the new y, and the old y is the
   new x less 1 - a x^2.
   */
  function Step(p: Point, m: HModel := HModel()): (r: Point)
    ensures r.y == m.b * p.x && p.y == r.x - 1.0 + m.a * p.x * p.x
  {
    Point(1.0 - m.a * p.x * p.x + p.y, m.b * p.x)
  }

  /** The inverse of the Henon map, which exists whenever b is not zero. */
  ghost function Unstep(q: Point, m: HModel): Point
    requires m.b != 0.0
  {
    var x := q.y / m.b;
    Point(x, q.x - 1.0 + m.a * x * x)
  }

  /** For b != 0 the map is a bijection: q is the image of p exactly when p is the preimage of q. */
  lemma StepInvertible(p: Point, q: Point, m: HModel)
    requires m.b != 0.0
    ensures Step(p, m) == q <==> p == Unstep(q, m)
  {
  }

  /** The fixed points of the map: those on the line y = b x whose x solves a x^2 + (1 - b) x = 1. */
  lemma StepFixedPoint(p: Point, m: HModel)
    ensures Step(p, m) == p <==> p.y == m.b * p.x && m.a * p.x * p.x + (1.0 - m.b) * p.x == 1.0
  {
  }

  /**
   k steps of the map from p: the k-th state of a trajectory starting at p.
   A fixed point of the map stays where it is.
   */
  ghost function Iterate(p: Point, m: HModel, k: nat): (r: Point)
    ensures Step(p, m) == p ==> r == p
  {
    if k == 0 then p else Step(Iterate(p, m, k - 1), m)
  }

  /**
   One step of two coupled maps: each subsystem takes its own Henon step and is
   nudged towards the other in proportion to the coupling coefficients.
   Only the first two models are read. Two subsystems with the same model and
   the same state stay together, whatever the coefficients.
   */
  function CoupledStep(s: Coupled, models: seq<HModel>, c: HCoeffs): (r: Coupled)
    requires |models| >= 2
    ensures s.s1 == s.s2 && models[0] == models[1] ==> r.s1 == r.s2
  {
    var m1, m2 := models[0], models[1];
    var x1, y1, x2, y2 := s.s1.x, s.s1.y, s.s2.x, s.s2.y;
    Coupled(Point(1.0 - m1.a * x1 * x1 + y1 + c.cx12 * (x2 - x1), m1.b * x1 + c.cy12 * (y2 - y1)),
            Point(1.0 - m2.a * x2 * x2 + y2 + c.cx21 * (x1 - x2), m2.b * x2 + c.cy21 * (y1 - y2)))
  }

  /** Without coupling the two subsystems step independently, each under its own model. */
  lemma CoupledStepUncoupled(s: Coupled, models: seq<HModel>, c: HCoeffs)
    requires |models| >= 2 && c.IsZero()
    ensures CoupledStep(s, models, c) == Coupled(Step(s.s1, models[0]), Step(s.s2, models[1]))
  {
  }

  /** When both subsystems are in the same state every coupling term vanishes, whatever the coefficients. */
  lemma CoupledStepSynchronized(s: Coupled, models: seq<HModel>, c: HCoeffs)
    requires |models| >= 2 && s.s1 == s.s2
    ensures CoupledStep(s, models, c) == Coupled(Step(s.s1, models[0]), Step(s.s2, models[1]))
  {
  }

  /** Relabelling the subsystems, their models and their coefficients consistently relabels the step. */
  lemma CoupledStepSwap(s: Coupled, models: seq<HModel>, c: HCoeffs)
    requires |models| >= 2
    ensures CoupledStep(s.Swap(), [models[1], models[0]], c.Swapped()) == CoupledStep(s, models, c).Swap()
  {
  }

  /** The state fed to the coupled step by the generator as written: subsystem 2's state in both slots. */
  function LiteralFeed(s: Coupled): Coupled {
    Coupled(s.s2, s.s2)
  }

  /**
   The k-th state of the coupled generator as written, which feeds LiteralFeed
   of the previous state. With two identical models the subsystems never part.
   */
  ghost function LiteralOrbit(models: seq<HModel>, c: HCoeffs, k: nat): (r: Coupled)
    requires |models| >= 2
    ensures models[0] == models[1] ==> r.s1 == r.s2
  {
    if k == 0 then Coupled(Start, Start) else CoupledStep(LiteralFeed(LiteralOrbit(models, c, k - 1)), models, c)
  }

  /**
   The k-th state of the coupled generator that feeds each subsystem its own
   previous state. Two identical models started together stay together,
   whatever the coefficients.
   */
  ghost function CoupledOrbit(models: seq<HModel>, c: HCoeffs, k: nat): (r: Coupled)
    requires |models| >= 2
    ensures models[0] == models[1] ==> r.s1 == r.s2
  {
    if k == 0 then Coupled(Start, Start) else CoupledStep(CoupledOrbit(models, c, k - 1), models, c)
  }

  /**
   Under the literal feed, subsystem 2 follows the uncoupled orbit of model 2,
   and subsystem 1 is model 1's step applied to subsystem 2's previous state.
   */
  lemma {:induction false} LiteralOrbitFollowsModel2(models: seq<HModel>, c: HCoeffs, k: nat)
    requires |models| >= 2
    ensures LiteralOrbit(models, c, k).s2 == Iterate(Start, models[1], k)
    ensures k > 0 ==> LiteralOrbit(models, c, k).s1 == Step(Iterate(Start, models[1], k - 1), models[0])
  {
    if k > 0 {
      LiteralOrbitFollowsModel2(models, c, k - 1);
      CoupledStepSynchronized(LiteralFeed(LiteralOrbit(models, c, k - 1)), models, c);
    }
  }

  /** Under the literal feed the coupling coefficients have no effect at all. */
  lemma LiteralOrbitIgnoresCoeffs(models: seq<HModel>, c: HCoeffs, d: HCoeffs, k: nat)
    requires |models| >= 2
    ensures LiteralOrbit(models, c, k) == LiteralOrbit(models, d, k)
  {
    LiteralOrbitFollowsModel2(models, c, k);
    LiteralOrbitFollowsModel2(models, d, k);
  }

  /**
   The literal feed departs from the intended coupled iteration even with zero
   coupling: with the classical model 1 and a = b = 0 for model 2, subsystem 1
   differs at the second step.
   */
  lemma LiteralFeedCounterexample()
    ensures var models := [HModel(), HModel(0.0, 0.0)];
      LiteralOrbit(models, HCoeffs(), 2).s1 != CoupledOrbit(models, HCoeffs(), 2).s1
  {
  }

  /**
   Under the literal feed the supermodel estimate at step k > 0 is the mean of
   model 1's and model 2's steps from model 2's orbit at k - 1.
   */
  lemma LiteralMidpoint(models: seq<HModel>, c: HCoeffs, k: nat)
    requires |models| >= 2 && k > 0
    ensures Midpoint(LiteralOrbit(models, c, k))
      == Midpoint(Coupled(Step(Iterate(Start, models[1], k - 1), models[0]), Iterate(Start, models[1], k)))
  {
    LiteralOrbitFollowsModel2(models, c, k);
  }

  /**
   Under the literal feed the supermodel estimate depends on which subsystem is
   called 1: with the classical map and a = b = 0 as the two models and zero
   coupling, relabelling models and coefficients consistently changes the
   estimate at step 2 (x is -0.183 one way and -0.1276572 the other).
   */
  lemma LiteralSupermodelSwapCounterexample(models: seq<HModel>, c: HCoeffs)
    requires models == [HModel(), HModel(0.0, 0.0)] && c == HCoeffs()
    ensures Midpoint(LiteralOrbit([models[1], models[0]], c.Swapped(), 2)) != Midpoint(LiteralOrbit(models, c, 2))
  {
    var swapped := [models[1], models[0]];
    LiteralMidpoint(models, c, 2);
    LiteralMidpoint(swapped, c.Swapped(), 2);
    SwapEstimates();
    assert Midpoint(LiteralOrbit(models, c, 2)).x == -0.183;
    assert Midpoint(LiteralOrbit(swapped, c.Swapped(), 2)).x == -0.1276572;
  }

  /** The two step-2 estimates of the literal-feed supermodel for the classical map and a = b = 0. */
  lemma SwapEstimates()
    ensures var m1, m2 := HModel(), HModel(0.0, 0.0);
      Midpoint(Coupled(Step(Iterate(Start, m2, 1), m1), Iterate(Start, m2, 2))).x == -0.183 &&
      Midpoint(Coupled(Step(Iterate(Start, m1, 1), m2), Iterate(Start, m1, 2))).x == -0.1276572
  {
    var m1, m2 := HModel(), HModel(0.0, 0.0);
    assert Iterate(Start, m2, 1) == Step(Start, m2) == Point(1.3, 0.0);
    assert Iterate(Start, m2, 2) == Step(Point(1.3, 0.0), m2) == Point(1.0, 0.0);
    assert Step(Point(1.3, 0.0), m1) == Point(-1.366, 0.39);
    assert Iterate(Start, m1, 1) == Step(Start, m1) == Point(1.286, 0.03);
    assert Iterate(Start, m1, 2) == Step(Point(1.286, 0.03), m1) == Point(-1.2853144, 0.3858);
    assert Step(Point(1.286, 0.03), m2) == Point(1.03, 0.0);
  }

  /** With the own-state feed and zero coupling, each subsystem follows its own model's orbit. */
  lemma {:induction false} CoupledOrbitUncoupled(models: seq<HModel>, c: HCoeffs, k: nat)
    requires |models| >= 2 && c.IsZero()
    ensures CoupledOrbit(models, c, k) == Coupled(Iterate(Start, models[0], k), Iterate(Start, models[1], k))
  {
    if k > 0 {
      CoupledOrbitUncoupled(models, c, k - 1);
      CoupledStepUncoupled(CoupledOrbit(models, c, k - 1), models, c);
    }
  }

  /** With the own-state feed, relabelling models and coefficients consistently relabels the whole orbit. */
  lemma {:induction false} CoupledOrbitSwap(models: seq<HModel>, c: HCoeffs, k: nat)
    requires |models| >= 2
    ensures CoupledOrbit([models[1], models[0]], c.Swapped(), k) == CoupledOrbit(models, c, k).Swap()
  {
    if k > 0 {
      CoupledOrbitSwap(models, c, k - 1);
      CoupledStepSwap(CoupledOrbit(models, c, k - 1), models, c);
    }
  }

  /** The supermodel estimate of one coupled state: the mean of the two subsystems. */
  function Midpoint(s: Coupled): (r: Point)
    ensures r.x - s.s1.x == s.s2.x - r.x && r.y - s.s1.y == s.s2.y - r.y
    ensures s.s1 == s.s2 ==> r == s.s1
  {
    Point((s.s1.x + s.s2.x) * 0.5, (s.s1.y + s.s2.y) * 0.5)
  }

  /** The supermodel estimate does not depend on which subsystem is called 1. */
  lemma MidpointSwap(s: Coupled)
    ensures Midpoint(s.Swap()) == Midpoint(s)
  {
  }

  /**
   Element-wise mean of two coordinate sequences, as long as the shorter one
   (pairs are formed as by zip); each entry lies between the two inputs.
   */
  function Average(u: seq<real>, v: seq<real>): (r: seq<real>)
    ensures |r| == if |u| <= |v| then |u| else |v|
    ensures forall k :: 0 <= k < |r| ==> r[k] == (u[k] + v[k]) * 0.5
    ensures forall k :: 0 <= k < |r| ==> (u[k] <= r[k] <= v[k]) || (v[k] <= r[k] <= u[k])
  {
    seq(if |u| <= |v| then |u| else |v|, k requires 0 <= k < |u| && k < |v| => (u[k] + v[k]) * 0.5)
  }

  /** Averaging does not depend on which trajectory is called subsystem 1. */
  lemma AverageSymmetric(u: seq<real>, v: seq<real>)
    ensures Average(u, v) == Average(v, u)
  {
  }

  /** Averaging a trajectory with itself gives it back. */
  lemma AverageSelf(u: seq<real>)
    ensures Average(u, u) == u
  {
  }

  /** With the own-state feed, the supermodel estimate is unchanged by relabelling the subsystems consistently. */
  lemma SymmetricSupermodelSwap(models: seq<HModel>, c: HCoeffs, k: nat)
    requires |models| >= 2
    ensures Midpoint(CoupledOrbit([models[1], models[0]], c.Swapped(), k)) == Midpoint(CoupledOrbit(models, c, k))
  {
    CoupledOrbitSwap(models, c, k);
    MidpointSwap(CoupledOrbit(models, c, k));
  }

  /** The trajectory of one model: NIter + 1 states from Start, each the map applied to the one before. */
  method Trajectory(m: HModel) returns (xs: array<real>, ys: array<real>)
    ensures fresh(xs) && fresh(ys) && xs != ys
    ensures xs.Length == NIter + 1 && ys.Length == NIter + 1
    ensures xs[0] == 0.1 && ys[0] == 0.3
    ensures forall i :: 0 <= i < NIter ==> Point(xs[i + 1], ys[i + 1]) == Step(Point(xs[i], ys[i]), m)
    ensures forall i :: 0 <= i <= NIter ==> Point(xs[i], ys[i]) == Iterate(Start, m, i)
  {
    xs := new real[NIter + 1];
    ys := new real[NIter + 1];
    xs[0], ys[0] := 0.1, 0.3;
    for i := 0 to NIter
      invariant forall j :: 0 <= j <= i ==> Point(xs[j], ys[j]) == Iterate(Start, m, j)
    {
      var p := Step(Point(xs[i], ys[i]), m);
      xs[i + 1], ys[i + 1] := p.x, p.y;
    }
  }

  /**
   The coupled generator as written: every step feeds subsystem 2's previous
   state into both input slots of the coupled step. Subsystem 2 is then the
   plain orbit of model 2, whatever the coefficients.
   */
  method CoupledTrajectory(models: seq<HModel>, c: HCoeffs) returns (xs1: array<real>, ys1: array<real>, xs2: array<real>, ys2: array<real>)
    requires |models| >= 2
    ensures fresh(xs1) && fresh(ys1) && fresh(xs2) && fresh(ys2)
    ensures xs1 != ys1 && xs1 != xs2 && xs1 != ys2 && ys1 != xs2 && ys1 != ys2 && xs2 != ys2
    ensures xs1.Length == NIter + 1 && ys1.Length == NIter + 1 && xs2.Length == NIter + 1 && ys2.Length == NIter + 1
    ensures xs1[0] == 0.1 && ys1[0] == 0.3 && xs2[0] == 0.1 && ys2[0] == 0.3
    ensures forall i :: 0 <= i < NIter ==>
      Coupled(Point(xs1[i + 1], ys1[i + 1]), Point(xs2[i + 1], ys2[i + 1]))
        == CoupledStep(Coupled(Point(xs2[i], ys2[i]), Point(xs2[i], ys2[i])), models, c)
    ensures forall i :: 0 <= i <= NIter ==>
      Coupled(Point(xs1[i], ys1[i]), Point(xs2[i], ys2[i])) == LiteralOrbit(models, c, i)
    ensures forall i :: 0 <= i <= NIter ==> Point(xs2[i], ys2[i]) == Iterate(Start, models[1], i)
  {
    xs1 := new real[NIter + 1];
    ys1 := new real[NIter + 1];
    xs2 := new real[NIter + 1];
    ys2 := new real[NIter + 1];
    xs1[0], ys1[0], xs2[0], ys2[0] := 0.1, 0.3, 0.1, 0.3;
    for i := 0 to NIter
      invariant forall j :: 0 <= j <= i ==>
        Coupled(Point(xs1[j], ys1[j]), Point(xs2[j], ys2[j])) == LiteralOrbit(models, c, j)
    {
      var s := CoupledStep(Coupled(Point(xs2[i], ys2[i]), Point(xs2[i], ys2[i])), models, c);
      xs1[i + 1], ys1[i + 1], xs2[i + 1], ys2[i + 1] := s.s1.x, s.s1.y, s.s2.x, s.s2.y;
    }
    forall i | 0 <= i <= NIter
      ensures Point(xs2[i], ys2[i]) == Iterate(Start, models[1], i)
    {
      LiteralOrbitFollowsModel2(models, c, i);
    }
  }

  /**
   The supermodel solution of the coupled generator as written: the mean of
   the two subsystems at every index. It starts at (0.1, 0.3) and, step by
   step, is the mean of model 1's and model 2's steps from model 2's orbit.
   */
  method Supermodel(models: seq<HModel>, c: HCoeffs) returns (xs: seq<real>, ys: seq<real>)
    requires |models| >= 2
    ensures |xs| == NIter + 1 && |ys| == NIter + 1
    ensures xs[0] == 0.1 && ys[0] == 0.3
    ensures forall i :: 0 <= i <= NIter ==> Point(xs[i], ys[i]) == Midpoint(LiteralOrbit(models, c, i))
    ensures forall i :: 0 <= i < NIter ==>
      Point(xs[i + 1], ys[i + 1])
        == Midpoint(Coupled(Step(Iterate(Start, models[1], i), models[0]), Iterate(Start, models[1], i + 1)))
  {
    var xs1, ys1, xs2, ys2 := CoupledTrajectory(models, c);
    xs := Average(xs1[..], xs2[..]);
    ys := Average(ys1[..], ys2[..]);
    forall i | 0 <= i < NIter
      ensures Point(xs[i + 1], ys[i + 1])
        == Midpoint(Coupled(Step(Iterate(Start, models[1], i), models[0]), Iterate(Start, models[1], i + 1)))
    {
      LiteralOrbitFollowsModel2(models, c, i + 1);
    }
  }

  /**
   The coupled generator with each subsystem fed its own previous state. With
   zero coupling both subsystems follow their own models' orbits.
   */
  method SymmetricCoupledTrajectory(models: seq<HModel>, c: HCoeffs) returns (xs1: array<real>, ys1: array<real>, xs2: array<real>, ys2: array<real>)
    requires |models| >= 2
    ensures fresh(xs1) && fresh(ys1) && fresh(xs2) && fresh(ys2)
    ensures xs1 != ys1 && xs1 != xs2 && xs1 != ys2 && ys1 != xs2 && ys1 != ys2 && xs2 != ys2
    ensures xs1.Length == NIter + 1 && ys1.Length == NIter + 1 && xs2.Length == NIter + 1 && ys2.Length == NIter + 1
    ensures xs1[0] == 0.1 && ys1[0] == 0.3 && xs2[0] == 0.1 && ys2[0] == 0.3
    ensures forall i :: 0 <= i < NIter ==>
      Coupled(Point(xs1[i + 1], ys1[i + 1]), Point(xs2[i + 1], ys2[i + 1]))
        == CoupledStep(Coupled(Point(xs1[i], ys1[i]), Point(xs2[i], ys2[i])), models, c)
    ensures forall i :: 0 <= i <= NIter ==>
      Coupled(Point(xs1[i], ys1[i]), Point(xs2[i], ys2[i])) == CoupledOrbit(models, c, i)
    ensures c.IsZero() ==> forall i :: 0 <= i <= NIter ==>
      Point(xs1[i], ys1[i]) == Iterate(Start, models[0], i) && Point(xs2[i], ys2[i]) == Iterate(Start, models[1], i)
  {
    xs1 := new real[NIter + 1];
    ys1 := new real[NIter + 1];
    xs2 := new real[NIter + 1];
    ys2 := new real[NIter + 1];
    xs1[0], ys1[0], xs2[0], ys2[0] := 0.1, 0.3, 0.1, 0.3;
    for i := 0 to NIter
      invariant forall j :: 0 <= j <= i ==>
        Coupled(Point(xs1[j], ys1[j]), Point(xs2[j], ys2[j])) == CoupledOrbit(models, c, j)
    {
      var s := CoupledStep(Coupled(Point(xs1[i], ys1[i]), Point(xs2[i], ys2[i])), models, c);
      xs1[i + 1], ys1[i + 1], xs2[i + 1], ys2[i + 1] := s.s1.x, s.s1.y, s.s2.x, s.s2.y;
    }
    if c.IsZero() {
      forall i | 0 <= i <= NIter
        ensures Point(xs1[i], ys1[i]) == Iterate(Start, models[0], i) && Point(xs2[i], ys2[i]) == Iterate(Start, models[1], i)
      {
        CoupledOrbitUncoupled(models, c, i);
      }
    }
  }

  /**
   The supermodel solution over the own-state feed: the mean of the two
   subsystems of the corrected coupled generator at every index. It does not
   depend on which subsystem is called 1 when the coefficients are relabelled too.
   */
  method SymmetricSupermodel(models: seq<HModel>, c: HCoeffs) returns (xs: seq<real>, ys: seq<real>)
    requires |models| >= 2
    ensures |xs| == NIter + 1 && |ys| == NIter + 1
    ensures xs[0] == 0.1 && ys[0] == 0.3
    ensures forall i :: 0 <= i <= NIter ==> Point(xs[i], ys[i]) == Midpoint(CoupledOrbit(models, c, i))
    ensures forall i :: 0 <= i <= NIter ==>
      Point(xs[i], ys[i]) == Midpoint(CoupledOrbit([models[1], models[0]], c.Swapped(), i))
  {
    var xs1, ys1, xs2, ys2 := SymmetricCoupledTrajectory(models, c);
    xs := Average(xs1[..], xs2[..]);
    ys := Average(ys1[..], ys2[..]);
    forall i | 0 <= i <= NIter
      ensures Point(xs[i], ys[i]) == Midpoint(CoupledOrbit([models[1], models[0]], c.Swapped(), i))
    {
      SymmetricSupermodelSwap(models, c, i);
    }
  }
}
