/**
 Parameter records of the two supermodel demos: the Henon map and Lorenz-63
 parameters, the Henon coupling coefficients and the two sample sets of Lorenz
 coupling coefficients. Every record is an immutable value; the Python keyword
 defaults become constructor parameter defaults.
 */
module Params {

  /** Parameters (a, b) of one Henon map; `HModel()` is the classical map. */
  datatype HModel = HModel(a: real := 1.4, b: real := 0.3)

  /** Coupling coefficients between two Henon subsystems; all default to zero. */
  datatype HCoeffs = HCoeffs(cx12: real := 0.0, cy12: real := 0.0, cx21: real := 0.0, cy21: real := 0.0)
  {
    /** No subsystem is nudged towards the other. */
    predicate IsZero() {
      cx12 == 0.0 && cy12 == 0.0 && cx21 == 0.0 && cy21 == 0.0
    }

    /** The same coupling seen with the two subsystems' labels exchanged. */
    function Swapped(): HCoeffs
    {
      HCoeffs(cx12 := cx21, cy12 := cy21, cx21 := cx12, cy21 := cy12)
    }
  }

  /** Parameters (a, b, c) of one Lorenz-63 system; `LModel()` is the classical system. */
  datatype LModel = LModel(a: real := 10.0, b: real := 28.0, c: real := 2.667)

  /**
   Coupling coefficients between three Lorenz subsystems: `cvij` scales how
   strongly component v of subsystem i is nudged towards subsystem j.
   */
  datatype LCoeffs = LCoeffs(
    cx12: real, cx13: real, cx21: real, cx23: real, cx31: real, cx32: real,
    cy12: real, cy13: real, cy21: real, cy23: real, cy31: real, cy32: real,
    cz12: real, cz13: real, cz21: real, cz23: real, cz31: real, cz32: real)
  {
    /** All eighteen coefficients are zero. */
    predicate IsZero() {
      cx12 == 0.0 && cx13 == 0.0 && cx21 == 0.0 && cx23 == 0.0 && cx31 == 0.0 && cx32 == 0.0 &&
      cy12 == 0.0 && cy13 == 0.0 && cy21 == 0.0 && cy23 == 0.0 && cy31 == 0.0 && cy32 == 0.0 &&
      cz12 == 0.0 && cz13 == 0.0 && cz21 == 0.0 && cz23 == 0.0 && cz31 == 0.0 && cz32 == 0.0
    }
  }

  /** The first sample set of Lorenz coupling coefficients. */
  const LCoeffs1: LCoeffs := LCoeffs(
    cx12 := -0.01, cx13 := 4.81, cx21 := 5.69, cx23 := 13.75, cx31 := 17.64, cx32 := -0.014,
    cy12 := 7.67, cy13 := 18.14, cy21 := 3.64, cy23 := 10.06, cy31 := 2.71, cy32 := 9.79,
    cz12 := 5.47, cz13 := 4.03, cz21 := 10.72, cz23 := 13.54, cz31 := 8.70, cz32 := 1.50)

  /** The second sample set of Lorenz coupling coefficients. */
  const LCoeffs2: LCoeffs := LCoeffs(
    cx12 := 1.52, cx13 := 0.03, cx21 := 13.28, cx23 := 14.99, cx31 := 210.51, cx32 := 1.09,
    cy12 := 3.53, cy13 := 27.36, cy21 := 0.00, cy23 := 6.50, cy31 := 3.89, cy32 := -6.93,
    cz12 := 3000.95, cz13 := 12.24, cz21 := 3.50, cz23 := 2.20, cz31 := 2.89, cz32 := 3.85)

  /** Omitted arguments take the documented defaults; supplied ones are kept as given. */
  lemma HModelDefaults(a: real, b: real)
    ensures HModel().a == 1.4 && HModel().b == 0.3
    ensures HModel(a := a).a == a && HModel(a := a).b == 0.3
    ensures HModel(b := b).a == 1.4 && HModel(b := b).b == b
    ensures HModel(a, b).a == a && HModel(a, b).b == b
  {
  }

  /** Default Henon coupling is no coupling; supplied coefficients are kept as given. */
  lemma HCoeffsDefaults(cx12: real, cy12: real, cx21: real, cy21: real)
    ensures HCoeffs().IsZero()
    ensures HCoeffs(cx12 := cx12) == HCoeffs(cx12, 0.0, 0.0, 0.0)
    ensures HCoeffs(cy12 := cy12) == HCoeffs(0.0, cy12, 0.0, 0.0)
    ensures HCoeffs(cx21 := cx21) == HCoeffs(0.0, 0.0, cx21, 0.0)
    ensures HCoeffs(cy21 := cy21) == HCoeffs(0.0, 0.0, 0.0, cy21)
    ensures var c := HCoeffs(cx12, cy12, cx21, cy21);
      c.cx12 == cx12 && c.cy12 == cy12 && c.cx21 == cx21 && c.cy21 == cy21
  {
  }

  /** Omitted arguments take the documented defaults; supplied ones are kept as given. */
  lemma LModelDefaults(a: real, b: real, c: real)
    ensures LModel().a == 10.0 && LModel().b == 28.0 && LModel().c == 2.667
    ensures LModel(a := a) == LModel(a, 28.0, 2.667)
    ensures LModel(b := b) == LModel(10.0, b, 2.667)
    ensures LModel(c := c) == LModel(10.0, 28.0, c)
    ensures LModel(a, b, c).a == a && LModel(a, b, c).b == b && LModel(a, b, c).c == c
  {
  }

  /** A few of the literal sample coefficients, and that neither sample set is the zero coupling. */
  lemma SampleCoefficients()
    ensures LCoeffs1.cx12 == -0.01 && LCoeffs1.cx32 == -0.014 && LCoeffs1.cz31 == 8.70
    ensures LCoeffs2.cy21 == 0.00 && LCoeffs2.cz12 == 3000.95 && LCoeffs2.cx31 == 210.51
    ensures !LCoeffs1.IsZero() && !LCoeffs2.IsZero() && LCoeffs1 != LCoeffs2
  {
  }
}
