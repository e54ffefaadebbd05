/**
  * The German grading scale used by the calculator: a descending table of
  * point thresholds, the lookup from points to a grade, the floor-based
  * truncation applied to final grades, and the round-half-up used for
  * displayed integers. Also the value types shared by both study areas.
  */
module GradeScale {
  import opened Common

  /** The two examination regulations; every weighting constant depends on it. */
  datatype PO = PO2023 | PO2025

  /**
    * One score entry as typed into the form: left blank, the recognition
    * marker "A" (credit granted without a numeric grade), or a number of points.
    */
  datatype Score = Empty | Recognized | Numeric(points: real)

  /** The input form only lets through blank, "A", or a number in [0, 100]. */
  predicate ValidScore(s: Score) {
    s.Numeric? ==> 0.0 <= s.points <= 100.0
  }

  /** One row of the grading table: a score of at least `min` points earns `grade`. */
  datatype Band = Band(min: real, grade: real)

  /** The grading table, scanned from the highest minimum downward. */
  const Scale: seq<Band> := [
    Band(95.0, 1.0), Band(90.0, 1.3), Band(85.0, 1.7),
    Band(80.0, 2.0), Band(75.0, 2.3), Band(70.0, 2.7),
    Band(65.0, 3.0), Band(60.0, 3.3), Band(55.0, 3.7),
    Band(50.0, 4.0), Band(0.0, 5.0)
  ]

  /** Every grade the table can hand out. */
  const Grades: set<real> := {1.0, 1.3, 1.7, 2.0, 2.3, 2.7, 3.0, 3.3, 3.7, 4.0, 5.0}

  /** The grade of the first band whose minimum is at or below `points` (Array.find). */
  function FindBand(bands: seq<Band>, points: real): Option<real> {
    if bands == [] then None
    else if bands[0].min <= points then Some(bands[0].grade)
    else FindBand(bands[1..], points)
  }

  /** The lookup finds nothing exactly when every minimum is too high, and otherwise the first fitting band. */
  lemma {:induction false} FindBandFirst(bands: seq<Band>, points: real)
    ensures FindBand(bands, points).None? <==> forall i :: 0 <= i < |bands| ==> points < bands[i].min
    ensures FindBand(bands, points).Some? ==>
              exists i :: 0 <= i < |bands| && bands[i].min <= points && FindBand(bands, points).value == bands[i].grade
                          && forall j :: 0 <= j < i ==> points < bands[j].min
  {
    if bands != [] && points < bands[0].min {
      var r := FindBand(bands[1..], points);
      FindBandFirst(bands[1..], points);
      assert forall i :: 1 <= i < |bands| ==> bands[i] == bands[1..][i - 1];
      if r.Some? {
        var k :| 0 <= k < |bands[1..]| && bands[1..][k].min <= points && r.value == bands[1..][k].grade
                 && forall j :: 0 <= j < k ==> points < bands[1..][j].min;
        assert forall j :: 0 <= j < k + 1 ==> points < bands[j].min by {
          forall j | 0 <= j < k + 1 ensures points < bands[j].min {
            if j > 0 { assert bands[j] == bands[1..][j - 1]; }
          }
        }
      }
    }
  }

  /** Maps a point score to a grade; a score matching no band (below 0) fails with 5.0. */
  function GetGrade(points: real): (g: real)
    ensures 1.0 <= g <= 5.0
  {
    FindBandFirst(Scale, points);
    ScaleGradesRange();
    match FindBand(Scale, points)
    case Some(grade) => grade
    case None => 5.0
  }

  /** Every grade in the table lies between 1.0 and 5.0. */
  lemma {:induction false} ScaleGradesRange()
    ensures forall i :: 0 <= i < |Scale| ==> 1.0 <= Scale[i].grade <= 5.0
  {
  }

  /** An independent statement of the table as interval cases, lower bounds inclusive. */
  function GradeOf(points: real): (g: real) {
    if points >= 95.0 then 1.0
    else if points >= 90.0 then 1.3
    else if points >= 85.0 then 1.7
    else if points >= 80.0 then 2.0
    else if points >= 75.0 then 2.3
    else if points >= 70.0 then 2.7
    else if points >= 65.0 then 3.0
    else if points >= 60.0 then 3.3
    else if points >= 55.0 then 3.7
    else if points >= 50.0 then 4.0
    else 5.0
  }

  /** The table lookup agrees with the interval cases on every input, negative ones included. */
  lemma {:induction false} GetGradeIsGradeOf(points: real)
    ensures GetGrade(points) == GradeOf(points)
  {
    var r := FindBand(Scale, points);
    FindBandFirst(Scale, points);
    if r.Some? {
      var i :| 0 <= i < |Scale| && Scale[i].min <= points && r.value == Scale[i].grade
               && forall j :: 0 <= j < i ==> points < Scale[j].min;
      if i > 0 { assert points < Scale[i - 1].min; }
    }
  }

  /** More points never give a worse (numerically larger) grade. */
  lemma {:induction false} GetGradeMonotone(p: real, q: real)
    requires p <= q
    ensures GetGrade(q) <= GetGrade(p)
  {
    GetGradeIsGradeOf(p);
    GetGradeIsGradeOf(q);
  }

  /** Grades lie between 1.0 and 5.0, and a pass (at most 4.0) needs at least 50 points. */
  lemma {:induction false} GetGradeRange(points: real)
    ensures GetGrade(points) in Grades
    ensures 1.0 <= GetGrade(points) <= 5.0
    ensures GetGrade(points) <= 4.0 <==> points >= 50.0
  {
    GetGradeIsGradeOf(points);
  }

  /** The boundary values pinned by the source's test suite. */
  lemma {:induction false} GetGradeExamples()
    ensures GetGrade(100.0) == 1.0 && GetGrade(95.5) == 1.0 && GetGrade(95.0) == 1.0
    ensures GetGrade(94.999) == 1.3 && GetGrade(94.5) == 1.3 && GetGrade(94.0) == 1.3 && GetGrade(90.0) == 1.3
    ensures GetGrade(89.0) == 1.7 && GetGrade(85.0) == 1.7 && GetGrade(80.0) == 2.0
    ensures GetGrade(75.0) == 2.3 && GetGrade(70.0) == 2.7 && GetGrade(65.0) == 3.0
    ensures GetGrade(60.0) == 3.3 && GetGrade(55.0) == 3.7 && GetGrade(50.0) == 4.0
    ensures GetGrade(49.0) == 5.0 && GetGrade(25.0) == 5.0 && GetGrade(24.0) == 5.0 && GetGrade(0.0) == 5.0
  {
    GetGradeIsGradeOf(100.0); GetGradeIsGradeOf(95.5); GetGradeIsGradeOf(95.0);
    GetGradeIsGradeOf(94.999); GetGradeIsGradeOf(94.5); GetGradeIsGradeOf(94.0); GetGradeIsGradeOf(90.0);
    GetGradeIsGradeOf(89.0); GetGradeIsGradeOf(85.0); GetGradeIsGradeOf(80.0);
    GetGradeIsGradeOf(75.0); GetGradeIsGradeOf(70.0); GetGradeIsGradeOf(65.0);
    GetGradeIsGradeOf(60.0); GetGradeIsGradeOf(55.0); GetGradeIsGradeOf(50.0);
    GetGradeIsGradeOf(49.0); GetGradeIsGradeOf(25.0); GetGradeIsGradeOf(24.0); GetGradeIsGradeOf(0.0);
  }

  /** 10 to the power `digits`. */
  function Pow10(digits: nat): (f: real)
    ensures f >= 1.0
  {
    if digits == 0 then 1.0 else 10.0 * Pow10(digits - 1)
  }

  /** How many whole units of 10^-digits fit below `x` (Math.floor(x * 10^digits)). */
  function Units(x: real, digits: nat): int {
    (x * Pow10(digits)).Floor
  }

  /**
    * Cuts `x` down to `digits` decimals with a floor: the largest multiple of
    * 10^-digits that does not exceed `x`. It never rounds up.
    */
  function Truncate(x: real, digits: nat): (r: real)
    ensures r * Pow10(digits) == Units(x, digits) as real
    ensures r <= x < r + 1.0 / Pow10(digits)
  {
    QuotientBounds(x, Pow10(digits), Units(x, digits));
    assert Units(x, digits) as real / Pow10(digits) * Pow10(digits) == Units(x, digits) as real;
    Units(x, digits) as real / Pow10(digits)
  }

  /** Dividing the floor of `x * f` back by `f` brackets `x` within 1/f. */
  lemma {:induction false} QuotientBounds(x: real, f: real, k: int)
    requires f > 0.0
    requires k as real <= x * f < k as real + 1.0
    ensures k as real / f <= x < k as real / f + 1.0 / f
  {
    assert (k as real / f) * f == k as real;
    assert (k as real / f + 1.0 / f) * f == k as real + 1.0;
  }

  /** Truncation to one decimal, in tenths. */
  lemma {:induction false} TruncateOneDecimal(x: real)
    ensures Truncate(x, 1) <= x < Truncate(x, 1) + 0.1
    ensures Truncate(x, 1) * 10.0 == Units(x, 1) as real
  {
    assert Pow10(1) == 10.0;
  }

  /** A value that already has at most one decimal is left as it is. */
  lemma {:induction false} TruncateOneDecimalExact(x: real, tenths: int)
    requires x * 10.0 == tenths as real
    ensures Truncate(x, 1) == x
  {
    assert Pow10(1) == 10.0;
    assert Units(x, 1) == tenths;
  }

  /** Truncating a non-negative value gives a non-negative value. */
  lemma {:induction false} TruncateNonNegative(x: real, digits: nat)
    requires x >= 0.0
    ensures Truncate(x, digits) >= 0.0
  {
    assert x * Pow10(digits) >= 0.0;
    assert Units(x, digits) >= 0;
  }

  /** Truncation keeps the order of its inputs. */
  lemma {:induction false} TruncateMonotone(x: real, y: real, digits: nat)
    requires x <= y
    ensures Truncate(x, digits) <= Truncate(y, digits)
  {
    MulMonotone(x, y, Pow10(digits));
    FloorMonotone(x * Pow10(digits), y * Pow10(digits));
    assert Units(x, digits) <= Units(y, digits);
    DivMonotone(Units(x, digits) as real, Units(y, digits) as real, Pow10(digits));
  }

  lemma {:induction false} FloorMonotone(u: real, v: real)
    requires u <= v
    ensures u.Floor <= v.Floor
  {}

  lemma {:induction false} MulMonotone(x: real, y: real, f: real)
    requires x <= y && f >= 0.0
    ensures x * f <= y * f
  {}

  lemma {:induction false} DivMonotone(a: real, b: real, f: real)
    requires a <= b && f > 0.0
    ensures a / f <= b / f
  {
    assert (b / f - a / f) * f == b - a;
  }

  /** The one-decimal truncations pinned by the source's test suite. */
  lemma {:induction false} TruncateExamples()
    ensures Truncate(2.456, 1) == 2.4 && Truncate(1.999, 1) == 1.9
    ensures Truncate(2.99999, 1) == 2.9 && Truncate(1.55555, 1) == 1.5
  {
    assert Pow10(1) == 10.0;
    assert Units(2.456, 1) == 24 && Units(1.999, 1) == 19;
    assert Units(2.99999, 1) == 29 && Units(1.55555, 1) == 15;
  }

  /** The two-decimal truncations pinned by the source's test suite. */
  lemma {:induction false} TruncateExamplesTwoDecimals()
    ensures Truncate(2.456, 2) == 2.45 && Truncate(1.999, 2) == 1.99
  {
    assert Pow10(2) == 100.0;
    assert Units(2.456, 2) == 245 && Units(1.999, 2) == 199;
  }

  /** JavaScript's Math.round (and toFixed(0) on non-negative values): halves go up. */
  function RoundHalfUp(x: real): (r: int)
    ensures x - 0.5 < r as real <= x + 0.5
  {
    (x + 0.5).Floor
  }
}
