/**
  * The elective and completion area ("Wahlpflicht und Abschluss"): six
  * elective slots, the seminar and the thesis. One scenario computation is
  * run three times: on the entries as they are, and with 1.0 (best case)
  * or 4.0 (worst case) filled in for every elective slot that holds no
  * module (a slot holding ÜK included) and for a blank seminar or thesis. A
  * slot with a chosen module but no numeric score gets no filler. Each scenario mixes the elective average and the completion
  * average with weights fixed by the examination regulation.
  */
module WahlAbschluss {
  import opened Common
  import opened GradeScale

  /** What a slot holds: nothing chosen, the non-graded competency credit ("ÜK"), or a module. */
  datatype SlotModule = NoModule | UK | Module(id: string)

  /** One elective slot: its chosen module and its score entry. */
  datatype Slot = Slot(choice: SlotModule, points: Score)

  /** The number of elective slots the regulations provide. */
  const TotalWPSlots: int := 6

  /** A slot that yields a grade: a chosen module other than ÜK, with numeric points. */
  predicate Graded(slot: Slot) {
    slot.choice.Module? && slot.points.Numeric?
  }

  /** A slot counted as filled: a chosen module other than ÜK, whatever its score. */
  predicate Occupied(slot: Slot) {
    slot.choice.Module?
  }

  /** Some slot holds the ÜK credit. */
  predicate HasUK(slots: seq<Slot>) {
    exists i :: 0 <= i < |slots| && slots[i].choice == UK
  }

  /** The points of the graded slots, in slot order. */
  function EnteredPoints(slots: seq<Slot>): seq<real> {
    if slots == [] then []
    else
      var last := slots[|slots| - 1];
      EnteredPoints(slots[..|slots| - 1]) + if Graded(last) then [last.points.points] else []
  }

  /** The grades of the graded slots, in slot order. */
  function CollectedGrades(slots: seq<Slot>): seq<real> {
    if slots == [] then []
    else
      var last := slots[|slots| - 1];
      CollectedGrades(slots[..|slots| - 1]) + if Graded(last) then [GetGrade(last.points.points)] else []
  }

  /** The number of filled slots. */
  function OccupiedCount(slots: seq<Slot>): nat {
    if slots == [] then 0
    else OccupiedCount(slots[..|slots| - 1]) + if Occupied(slots[|slots| - 1]) then 1 else 0
  }

  /** The grades padded for a scenario: one filler grade per unfilled slot, if there is a filler. */
  function FillerGrades(filler: Option<real>, missing: int): seq<real> {
    if filler.Some? && missing > 0 then Repeat(filler.value, missing) else []
  }

  /** The elective grades of a scenario: the collected ones, then the fillers. */
  function ElectiveGrades(slots: seq<Slot>, filler: Option<real>): seq<real> {
    CollectedGrades(slots) + FillerGrades(filler, TotalWPSlots - OccupiedCount(slots))
  }

  function Sum(xs: seq<real>): real {
    if xs == [] then 0.0 else Sum(xs[..|xs| - 1]) + xs[|xs| - 1]
  }

  /** The arithmetic mean, 0 for no values. */
  function Mean(xs: seq<real>): real {
    if |xs| > 0 then Sum(xs) / |xs| as real else 0.0
  }

  /** `fillerGrade || null`: a missing or zero filler means "no grade". */
  function OrNull(filler: Option<real>): (r: Option<real>)
    ensures r.None? <==> filler.None? || filler.value == 0.0
    ensures r.Some? ==> r == filler
  {
    if filler.Some? && filler.value != 0.0 then filler else None
  }

  /**
    * The grade of the seminar or the thesis: the grade of its points, or the
    * filler when it is blank. The form never offers the recognition marker
    * here; were it present, its points read as not-a-number, which no band
    * matches, so it would grade 5.0.
    */
  function PartGrade(score: Score, filler: Option<real>): (r: Option<real>)
    ensures r.None? <==> score == Empty && (filler.None? || filler.value == 0.0)
    ensures score != Empty ==> 1.0 <= r.value <= 5.0
    ensures score == Empty && r.Some? ==> r == filler
  {
    match score
    case Empty => OrNull(filler)
    case Numeric(p) => Some(GetGrade(p))
    case Recognized => Some(5.0)
  }

  /** How often the thesis counts in the completion average. */
  function ThesisFactor(po: PO): nat {
    if po == PO2025 then 2 else 1
  }

  /** How many grades the completion average divides by: the thesis counts `ThesisFactor` times. */
  function CompletionWeight(sem: Option<real>, thesis: Option<real>, po: PO): nat {
    (if sem.Some? then 1 else 0) + (if thesis.Some? then ThesisFactor(po) else 0)
  }

  /** The weighted sum of the present completion grades. */
  function CompletionTotal(sem: Option<real>, thesis: Option<real>, po: PO): real {
    (if sem.Some? then sem.value else 0.0)
    + (if thesis.Some? then (if po == PO2025 then thesis.value * 2.0 else thesis.value) else 0.0)
  }

  /** The weighted mean of the present completion grades, 0 when neither is present. */
  function CompletionAverage(sem: Option<real>, thesis: Option<real>, po: PO): real {
    var weight := CompletionWeight(sem, thesis, po);
    if weight > 0 then CompletionTotal(sem, thesis, po) / weight as real else 0.0
  }

  /**
    * The (elective, completion) weights. PO 2023: six electives against
    * seminar and thesis, 6/8 to 2/8. PO 2025 with ÜK: five graded electives
    * against seminar and a double thesis, 5/8 to 3/8; without ÜK, 6 to 3.
    */
  function Weights(po: PO, hasUK: bool): (w: (real, real))
    ensures 0.0 < w.1 < w.0
  {
    if po == PO2025 then (if hasUK then (5.0 / 8.0, 3.0 / 8.0) else (2.0 / 3.0, 1.0 / 3.0))
    else (0.75, 0.25)
  }

  /** The two weights always share the whole grade. */
  lemma {:induction false} WeightsSumToOne(po: PO, hasUK: bool)
    ensures Weights(po, hasUK).0 + Weights(po, hasUK).1 == 1.0
  {
  }

  /** The result of one scenario. */
  datatype Scenario = Scenario(
    wpAvg: real, wpWeight: real, abschlussAvg: real, abschlussWeight: real,
    combinedAvg: real, hasData: bool)

  /** One scenario, as a function of the entries and the filler grade. */
  function ScenarioOf(slots: seq<Slot>, seminar: Score, thesis: Score, po: PO, filler: Option<real>): Scenario {
    ScenarioFrom(ElectiveGrades(slots, filler), HasUK(slots), seminar, thesis, po, filler)
  }

  /** A scenario once its elective grades are collected and padded. */
  function ScenarioFrom(grades: seq<real>, hasUK: bool, seminar: Score, thesis: Score, po: PO, filler: Option<real>): Scenario {
    var sem, th := PartGrade(seminar, filler), PartGrade(thesis, filler);
    var wpAvg, abschlussAvg := Mean(grades), CompletionAverage(sem, th, po);
    var w := Weights(po, hasUK);
    Scenario(wpAvg, w.0, abschlussAvg, w.1, wpAvg * w.0 + abschlussAvg * w.1,
             |grades| > 0 || sem.Some? || th.Some?)
  }

  /** Walks the slots in order and grades every chosen module other than ÜK that has numeric points. */
  method CollectWPGrades(slots: seq<Slot>) returns (wpGrades: seq<real>)
    ensures wpGrades == CollectedGrades(slots)
  {
    wpGrades := [];
    var i := 0;
    while i < |slots|
      invariant 0 <= i <= |slots|
      invariant wpGrades == CollectedGrades(slots[..i])
    {
      CollectedGradesStep(slots, i);
      var slot := slots[i];
      if slot.choice.Module? && slot.points.Numeric? {
        wpGrades := wpGrades + [GetGrade(slot.points.points)];
      }
      i := i + 1;
    }
    assert slots[..i] == slots;
  }

  /** Pushes the filler grade once per missing slot, when there is a filler. */
  method AppendFiller(grades: seq<real>, filler: Option<real>, missing: int) returns (padded: seq<real>)
    ensures padded == grades + FillerGrades(filler, missing)
  {
    padded := grades;
    if filler.Some? && missing > 0 {
      var k := 0;
      while k < missing
        invariant 0 <= k <= missing
        invariant padded == grades + Repeat(filler.value, k)
      {
        padded := padded + [filler.value];
        k := k + 1;
      }
    }
  }

  /** Sums the present completion grades, the thesis twice under PO 2025, and divides by their count. */
  method AverageCompletion(sem: Option<real>, thesis: Option<real>, po: PO) returns (abschlussAvg: real)
    ensures abschlussAvg == CompletionAverage(sem, thesis, po)
  {
    var abschlussSum, abschlussCount := 0.0, 0;
    if sem.Some? {
      abschlussSum := abschlussSum + sem.value;
      abschlussCount := abschlussCount + 1;
    }
    if thesis.Some? {
      if po == PO2025 {
        abschlussSum := abschlussSum + thesis.value * 2.0;
        abschlussCount := abschlussCount + 2;
      } else {
        abschlussSum := abschlussSum + thesis.value;
        abschlussCount := abschlussCount + 1;
      }
    }
    assert abschlussCount == CompletionWeight(sem, thesis, po)
        && abschlussSum == CompletionTotal(sem, thesis, po);
    abschlussAvg := if abschlussCount > 0 then abschlussSum / abschlussCount as real else 0.0;
  }

  /** Picks the weights: 3/4 and 1/4 by default, 5/8 and 3/8 or 2/3 and 1/3 under PO 2025. */
  method ScenarioWeights(po: PO, hasUK: bool) returns (wpWeight: real, abschlussWeight: real)
    ensures (wpWeight, abschlussWeight) == Weights(po, hasUK)
  {
    wpWeight, abschlussWeight := 0.75, 0.25;
    if po == PO2025 {
      if hasUK {
        wpWeight, abschlussWeight := 5.0 / 8.0, 3.0 / 8.0;
      } else {
        wpWeight, abschlussWeight := 2.0 / 3.0, 1.0 / 3.0;
      }
    }
  }

  /** Collects the elective grades, pads them with the filler, and mixes the two averages. */
  method CalculateScenario(slots: seq<Slot>, seminar: Score, thesis: Score, po: PO, filler: Option<real>)
    returns (sc: Scenario)
    ensures sc == ScenarioOf(slots, seminar, thesis, po, filler)
  {
    var wpGrades := CollectWPGrades(slots);

    var semGrade := PartGrade(seminar, filler);
    var thesisGrade := PartGrade(thesis, filler);
    var hasUK := HasUK(slots);

    var missingWPSlots := TotalWPSlots - OccupiedCount(slots);
    wpGrades := AppendFiller(wpGrades, filler, missingWPSlots);
    assert wpGrades == ElectiveGrades(slots, filler);
    var wpAvg := Mean(wpGrades);

    var abschlussAvg := AverageCompletion(semGrade, thesisGrade, po);

    var wpWeight, abschlussWeight := ScenarioWeights(po, hasUK);
    assert wpAvg == Mean(ElectiveGrades(slots, filler));

    ScenarioOfParts(slots, seminar, thesis, po, filler);
    sc := Scenario(wpAvg, wpWeight, abschlussAvg, abschlussWeight,
                   wpAvg * wpWeight + abschlussAvg * abschlussWeight,
                   |wpGrades| > 0 || semGrade.Some? || thesisGrade.Some?);
  }

  /** A scenario spelled out as its record. */
  lemma {:induction false} ScenarioOfParts(slots: seq<Slot>, seminar: Score, thesis: Score, po: PO, filler: Option<real>)
    ensures ScenarioOf(slots, seminar, thesis, po, filler)
            == Scenario(Mean(ElectiveGrades(slots, filler)), Weights(po, HasUK(slots)).0,
                        CompletionAverage(PartGrade(seminar, filler), PartGrade(thesis, filler), po),
                        Weights(po, HasUK(slots)).1,
                        Mean(ElectiveGrades(slots, filler)) * Weights(po, HasUK(slots)).0
                        + CompletionAverage(PartGrade(seminar, filler), PartGrade(thesis, filler), po)
                          * Weights(po, HasUK(slots)).1,
                        |ElectiveGrades(slots, filler)| > 0 || PartGrade(seminar, filler).Some?
                        || PartGrade(thesis, filler).Some?)
  {}

  /** The result record of the elective and completion area. */
  datatype WahlAbschlussStats = WahlAbschlussStats(
    wpAvg: Option<real>,             // current elective average, None when not positive ("-,-")
    wpWeightPercent: int,            // elective weight in whole percent, halves rounded up
    abschlussAvg: Option<real>,      // current completion average, None when not positive
    abschlussWeightPercent: int,
    combinedAvg: real,
    hasData: bool,                   // from the scenario without filler only
    currentGrade: real,
    bestGrade: real,
    worstGrade: real,
    placeholderPoints: Option<int>)  // mean of all entered numeric points, rounded half up

  /** Numeric points of a seminar or thesis entry, as a sequence of zero or one value. */
  function NumericPart(score: Score): seq<real> {
    if score.Numeric? then [score.points] else []
  }

  /** The mean of every numeric point value entered in this area, rounded half up. */
  function PlaceholderOf(slots: seq<Slot>, seminar: Score, thesis: Score): Option<int> {
    var pts := EnteredPoints(slots) + NumericPart(seminar) + NumericPart(thesis);
    if |pts| > 0 then Some(RoundHalfUp(Sum(pts) / |pts| as real)) else None
  }

  /** Shows a positive average, hides a non-positive one. */
  function Shown(avg: real): Option<real> {
    if avg > 0.0 then Some(avg) else None
  }

  /** The whole area's statistics, as a function. */
  function WahlAbschlussStatsOf(slots: seq<Slot>, seminar: Score, thesis: Score, po: PO): WahlAbschlussStats {
    var current := ScenarioOf(slots, seminar, thesis, po, None);
    var best := ScenarioOf(slots, seminar, thesis, po, Some(1.0));
    var worst := ScenarioOf(slots, seminar, thesis, po, Some(4.0));
    WahlAbschlussStats(
      Shown(current.wpAvg), RoundHalfUp(current.wpWeight * 100.0),
      Shown(current.abschlussAvg), RoundHalfUp(current.abschlussWeight * 100.0),
      current.combinedAvg, current.hasData,
      current.combinedAvg, best.combinedAvg, worst.combinedAvg,
      PlaceholderOf(slots, seminar, thesis))
  }

  /** Averages every numeric point value entered for electives, seminar and thesis, rounded half up. */
  method AveragePointsForPlaceholder(slots: seq<Slot>, seminar: Score, thesis: Score) returns (placeholder: Option<int>)
    ensures placeholder == PlaceholderOf(slots, seminar, thesis)
  {
    var totalPoints, pointsCount := 0.0, 0;
    var i := 0;
    while i < |slots|
      invariant 0 <= i <= |slots|
      invariant totalPoints == Sum(EnteredPoints(slots[..i]))
      invariant pointsCount == |EnteredPoints(slots[..i])|
    {
      EnteredPointsStep(slots, i);
      var slot := slots[i];
      if slot.choice.Module? && slot.points.Numeric? {
        totalPoints := totalPoints + slot.points.points;
        pointsCount := pointsCount + 1;
      }
      i := i + 1;
    }
    assert slots[..i] == slots;
    ghost var entered := EnteredPoints(slots);
    SumAppend(entered, NumericPart(seminar));
    if seminar.Numeric? {
      totalPoints := totalPoints + seminar.points;
      pointsCount := pointsCount + 1;
    }
    assert totalPoints == Sum(entered + NumericPart(seminar));
    assert pointsCount == |entered + NumericPart(seminar)|;
    SumAppend(entered + NumericPart(seminar), NumericPart(thesis));
    if thesis.Numeric? {
      totalPoints := totalPoints + thesis.points;
      pointsCount := pointsCount + 1;
    }
    assert totalPoints == Sum(entered + NumericPart(seminar) + NumericPart(thesis));
    assert pointsCount == |entered + NumericPart(seminar) + NumericPart(thesis)|;
    placeholder := if pointsCount > 0 then Some(RoundHalfUp(totalPoints / pointsCount as real)) else None;

  }

  /** Runs the three scenarios, then averages the entered points for the input placeholder. */
  method CalculateWahlAbschlussStats(slots: seq<Slot>, seminar: Score, thesis: Score, po: PO)
    returns (stats: WahlAbschlussStats)
    ensures stats == WahlAbschlussStatsOf(slots, seminar, thesis, po)
  {
    var current := CalculateScenario(slots, seminar, thesis, po, None);
    var best := CalculateScenario(slots, seminar, thesis, po, Some(1.0));
    var worst := CalculateScenario(slots, seminar, thesis, po, Some(4.0));

    var placeholder := AveragePointsForPlaceholder(slots, seminar, thesis);

    stats := WahlAbschlussStats(
      if current.wpAvg > 0.0 then Some(current.wpAvg) else None,
      RoundHalfUp(current.wpWeight * 100.0),
      if current.abschlussAvg > 0.0 then Some(current.abschlussAvg) else None,
      RoundHalfUp(current.abschlussWeight * 100.0),
      current.combinedAvg, current.hasData,
      current.combinedAvg, best.combinedAvg, worst.combinedAvg,
      placeholder);
  }

  /** One more slot extends the collected grades by its own, if it is graded. */
  lemma {:induction false} CollectedGradesStep(slots: seq<Slot>, i: nat)
    requires i < |slots|
    ensures CollectedGrades(slots[..i + 1])
            == CollectedGrades(slots[..i]) + if Graded(slots[i]) then [GetGrade(slots[i].points.points)] else []
  {
    assert slots[..i + 1][..i] == slots[..i];
  }

  /** One more slot extends the entered points by its own, if it is graded. */
  lemma {:induction false} EnteredPointsStep(slots: seq<Slot>, i: nat)
    requires i < |slots|
    ensures Sum(EnteredPoints(slots[..i + 1]))
            == Sum(EnteredPoints(slots[..i])) + if Graded(slots[i]) then slots[i].points.points else 0.0
    ensures |EnteredPoints(slots[..i + 1])|
            == |EnteredPoints(slots[..i])| + if Graded(slots[i]) then 1 else 0
  {
    assert slots[..i + 1][..i] == slots[..i];
    SumAppend(EnteredPoints(slots[..i]), if Graded(slots[i]) then [slots[i].points.points] else []);
  }

  // ---------------------------------------------------------------------------
  // Sums and means
  // ---------------------------------------------------------------------------

  lemma {:induction false} SumAppend(a: seq<real>, b: seq<real>)
    ensures Sum(a + b) == Sum(a) + Sum(b)
  {
    if b == [] {
      assert a + b == a;
    } else {
      assert (a + b)[..|a + b| - 1] == a + b[..|b| - 1];
      SumAppend(a, b[..|b| - 1]);
    }
  }

  lemma {:induction false} SumRepeat(x: real, n: nat)
    ensures Sum(Repeat(x, n)) == n as real * x
  {
    if n > 0 {
      assert Repeat(x, n)[..n - 1] == Repeat(x, n - 1);
      SumRepeat(x, n - 1);
    }
  }

  /** Values between `lo` and `hi` sum to between |xs|·lo and |xs|·hi. */
  lemma {:induction false} SumBounds(xs: seq<real>, lo: real, hi: real)
    requires forall i :: 0 <= i < |xs| ==> lo <= xs[i] <= hi
    ensures |xs| as real * lo <= Sum(xs) <= |xs| as real * hi
  {
    if xs != [] {
      SumBounds(xs[..|xs| - 1], lo, hi);
    }
  }

  /** The mean of values between `lo` and `hi` lies between them. */
  lemma {:induction false} MeanBounds(xs: seq<real>, lo: real, hi: real)
    requires |xs| > 0
    requires forall i :: 0 <= i < |xs| ==> lo <= xs[i] <= hi
    ensures lo <= Mean(xs) <= hi
  {
    SumBounds(xs, lo, hi);
    var n := |xs| as real;
    assert Mean(xs) * n == Sum(xs);
    if Mean(xs) < lo { MulMonotone(Mean(xs), lo, n); }
    if Mean(xs) > hi { MulMonotone(hi, Mean(xs), n); }
  }

  // ---------------------------------------------------------------------------
  // Which slots contribute
  // ---------------------------------------------------------------------------

  /** The collected grades are exactly the grades of the entered points, position by position. */
  lemma {:induction false} CollectedGradesOfEntered(slots: seq<Slot>)
    ensures |CollectedGrades(slots)| == |EnteredPoints(slots)|
    ensures forall i :: 0 <= i < |CollectedGrades(slots)| ==>
              CollectedGrades(slots)[i] == GetGrade(EnteredPoints(slots)[i])
  {
    if slots != [] {
      CollectedGradesOfEntered(slots[..|slots| - 1]);
    }
  }

  /** Every graded slot is filled, and there are no more filled slots than slots. */
  lemma {:induction false} GradedAreOccupied(slots: seq<Slot>)
    ensures |CollectedGrades(slots)| <= OccupiedCount(slots) <= |slots|
  {
    if slots != [] {
      GradedAreOccupied(slots[..|slots| - 1]);
    }
  }

  /** Some grade is collected exactly when some slot is graded. */
  lemma {:induction false} CollectedGradesNonEmptyIff(slots: seq<Slot>)
    ensures |CollectedGrades(slots)| > 0 <==> exists i :: 0 <= i < |slots| && Graded(slots[i])
  {
    if slots != [] {
      var init := slots[..|slots| - 1];
      CollectedGradesNonEmptyIff(init);
      if exists i :: 0 <= i < |init| && Graded(init[i]) {
        var i :| 0 <= i < |init| && Graded(init[i]);
        assert Graded(slots[i]);
      }
      if exists i :: 0 <= i < |slots| && Graded(slots[i]) {
        var i :| 0 <= i < |slots| && Graded(slots[i]);
        if i < |init| { assert Graded(init[i]); }
      }
    }
  }

  lemma {:induction false} CollectedGradesAppend(a: seq<Slot>, b: seq<Slot>)
    ensures CollectedGrades(a + b) == CollectedGrades(a) + CollectedGrades(b)
    ensures EnteredPoints(a + b) == EnteredPoints(a) + EnteredPoints(b)
    ensures OccupiedCount(a + b) == OccupiedCount(a) + OccupiedCount(b)
  {
    if b == [] {
      assert a + b == a;
    } else {
      assert (a + b)[..|a + b| - 1] == a + b[..|b| - 1];
      CollectedGradesAppend(a, b[..|b| - 1]);
    }
  }

  /** A slot that is not graded (no module, ÜK, blank or recognized) adds nothing to the collected grades. */
  lemma {:induction false} UngradedSlotIgnored(slots: seq<Slot>, i: nat)
    requires i < |slots| && !Graded(slots[i])
    ensures CollectedGrades(slots[..i] + slots[i + 1..]) == CollectedGrades(slots)
  {
    var before, rest := slots[..i], slots[i + 1..];
    assert slots == before + ([slots[i]] + rest);
    CollectedGradesAppend(before, [slots[i]] + rest);
    CollectedGradesAppend([slots[i]], rest);
    assert [slots[i]][..0] == [];
    assert CollectedGrades([slots[i]]) == [];
    CollectedGradesAppend(before, rest);
  }

  /**
    * Which slots count as missing depends on the chosen modules only: a slot
    * with a module but blank or recognized points is neither graded nor
    * padded with the filler.
    */
  lemma {:induction false} MissingIgnoresPoints(slots: seq<Slot>, i: nat, points: Score)
    requires i < |slots|
    ensures OccupiedCount(slots[i := slots[i].(points := points)]) == OccupiedCount(slots)
    ensures HasUK(slots[i := slots[i].(points := points)]) == HasUK(slots)
  {
    var changed := slots[i := slots[i].(points := points)];
    assert forall j :: 0 <= j < |slots| ==> changed[j].choice == slots[j].choice;
    OccupiedChoiceOnly(slots, changed);
  }

  lemma {:induction false} OccupiedChoiceOnly(a: seq<Slot>, b: seq<Slot>)
    requires |a| == |b|
    requires forall j :: 0 <= j < |a| ==> a[j].choice == b[j].choice
    ensures OccupiedCount(a) == OccupiedCount(b)
  {
    if a != [] {
      OccupiedChoiceOnly(a[..|a| - 1], b[..|b| - 1]);
    }
  }

  /**
    * With a filler, the scenario's elective list has six entries minus the
    * filled slots that yield no grade (recognized or blank points).
    */
  lemma {:induction false} ElectiveGradeCount(slots: seq<Slot>, f: real)
    requires OccupiedCount(slots) <= TotalWPSlots
    ensures |ElectiveGrades(slots, Some(f))| + (OccupiedCount(slots) - |CollectedGrades(slots)|) == TotalWPSlots
  {
    GradedAreOccupied(slots);
  }

  // ---------------------------------------------------------------------------
  // Scenario properties
  // ---------------------------------------------------------------------------

  /** Padding with `m` copies of `f` adds max(m, 0) values, each `f`. */
  lemma {:induction false} PaddedSum(c: seq<real>, f: real, m: int)
    ensures var k := if m > 0 then m else 0;
            |c + FillerGrades(Some(f), m)| == |c| + k && Sum(c + FillerGrades(Some(f), m)) == Sum(c) + k as real * f
  {
    if m > 0 {
      assert FillerGrades(Some(f), m) == Repeat(f, m);
      SumAppend(c, Repeat(f, m));
      SumRepeat(f, m);
    } else {
      assert FillerGrades(Some(f), m) == [];
      assert c + [] == c;
    }
  }

  /** Of two lists of the same length, the one with the larger sum has the larger mean. */
  lemma {:induction false} MeanMonotone(xs: seq<real>, ys: seq<real>)
    requires |xs| == |ys| && Sum(xs) <= Sum(ys)
    ensures Mean(xs) <= Mean(ys)
  {
    if |xs| > 0 {
      DivMonotone(Sum(xs), Sum(ys), |xs| as real);
    }
  }

  /** A larger filler never lowers the elective average. */
  lemma {:induction false} ElectiveMeanMonotone(slots: seq<Slot>, f: real, g: real)
    requires f <= g
    ensures Mean(ElectiveGrades(slots, Some(f))) <= Mean(ElectiveGrades(slots, Some(g)))
  {
    var c := CollectedGrades(slots);
    var m := TotalWPSlots - OccupiedCount(slots);
    PaddedSum(c, f, m);
    PaddedSum(c, g, m);
    MulMonotone(f, g, (if m > 0 then m else 0) as real);
    MeanMonotone(ElectiveGrades(slots, Some(f)), ElectiveGrades(slots, Some(g)));
  }

  /** Higher completion grades give a higher completion average. */
  lemma {:induction false} CompletionMonotone(s1: Option<real>, s2: Option<real>, t1: Option<real>, t2: Option<real>, po: PO)
    requires s1.Some? == s2.Some? && (s1.Some? ==> s1.value <= s2.value)
    requires t1.Some? == t2.Some? && (t1.Some? ==> t1.value <= t2.value)
    ensures CompletionAverage(s1, t1, po) <= CompletionAverage(s2, t2, po)
  {
    assert CompletionWeight(s1, t1, po) == CompletionWeight(s2, t2, po);
    assert CompletionTotal(s1, t1, po) <= CompletionTotal(s2, t2, po);
    if CompletionWeight(s1, t1, po) > 0 {
      DivMonotone(CompletionTotal(s1, t1, po), CompletionTotal(s2, t2, po), CompletionWeight(s1, t1, po) as real);
    }
  }

  /** The combined average grows with the filler grade: the best case is never worse than the worst case. */
  lemma {:induction false} ScenarioMonotone(slots: seq<Slot>, seminar: Score, thesis: Score, po: PO, f: real, g: real)
    requires 0.0 < f <= g
    ensures ScenarioOf(slots, seminar, thesis, po, Some(f)).combinedAvg
            <= ScenarioOf(slots, seminar, thesis, po, Some(g)).combinedAvg
  {
    var lo := ScenarioOf(slots, seminar, thesis, po, Some(f));
    var hi := ScenarioOf(slots, seminar, thesis, po, Some(g));
    ElectiveMeanMonotone(slots, f, g);
    CompletionMonotone(PartGrade(seminar, Some(f)), PartGrade(seminar, Some(g)),
                       PartGrade(thesis, Some(f)), PartGrade(thesis, Some(g)), po);
    MulMonotone(lo.wpAvg, hi.wpAvg, lo.wpWeight);
    MulMonotone(lo.abschlussAvg, hi.abschlussAvg, lo.abschlussWeight);
  }

  /** A filler that is absent or a grade between 1.0 and 5.0. */
  predicate ValidFiller(filler: Option<real>) {
    filler.Some? ==> 1.0 <= filler.value <= 5.0
  }

  /** With a valid filler, every elective grade of a scenario lies between 1.0 and 5.0. */
  lemma {:induction false} ElectiveGradesRange(slots: seq<Slot>, filler: Option<real>)
    requires ValidFiller(filler)
    ensures forall i :: 0 <= i < |ElectiveGrades(slots, filler)| ==> 1.0 <= ElectiveGrades(slots, filler)[i] <= 5.0
  {
    var c := CollectedGrades(slots);
    CollectedGradesOfEntered(slots);
    forall i | 0 <= i < |ElectiveGrades(slots, filler)|
      ensures 1.0 <= ElectiveGrades(slots, filler)[i] <= 5.0
    {
      if i < |c| {
        GetGradeRange(EnteredPoints(slots)[i]);
      }
    }
  }

  /** The completion average of grades within [lo, hi] is within them, or 0 when there is none. */
  lemma {:induction false} CompletionBounds(sem: Option<real>, thesis: Option<real>, po: PO, lo: real, hi: real)
    requires 0.0 <= lo
    requires sem.Some? ==> lo <= sem.value <= hi
    requires thesis.Some? ==> lo <= thesis.value <= hi
    ensures CompletionWeight(sem, thesis, po) == 0 ==> CompletionAverage(sem, thesis, po) == 0.0
    ensures CompletionWeight(sem, thesis, po) > 0 ==> lo <= CompletionAverage(sem, thesis, po) <= hi
  {
    var w := CompletionWeight(sem, thesis, po);
    if w > 0 {
      var avg := CompletionAverage(sem, thesis, po);
      assert w as real * lo <= CompletionTotal(sem, thesis, po) <= w as real * hi;
      assert avg * w as real == CompletionTotal(sem, thesis, po);
      if avg < lo { MulMonotone(avg, lo, w as real); }
      if avg > hi { MulMonotone(hi, avg, w as real); }
    }
  }

  /** With a valid filler, the elective average lies within 0 and 5.0. */
  lemma {:induction false} ElectiveMeanBounds(slots: seq<Slot>, filler: Option<real>)
    requires ValidFiller(filler)
    ensures 0.0 <= Mean(ElectiveGrades(slots, filler)) <= 5.0
  {
    var grades := ElectiveGrades(slots, filler);
    ElectiveGradesRange(slots, filler);
    if |grades| > 0 {
      MeanBounds(grades, 1.0, 5.0);
    }
  }

  /** A grade of the seminar or thesis is within 1.0 and 5.0 when the filler is. */
  lemma {:induction false} PartGradeRange(score: Score, filler: Option<real>)
    requires ValidFiller(filler)
    ensures PartGrade(score, filler).Some? ==> 1.0 <= PartGrade(score, filler).value <= 5.0
  {
    if score.Numeric? { GetGradeRange(score.points); }
  }

  /** With a valid filler, the elective, completion and combined averages stay within 0 and 5.0. */
  lemma {:induction false} ScenarioBounds(slots: seq<Slot>, seminar: Score, thesis: Score, po: PO, filler: Option<real>)
    requires ValidFiller(filler)
    ensures var sc := ScenarioOf(slots, seminar, thesis, po, filler);
            && 0.0 <= sc.wpAvg <= 5.0 && 0.0 <= sc.abschlussAvg <= 5.0 && 0.0 <= sc.combinedAvg <= 5.0
  {
    ScenarioOfParts(slots, seminar, thesis, po, filler);
    var sem, th := PartGrade(seminar, filler), PartGrade(thesis, filler);
    var wpAvg, abschlussAvg := Mean(ElectiveGrades(slots, filler)), CompletionAverage(sem, th, po);
    var w := Weights(po, HasUK(slots));
    ElectiveMeanBounds(slots, filler);
    PartGradeRange(seminar, filler);
    PartGradeRange(thesis, filler);
    CompletionBounds(sem, th, po, 1.0, 5.0);
    WeightsSumToOne(po, HasUK(slots));
    WeightedBounds(wpAvg, abschlussAvg, w.0, w.1);
  }

  /** Two values within [0, 5.0] mixed with non-negative weights summing to at most 1 stay within [0, 5.0]. */
  lemma {:induction false} WeightedBounds(a: real, b: real, wa: real, wb: real)
    requires 0.0 <= a <= 5.0 && 0.0 <= b <= 5.0
    requires 0.0 <= wa && 0.0 <= wb && wa + wb <= 1.0
    ensures 0.0 <= a * wa + b * wb <= 5.0
  {
    ProductBounds(a, wa);
    ProductBounds(b, wb);
    SumOfShares(a * wa, b * wb, wa, wb);
  }

  lemma {:induction false} ProductBounds(a: real, w: real)
    requires 0.0 <= a <= 5.0 && 0.0 <= w
    ensures 0.0 <= a * w <= 5.0 * w
  {
    MulMonotone(a, 5.0, w);
    MulMonotone(0.0, a, w);
  }

  lemma {:induction false} SumOfShares(x: real, y: real, wa: real, wb: real)
    requires 0.0 <= x <= 5.0 * wa && 0.0 <= y <= 5.0 * wb && wa + wb <= 1.0
    ensures 0.0 <= x + y <= 5.0
  {
  }

  /**
    * Once six slots hold a module other than ÜK and seminar and thesis carry
    * an entry, every filler gives the current result.
    */
  lemma {:induction false} PrognosisCollapses(slots: seq<Slot>, seminar: Score, thesis: Score, po: PO, filler: Option<real>)
    requires OccupiedCount(slots) >= TotalWPSlots
    requires seminar != Empty && thesis != Empty
    ensures ScenarioOf(slots, seminar, thesis, po, filler) == ScenarioOf(slots, seminar, thesis, po, None)
  {
    assert ElectiveGrades(slots, filler) == ElectiveGrades(slots, None);
  }

  /** Without filler, a scenario has data exactly when some slot is graded or seminar or thesis has an entry. */
  lemma {:induction false} CurrentHasDataIff(slots: seq<Slot>, seminar: Score, thesis: Score, po: PO)
    ensures ScenarioOf(slots, seminar, thesis, po, None).hasData
            <==> (exists i :: 0 <= i < |slots| && Graded(slots[i])) || seminar != Empty || thesis != Empty
  {
    CollectedGradesNonEmptyIff(slots);
    assert ElectiveGrades(slots, None) == CollectedGrades(slots);
  }

  // ---------------------------------------------------------------------------
  // Properties of the area's statistics
  // ---------------------------------------------------------------------------

  /** The best-case prognosis is never worse than the worst case, and all three lie within 0 and 5.0. */
  lemma {:induction false} StatsOrdered(slots: seq<Slot>, seminar: Score, thesis: Score, po: PO)
    ensures var st := WahlAbschlussStatsOf(slots, seminar, thesis, po);
            && st.bestGrade <= st.worstGrade
            && 0.0 <= st.currentGrade <= 5.0 && 0.0 <= st.bestGrade <= 5.0 && 0.0 <= st.worstGrade <= 5.0
  {
    ScenarioMonotone(slots, seminar, thesis, po, 1.0, 4.0);
    ScenarioBounds(slots, seminar, thesis, po, None);
    ScenarioBounds(slots, seminar, thesis, po, Some(1.0));
    ScenarioBounds(slots, seminar, thesis, po, Some(4.0));
  }

  /**
    * The area reports data exactly when some slot holds a module other than
    * ÜK with numeric points, or seminar or thesis has an entry; the filled-in
    * scenarios, which always have data, do not decide it.
    */
  lemma {:induction false} StatsHasDataIff(slots: seq<Slot>, seminar: Score, thesis: Score, po: PO)
    ensures WahlAbschlussStatsOf(slots, seminar, thesis, po).hasData
            <==> (exists i :: 0 <= i < |slots| && Graded(slots[i])) || seminar != Empty || thesis != Empty
    ensures ScenarioOf(slots, seminar, thesis, po, Some(1.0)).hasData
    ensures ScenarioOf(slots, seminar, thesis, po, Some(4.0)).hasData
  {
    CurrentHasDataIff(slots, seminar, thesis, po);
  }

  /**
    * Six modules other than ÜK, with seminar and thesis entered, leave nothing
    * to forecast: current, best and worst coincide. Five modules and ÜK do not
    * suffice (see `UKSlotPaddedExample`).
    */
  lemma {:induction false} StatsCollapse(slots: seq<Slot>, seminar: Score, thesis: Score, po: PO)
    requires OccupiedCount(slots) >= TotalWPSlots
    requires seminar != Empty && thesis != Empty
    ensures var st := WahlAbschlussStatsOf(slots, seminar, thesis, po);
            st.bestGrade == st.currentGrade == st.worstGrade
  {
    PrognosisCollapses(slots, seminar, thesis, po, Some(1.0));
    PrognosisCollapses(slots, seminar, thesis, po, Some(4.0));
  }

  /** The displayed weight percentages: 75/25 (PO 2023), 63/38 (PO 2025 with ÜK), 67/33 (PO 2025 without). */
  lemma {:induction false} WeightPercentages(slots: seq<Slot>, seminar: Score, thesis: Score, po: PO)
    ensures var st := WahlAbschlussStatsOf(slots, seminar, thesis, po);
            && (po == PO2023 ==> st.wpWeightPercent == 75 && st.abschlussWeightPercent == 25)
            && (po == PO2025 && HasUK(slots) ==> st.wpWeightPercent == 63 && st.abschlussWeightPercent == 38)
            && (po == PO2025 && !HasUK(slots) ==> st.wpWeightPercent == 67 && st.abschlussWeightPercent == 33)
  {
  }

  /** Seminar at 50 points (4.0) and thesis at 100 points (1.0): the doubled thesis gives 2.0, the single one 2.5. */
  lemma {:induction false} ThesisCountsTwiceExample()
    ensures CompletionAverage(PartGrade(Numeric(50.0), None), PartGrade(Numeric(100.0), None), PO2025) == 2.0
    ensures CompletionAverage(PartGrade(Numeric(50.0), None), PartGrade(Numeric(100.0), None), PO2023) == 2.5
  {
    GetGradeIsGradeOf(50.0);
    GetGradeIsGradeOf(100.0);
  }

  /** `n` slots left open contribute neither grades, filled slots nor ÜK. */
  lemma {:induction false} OpenSlots(n: nat)
    ensures CollectedGrades(Repeat(Slot(NoModule, Empty), n)) == []
    ensures EnteredPoints(Repeat(Slot(NoModule, Empty), n)) == []
    ensures OccupiedCount(Repeat(Slot(NoModule, Empty), n)) == 0
    ensures !HasUK(Repeat(Slot(NoModule, Empty), n))
  {
    if n > 0 {
      OpenSlots(n - 1);
      assert Repeat(Slot(NoModule, Empty), n)[..n - 1] == Repeat(Slot(NoModule, Empty), n - 1);
    }
  }

  /** The entries of the one-elective example: a graded module at 100 points, then `n` open slots. */
  lemma {:induction false} OneElectiveSlots(n: nat)
    ensures var slots := [Slot(Module("WP1"), Numeric(100.0))] + Repeat(Slot(NoModule, Empty), n);
            && CollectedGrades(slots) == [1.0] && EnteredPoints(slots) == [100.0]
            && OccupiedCount(slots) == 1 && !HasUK(slots)
  {
    var first := [Slot(Module("WP1"), Numeric(100.0))];
    var slots := first + Repeat(Slot(NoModule, Empty), n);
    OpenSlots(n);
    CollectedGradesAppend(first, Repeat(Slot(NoModule, Empty), n));
    assert first[..0] == [];
    GetGradeIsGradeOf(100.0);
    forall i | 0 <= i < |slots| ensures slots[i].choice != UK {
      if i > 0 { assert slots[i] == Repeat(Slot(NoModule, Empty), n)[i - 1]; }
    }
  }

  /**
    * One elective at 100 points and five open slots under PO 2025: the
    * current combined average is 2/3 (only 1.0 weighted by 2/3), the best case
    * 1.0 and the worst case 11/3 (electives 1.0 and five times 4.0, seminar and
    * thesis 4.0). `n` is fixed to 5; it is a parameter only so that `Repeat`
    * is not unfolded.
    */
  lemma {:induction false} OneElectiveExample(n: nat)
    requires n == 5
    ensures var slots := [Slot(Module("WP1"), Numeric(100.0))] + Repeat(Slot(NoModule, Empty), n);
            var st := WahlAbschlussStatsOf(slots, Empty, Empty, PO2025);
            && st.hasData && st.wpAvg == Some(1.0) && st.abschlussAvg == None
            && st.currentGrade == 2.0 / 3.0 && st.bestGrade == 1.0 && st.worstGrade == 11.0 / 3.0
            && st.placeholderPoints == Some(100)
  {
    OneElectiveSlots(n);
    PaddedSum([1.0], 1.0, 5);
    PaddedSum([1.0], 4.0, 5);
  }

  /** `n` slots all holding a module with the same points. */
  lemma {:induction false} UniformSlots(n: nat, p: real)
    ensures CollectedGrades(Repeat(Slot(Module("WP"), Numeric(p)), n)) == Repeat(GetGrade(p), n)
    ensures OccupiedCount(Repeat(Slot(Module("WP"), Numeric(p)), n)) == n
    ensures !HasUK(Repeat(Slot(Module("WP"), Numeric(p)), n))
  {
    if n > 0 {
      UniformSlots(n - 1, p);
      assert Repeat(Slot(Module("WP"), Numeric(p)), n)[..n - 1] == Repeat(Slot(Module("WP"), Numeric(p)), n - 1);
    }
  }

  /**
    * Six electives, seminar and thesis all at the same points: the current
    * scenario is the grade of those points. `n` is fixed to six; it is a
    * parameter only so that `Repeat` is not unfolded.
    */
  lemma {:induction false} UniformCurrent(n: nat, p: real, po: PO)
    requires n == TotalWPSlots
    ensures ScenarioOf(Repeat(Slot(Module("WP"), Numeric(p)), n), Numeric(p), Numeric(p), po, None).combinedAvg
            == GetGrade(p)
  {
    var slots := Repeat(Slot(Module("WP"), Numeric(p)), n);
    var g := GetGrade(p);
    UniformSlots(n, p);
    assert ElectiveGrades(slots, None) == Repeat(g, n);
    SumRepeat(g, n);
    assert Mean(Repeat(g, n)) == g;
    assert CompletionAverage(Some(g), Some(g), po) == g;
    ScenarioOfParts(slots, Numeric(p), Numeric(p), po, None);
    var w := Weights(po, false);
    WeightsSumToOne(po, false);
    assert g * w.0 + g * w.1 == g * (w.0 + w.1);
  }

  /**
    * Six electives, seminar and thesis all at the same points: every scenario,
    * and so the current, best and worst grade, is the grade of those points.
    * `n` is fixed to six; it is a parameter only so that `Repeat` is not unfolded.
    */
  lemma {:induction false} UniformExample(n: nat, p: real, po: PO)
    requires n == TotalWPSlots
    ensures var st := WahlAbschlussStatsOf(Repeat(Slot(Module("WP"), Numeric(p)), n), Numeric(p), Numeric(p), po);
            st.currentGrade == GetGrade(p) && st.bestGrade == GetGrade(p) && st.worstGrade == GetGrade(p)
  {
    UniformSlots(n, p);
    UniformCurrent(n, p, po);
    StatsCollapse(Repeat(Slot(Module("WP"), Numeric(p)), n), Numeric(p), Numeric(p), po);
  }

  // ---------------------------------------------------------------------------
  // A slot holding ÜK is padded like an open one
  // ---------------------------------------------------------------------------

  /**
    * Five electives at 100 points and ÜK in the sixth slot, seminar and thesis
    * at 100, PO 2025 (`n` is fixed to 5; it is a parameter only so that
    * `Repeat` is not unfolded). Nothing is left to enter, yet the worst case
    * pads the ÜK slot with 4.0: electives average 9/6, and 9/6 · 5/8 + 3/8 =
    * 21/16. Counting the ÜK slot as filled, the worst case is 1.0.
    */
  lemma {:induction false} UKSlotPaddedExample(n: nat)
    requires n == 5
    ensures var slots := Repeat(Slot(Module("WP"), Numeric(100.0)), n) + [Slot(UK, Empty)];
            var st := WahlAbschlussStatsOf(slots, Numeric(100.0), Numeric(100.0), PO2025);
            && st.currentGrade == 1.0 && st.bestGrade == 1.0 && st.worstGrade == 21.0 / 16.0
            && CorrectedScenarioOf(slots, Numeric(100.0), Numeric(100.0), PO2025, Some(4.0)).combinedAvg == 1.0
  {
    var slots := Repeat(Slot(Module("WP"), Numeric(100.0)), n) + [Slot(UK, Empty)];
    UKSlots(n);
    GetGradeIsGradeOf(100.0);
    var ones := Repeat(1.0, n);
    SumRepeat(1.0, n);
    PaddedSum(ones, 1.0, 1);
    PaddedSum(ones, 4.0, 1);
    assert ElectiveGrades(slots, None) == ones;
    assert Mean(ones) == 1.0;
    CorrectedPrognosisCollapses(slots, Numeric(100.0), Numeric(100.0), PO2025, Some(4.0));
  }

  /** `n` electives at 100 points followed by a slot holding ÜK. */
  lemma {:induction false} UKSlots(n: nat)
    ensures var slots := Repeat(Slot(Module("WP"), Numeric(100.0)), n) + [Slot(UK, Empty)];
            && CollectedGrades(slots) == Repeat(GetGrade(100.0), n)
            && OccupiedCount(slots) == n && ChosenCount(slots) == n + 1 && HasUK(slots)
  {
    var electives := Repeat(Slot(Module("WP"), Numeric(100.0)), n);
    var slots := electives + [Slot(UK, Empty)];
    UniformSlots(n, 100.0);
    ChosenBounds(electives);
    assert slots[..|slots| - 1] == electives;
    assert slots[n].choice == UK;
  }

  /** The number of slots holding anything: a module or ÜK. */
  function ChosenCount(slots: seq<Slot>): nat {
    if slots == [] then 0
    else ChosenCount(slots[..|slots| - 1]) + if slots[|slots| - 1].choice != NoModule then 1 else 0
  }

  /** Slots holding anything include the filled ones, and differ from them only by ÜK slots. */
  lemma {:induction false} ChosenBounds(slots: seq<Slot>)
    ensures OccupiedCount(slots) <= ChosenCount(slots) <= |slots|
    ensures ChosenCount(slots) > OccupiedCount(slots) ==> HasUK(slots)
  {
    if slots != [] {
      var init := slots[..|slots| - 1];
      ChosenBounds(init);
      if slots[|slots| - 1].choice == UK {
        assert slots[|slots| - 1].choice == UK;
      } else if ChosenCount(slots) > OccupiedCount(slots) {
        var i :| 0 <= i < |init| && init[i].choice == UK;
        assert slots[i].choice == UK;
      }
    }
  }

  /**
    * Corrected: one scenario where a slot holding ÜK counts as filled, so
    * only slots with nothing chosen are padded. It differs from the source
    * only for a filled-in scenario with a ÜK slot.
    */
  function CorrectedScenarioOf(slots: seq<Slot>, seminar: Score, thesis: Score, po: PO, filler: Option<real>): (r: Scenario)
    ensures filler.None? || !HasUK(slots) ==> r == ScenarioOf(slots, seminar, thesis, po, filler)
  {
    var grades := CollectedGrades(slots) + FillerGrades(filler, TotalWPSlots - ChosenCount(slots));
    CorrectedGradesAgree(slots, filler);
    ScenarioFrom(grades, HasUK(slots), seminar, thesis, po, filler)
  }

  /** Without filler or without ÜK, the corrected padding is the source's. */
  lemma {:induction false} CorrectedGradesAgree(slots: seq<Slot>, filler: Option<real>)
    ensures filler.None? || !HasUK(slots)
            ==> CollectedGrades(slots) + FillerGrades(filler, TotalWPSlots - ChosenCount(slots)) == ElectiveGrades(slots, filler)
  {
    ChosenBounds(slots);
  }

  /**
    * Corrected: once all six slots hold a module or ÜK and seminar and thesis
    * carry an entry, every filler gives the current result.
    */
  lemma {:induction false} CorrectedPrognosisCollapses(slots: seq<Slot>, seminar: Score, thesis: Score, po: PO, filler: Option<real>)
    requires ChosenCount(slots) >= TotalWPSlots
    requires seminar != Empty && thesis != Empty
    ensures CorrectedScenarioOf(slots, seminar, thesis, po, filler) == ScenarioOf(slots, seminar, thesis, po, None)
  {
    assert FillerGrades(filler, TotalWPSlots - ChosenCount(slots)) == [];
    assert CollectedGrades(slots) + [] == ElectiveGrades(slots, None);
  }
}
