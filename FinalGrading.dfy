/**
  * The overall grade: the mandatory-area grade and the elective-and-completion
  * grade mixed with weights fixed by the examination regulation, for the
  * current entries and for the best and worst prognosis, each cut to one
  * decimal.
  */
module FinalGrading {
  import opened Common
  import opened GradeScale
  import opened Pflicht
  import opened WahlAbschluss

  /** The overall grade for the entries as they are, and the best and worst prognosis. */
  datatype FinalGrade = FinalGrade(current: real, best: real, worst: real)

  /** The all-zero result shown when there is no grade to report. */
  const NoGrade := FinalGrade(0.0, 0.0, 0.0)

  /** (mandatory, elective and completion) weights: 20/80 under PO 2023, 25/75 under PO 2025. */
  function AreaWeights(po: PO): (w: (real, real))
    ensures 0.0 < w.0 < w.1
  {
    if po == PO2023 then (0.2, 0.8) else (0.25, 0.75)
  }

  /** The two area weights always share the whole grade. */
  lemma {:induction false} AreaWeightsSumToOne(po: PO)
    ensures AreaWeights(po).0 + AreaWeights(po).1 == 1.0
  {
  }

  /** No grade is reported when nothing was entered, or when the mandatory area has entries but fails. */
  predicate Blocked(p: PflichtStats, w: WahlAbschlussStats) {
    (!p.hasData && !w.hasData) || (!p.requirementsMet && p.hasData)
  }

  /** The weighted mix of the mandatory grade and one elective-area grade, before truncation. */
  function Mix(mandatory: real, elective: real, po: PO): real {
    mandatory * AreaWeights(po).0 + elective * AreaWeights(po).1
  }

  /** A value with at most one decimal. */
  predicate OneDecimal(x: real) {
    (x * 10.0).Floor as real == x * 10.0
  }

  /**
    * The overall grade. The mandatory grade enters as given: `avgGrade || 0`
    * only changes a NaN, which cannot occur here, so an area without numeric
    * points enters as 0.
    */
  function CalculateFinalGrade(p: PflichtStats, w: WahlAbschlussStats, po: PO): (g: FinalGrade)
    ensures Blocked(p, w) ==> g == NoGrade
    ensures !Blocked(p, w) ==>
              && g.current <= Mix(p.avgGrade, w.currentGrade, po) < g.current + 0.1
              && g.best <= Mix(p.avgGrade, w.bestGrade, po) < g.best + 0.1
              && g.worst <= Mix(p.avgGrade, w.worstGrade, po) < g.worst + 0.1
              && OneDecimal(g.current) && OneDecimal(g.best) && OneDecimal(g.worst)
  {
    if !p.hasData && !w.hasData then NoGrade
    else if !p.requirementsMet && p.hasData then NoGrade
    else
      var current, best, worst := Mix(p.avgGrade, w.currentGrade, po), Mix(p.avgGrade, w.bestGrade, po),
                                  Mix(p.avgGrade, w.worstGrade, po);
      TruncateOneDecimal(current);
      TruncateOneDecimal(best);
      TruncateOneDecimal(worst);
      FinalGrade(Truncate(current, 1), Truncate(best, 1), Truncate(worst, 1))
  }

  /** Ordered area prognoses give ordered overall prognoses. */
  lemma {:induction false} FinalGradeOrdered(p: PflichtStats, w: WahlAbschlussStats, po: PO)
    requires w.bestGrade <= w.worstGrade
    ensures CalculateFinalGrade(p, w, po).best <= CalculateFinalGrade(p, w, po).worst
  {
    if !Blocked(p, w) {
      var ww := AreaWeights(po).1;
      MulMonotone(w.bestGrade, w.worstGrade, ww);
      TruncateMonotone(Mix(p.avgGrade, w.bestGrade, po), Mix(p.avgGrade, w.worstGrade, po), 1);
    }
  }

  /** The overall grades of area grades within [0, 5.0] lie within [0, 5.0]. */
  lemma {:induction false} FinalGradeBounds(p: PflichtStats, w: WahlAbschlussStats, po: PO)
    requires 0.0 <= p.avgGrade <= 5.0
    requires 0.0 <= w.currentGrade <= 5.0 && 0.0 <= w.bestGrade <= 5.0 && 0.0 <= w.worstGrade <= 5.0
    ensures var g := CalculateFinalGrade(p, w, po);
            && 0.0 <= g.current <= 5.0 && 0.0 <= g.best <= 5.0 && 0.0 <= g.worst <= 5.0
  {
    if !Blocked(p, w) {
      MixBounds(p.avgGrade, w.currentGrade, po);
      MixBounds(p.avgGrade, w.bestGrade, po);
      MixBounds(p.avgGrade, w.worstGrade, po);
      TruncateNonNegative(Mix(p.avgGrade, w.currentGrade, po), 1);
      TruncateNonNegative(Mix(p.avgGrade, w.bestGrade, po), 1);
      TruncateNonNegative(Mix(p.avgGrade, w.worstGrade, po), 1);
    }
  }

  /** A weighted mix of two grades within [lo, hi] lies within [lo, hi]. */
  lemma {:induction false} MixWithin(a: real, b: real, po: PO, lo: real, hi: real)
    requires lo <= a <= hi && lo <= b <= hi
    ensures lo <= Mix(a, b, po) <= hi
  {
    var w := AreaWeights(po);
    AreaWeightsSumToOne(po);
    assert Mix(a, b, po) == a * w.0 + b * w.1;
    MulMonotone(a, hi, w.0);
    MulMonotone(b, hi, w.1);
    MulMonotone(lo, a, w.0);
    MulMonotone(lo, b, w.1);
    assert lo * w.0 + lo * w.1 == lo * (w.0 + w.1);
    assert hi * w.0 + hi * w.1 == hi * (w.0 + w.1);
    assert hi * (w.0 + w.1) == hi;
  }

  lemma {:induction false} MixBounds(a: real, b: real, po: PO)
    requires 0.0 <= a <= 5.0 && 0.0 <= b <= 5.0
    ensures 0.0 <= Mix(a, b, po) <= 5.0
  {
    MixWithin(a, b, po, 0.0, 5.0);
  }

  // ---------------------------------------------------------------------------
  // From the entries to the overall grade
  // ---------------------------------------------------------------------------

  /** The overall grade of the raw entries of both areas. */
  function FinalGradeOf(entries: seq<Score>, slots: seq<Slot>, seminar: Score, thesis: Score, po: PO): FinalGrade {
    CalculateFinalGrade(PflichtStatsOf(entries), WahlAbschlussStatsOf(slots, seminar, thesis, po), po)
  }

  /** For every input the best prognosis is at most the worst, and all three grades lie within [0, 5.0]. */
  lemma {:induction false} FinalGradeOfOrdered(entries: seq<Score>, slots: seq<Slot>, seminar: Score, thesis: Score, po: PO)
    requires forall i :: 0 <= i < |entries| ==> ValidScore(entries[i])
    ensures var g := FinalGradeOf(entries, slots, seminar, thesis, po);
            && g.best <= g.worst
            && 0.0 <= g.current <= 5.0 && 0.0 <= g.best <= 5.0 && 0.0 <= g.worst <= 5.0
  {
    var p, w := PflichtStatsOf(entries), WahlAbschlussStatsOf(slots, seminar, thesis, po);
    StatsOrdered(slots, seminar, thesis, po);
    AverageGradeMeaning(entries);
    if p.avgGrade != 0.0 {
      GetGradeRange(MeanPoints(TallyOf(entries)));
    }
    FinalGradeOrdered(p, w, po);
    FinalGradeBounds(p, w, po);
  }

  /** Nothing entered anywhere: no grade. */
  lemma {:induction false} NothingEnteredNoGrade(entries: seq<Score>, slots: seq<Slot>, po: PO)
    requires forall i :: 0 <= i < |entries| ==> entries[i] == Empty
    requires forall i :: 0 <= i < |slots| ==> !Graded(slots[i])
    ensures FinalGradeOf(entries, slots, Empty, Empty, po) == NoGrade
  {
    HasDataIff(entries);
    StatsHasDataIff(slots, Empty, Empty, po);
  }

  /** A mandatory module under 25 points blocks the overall grade, whatever else was entered. */
  lemma {:induction false} ModuleUnder25NoGrade(entries: seq<Score>, slots: seq<Slot>, seminar: Score, thesis: Score, po: PO, i: nat)
    requires i < |entries| && entries[i].Numeric? && entries[i].points < 25.0
    ensures FinalGradeOf(entries, slots, seminar, thesis, po) == NoGrade
  {
    HasDataIff(entries);
    RequirementsMetIff(entries);
  }

  /**
    * The area statistics of the mixed example: mandatory grade 1.0, elective-area grade 4.0.
    * `n` is fixed to six, the number of elective slots; it is a parameter only so that `Repeat` is not unfolded.
    */
  lemma {:induction false} MixedExampleAreas(n: nat, po: PO)
    requires n == TotalWPSlots
    ensures var p := PflichtStatsOf(Repeat(Numeric(100.0), 10));
            var w := WahlAbschlussStatsOf(Repeat(Slot(Module("WP"), Numeric(50.0)), n), Numeric(50.0), Numeric(50.0), po);
            && p.hasData && p.requirementsMet && p.avgGrade == 1.0
            && w.currentGrade == 4.0 && w.bestGrade == 4.0 && w.worstGrade == 4.0
  {
    ExampleAllHundred();
    GetGradeIsGradeOf(50.0);
    UniformExample(n, 50.0, po);
  }

  /**
    * Mandatory modules all at 100 points (1.0) and electives, seminar and
    * thesis all at 50 points (4.0): 0.25·1.0 + 0.75·4.0 = 3.25, shown 3.2
    * under PO 2025; 0.2·1.0 + 0.8·4.0 = 3.4 under PO 2023.
    * `n` is fixed to six, the number of elective slots; it is a parameter only so that `Repeat` is not unfolded.
    */
  lemma {:induction false} MixedExample(n: nat)
    requires n == TotalWPSlots
    ensures var slots := Repeat(Slot(Module("WP"), Numeric(50.0)), n);
            && FinalGradeOf(Repeat(Numeric(100.0), 10), slots, Numeric(50.0), Numeric(50.0), PO2025)
               == FinalGrade(3.2, 3.2, 3.2)
            && FinalGradeOf(Repeat(Numeric(100.0), 10), slots, Numeric(50.0), Numeric(50.0), PO2023)
               == FinalGrade(3.4, 3.4, 3.4)
  {
    var slots := Repeat(Slot(Module("WP"), Numeric(50.0)), n);
    var p := PflichtStatsOf(Repeat(Numeric(100.0), 10));
    MixedExampleAreas(n, PO2025);
    MixedExampleAreas(n, PO2023);
    SettledFinalGrade(p, WahlAbschlussStatsOf(slots, Numeric(50.0), Numeric(50.0), PO2025), PO2025);
    SettledFinalGrade(p, WahlAbschlussStatsOf(slots, Numeric(50.0), Numeric(50.0), PO2023), PO2023);
    MixedExampleArithmetic();
  }

  /** When the prognosis has collapsed, current, best and worst share one overall grade. */
  lemma {:induction false} SettledFinalGrade(p: PflichtStats, w: WahlAbschlussStats, po: PO)
    requires !Blocked(p, w)
    requires w.currentGrade == w.bestGrade == w.worstGrade
    ensures var x := Truncate(Mix(p.avgGrade, w.currentGrade, po), 1);
            CalculateFinalGrade(p, w, po) == FinalGrade(x, x, x)
  {
  }

  lemma {:induction false} MixedExampleArithmetic()
    ensures Truncate(Mix(1.0, 4.0, PO2025), 1) == 3.2
    ensures Truncate(Mix(1.0, 4.0, PO2023), 1) == 3.4
  {
    assert Pow10(1) == 10.0;
    assert Units(3.25, 1) == 32;
    assert Units(3.4, 1) == 34;
  }

  /**
    * Every entry at the same points `p` (100 or 50): each area and so the overall grade is the grade of `p`.
    * `n` is fixed to six, the number of elective slots; it is a parameter only so that `Repeat` is not unfolded.
    */
  lemma {:induction false} UniformAreas(n: nat, p: real, po: PO)
    requires n == TotalWPSlots
    requires p == 100.0 || p == 50.0
    ensures var ps := PflichtStatsOf(Repeat(Numeric(p), 10));
            var w := WahlAbschlussStatsOf(Repeat(Slot(Module("WP"), Numeric(p)), n), Numeric(p), Numeric(p), po);
            && ps.hasData && ps.requirementsMet && ps.avgGrade == GetGrade(p)
            && w.currentGrade == GetGrade(p) && w.bestGrade == GetGrade(p) && w.worstGrade == GetGrade(p)
  {
    if p == 100.0 { ExampleAllHundred(); } else { ExampleAllFifty(); }
    GetGradeIsGradeOf(p);
    UniformExample(n, p, po);
  }

  /**
    * Every entry at the same points `p` (100 or 50): the overall grade is the grade of `p`.
    * `n` is fixed to six, the number of elective slots; it is a parameter only so that `Repeat` is not unfolded.
    */
  lemma {:induction false} UniformFinal(n: nat, p: real, po: PO)
    requires n == TotalWPSlots
    requires p == 100.0 || p == 50.0
    ensures var g := GetGrade(p);
            FinalGradeOf(Repeat(Numeric(p), 10), Repeat(Slot(Module("WP"), Numeric(p)), n), Numeric(p), Numeric(p), po)
            == FinalGrade(g, g, g)
  {
    var g := GetGrade(p);
    UniformAreas(n, p, po);
    GetGradeIsGradeOf(p);
    SettledFinalGrade(PflichtStatsOf(Repeat(Numeric(p), 10)),
                      WahlAbschlussStatsOf(Repeat(Slot(Module("WP"), Numeric(p)), n), Numeric(p), Numeric(p), po), po);
    MixWithin(g, g, po, g, g);
    TruncateOneDecimalExact(g, if p == 100.0 then 10 else 40);
  }

  /**
    * Every entry at 100 points gives 1.0; every entry at 50 points gives 4.0, under either regulation.
    * `n` is fixed to six, the number of elective slots; it is a parameter only so that `Repeat` is not unfolded.
    */
  lemma {:induction false} UniformFinalExample(n: nat, po: PO)
    requires n == TotalWPSlots
    ensures FinalGradeOf(Repeat(Numeric(100.0), 10), Repeat(Slot(Module("WP"), Numeric(100.0)), n),
                         Numeric(100.0), Numeric(100.0), po) == FinalGrade(1.0, 1.0, 1.0)
    ensures FinalGradeOf(Repeat(Numeric(50.0), 10), Repeat(Slot(Module("WP"), Numeric(50.0)), n),
                         Numeric(50.0), Numeric(50.0), po) == FinalGrade(4.0, 4.0, 4.0)
  {
    UniformFinal(n, 100.0, po);
    UniformFinal(n, 50.0, po);
    GetGradeIsGradeOf(50.0);
    GetGradeIsGradeOf(100.0);
  }

  /**
    * Mandatory modules at 93 points (1.3), electives, seminar and thesis at 87
    * points (1.7), PO 2025: 0.25·1.3 + 0.75·1.7 = 1.6, which already has one decimal.
    * `n` is fixed to six, the number of elective slots; it is a parameter only so that `Repeat` is not unfolded.
    */
  lemma {:induction false} TruncationExample(n: nat)
    requires n == TotalWPSlots
    ensures FinalGradeOf(Repeat(Numeric(93.0), 10), Repeat(Slot(Module("WP"), Numeric(87.0)), n),
                         Numeric(87.0), Numeric(87.0), PO2025) == FinalGrade(1.6, 1.6, 1.6)
  {
    var p := PflichtStatsOf(Repeat(Numeric(93.0), 10));
    var w := WahlAbschlussStatsOf(Repeat(Slot(Module("WP"), Numeric(87.0)), n), Numeric(87.0), Numeric(87.0), PO2025);
    ExampleUniform(93.0, 930);
    GetGradeIsGradeOf(93.0);
    GetGradeIsGradeOf(87.0);
    UniformExample(n, 87.0, PO2025);
    SettledFinalGrade(p, w, PO2025);
    assert Mix(1.3, 1.7, PO2025) == 1.6;
    TruncateOneDecimalExact(1.6, 16);
  }

  // ---------------------------------------------------------------------------
  // A mandatory area without numeric points
  // ---------------------------------------------------------------------------

  /**
    * As written, a mandatory area whose modules are all recognized passes
    * (ten times 50 points) with average grade 0, and that 0 is weighted in:
    * with everything else at 100 points the overall grade is 0.8 (PO 2023) or
    * 0.7 (PO 2025), better than the best grade on the scale.
    * `n` is fixed to six, the number of elective slots; it is a parameter only so that `Repeat` is not unfolded.
    */
  lemma {:induction false} AllRecognizedBelowScale(n: nat)
    requires n == TotalWPSlots
    ensures FinalGradeOf(Repeat(Recognized, 10), Repeat(Slot(Module("WP"), Numeric(100.0)), n),
                         Numeric(100.0), Numeric(100.0), PO2023) == FinalGrade(0.8, 0.8, 0.8)
    ensures FinalGradeOf(Repeat(Recognized, 10), Repeat(Slot(Module("WP"), Numeric(100.0)), n),
                         Numeric(100.0), Numeric(100.0), PO2025) == FinalGrade(0.7, 0.7, 0.7)
  {
    var p := PflichtStatsOf(Repeat(Recognized, 10));
    var slots := Repeat(Slot(Module("WP"), Numeric(100.0)), n);
    ExampleAllRecognized();
    GetGradeIsGradeOf(100.0);
    UniformExample(n, 100.0, PO2023);
    UniformExample(n, 100.0, PO2025);
    SettledFinalGrade(p, WahlAbschlussStatsOf(slots, Numeric(100.0), Numeric(100.0), PO2023), PO2023);
    SettledFinalGrade(p, WahlAbschlussStatsOf(slots, Numeric(100.0), Numeric(100.0), PO2025), PO2025);
    AllRecognizedArithmetic();
  }

  lemma {:induction false} AllRecognizedArithmetic()
    ensures Truncate(Mix(0.0, 1.0, PO2023), 1) == 0.8
    ensures Truncate(Mix(0.0, 1.0, PO2025), 1) == 0.7
  {
    TruncateOneDecimalExact(0.8, 8);
    assert Pow10(1) == 10.0;
    assert Units(0.75, 1) == 7;
  }

  /**
    * The overall grade with a mandatory area that has no numeric grade left
    * out of the weighting: the elective-area grade alone is cut to one decimal.
    */
  function CorrectedFinalGrade(p: PflichtStats, w: WahlAbschlussStats, po: PO): (g: FinalGrade)
    ensures Blocked(p, w) ==> g == NoGrade
    ensures !Blocked(p, w) && p.avgGrade != 0.0 ==> g == CalculateFinalGrade(p, w, po)
  {
    if Blocked(p, w) then NoGrade
    else if p.avgGrade == 0.0 then FinalGrade(Truncate(w.currentGrade, 1), Truncate(w.bestGrade, 1), Truncate(w.worstGrade, 1))
    else CalculateFinalGrade(p, w, po)
  }

  /** The corrected overall grade of the raw entries of both areas. */
  function CorrectedFinalGradeOf(entries: seq<Score>, slots: seq<Slot>, seminar: Score, thesis: Score, po: PO): FinalGrade {
    CorrectedFinalGrade(PflichtStatsOf(entries), WahlAbschlussStatsOf(slots, seminar, thesis, po), po)
  }

  /** The correction changes nothing once some mandatory module has earned numeric points. */
  lemma {:induction false} CorrectionOnlyWithoutPoints(entries: seq<Score>, slots: seq<Slot>, seminar: Score, thesis: Score, po: PO)
    requires forall i :: 0 <= i < |entries| ==> ValidScore(entries[i])
    requires TallyOf(entries).gradedSum > 0.0
    ensures CorrectedFinalGradeOf(entries, slots, seminar, thesis, po) == FinalGradeOf(entries, slots, seminar, thesis, po)
  {
    AverageGradeMeaning(entries);
  }

  /** Truncation keeps a value of [1, 5] within [1, 5]. */
  lemma {:induction false} TruncateOnScale(x: real)
    requires 1.0 <= x <= 5.0
    ensures 1.0 <= Truncate(x, 1) <= 5.0
  {
    TruncateMonotone(1.0, x, 1);
    TruncateOneDecimalExact(1.0, 10);
    TruncateOneDecimal(x);
  }

  /**
    * With the correction, area grades on the 1.0 to 5.0 scale (a mandatory
    * grade of 0 meaning "none") give overall grades on that scale.
    */
  lemma {:induction false} CorrectedFinalGradeOnScale(p: PflichtStats, w: WahlAbschlussStats, po: PO)
    requires !Blocked(p, w)
    requires p.avgGrade == 0.0 || 1.0 <= p.avgGrade <= 5.0
    requires 1.0 <= w.currentGrade <= 5.0 && 1.0 <= w.bestGrade <= 5.0 && 1.0 <= w.worstGrade <= 5.0
    ensures var g := CorrectedFinalGrade(p, w, po);
            && 1.0 <= g.current <= 5.0 && 1.0 <= g.best <= 5.0 && 1.0 <= g.worst <= 5.0
  {
    if p.avgGrade == 0.0 {
      TruncateOnScale(w.currentGrade);
      TruncateOnScale(w.bestGrade);
      TruncateOnScale(w.worstGrade);
    } else {
      MixWithin(p.avgGrade, w.currentGrade, po, 1.0, 5.0);
      MixWithin(p.avgGrade, w.bestGrade, po, 1.0, 5.0);
      MixWithin(p.avgGrade, w.worstGrade, po, 1.0, 5.0);
      TruncateOnScale(Mix(p.avgGrade, w.currentGrade, po));
      TruncateOnScale(Mix(p.avgGrade, w.bestGrade, po));
      TruncateOnScale(Mix(p.avgGrade, w.worstGrade, po));
    }
  }

  /**
    * The corrected overall grade of the all-recognized example is 1.0.
    * `n` is fixed to six, the number of elective slots; it is a parameter only so that `Repeat` is not unfolded.
    */
  lemma {:induction false} AllRecognizedCorrected(n: nat, po: PO)
    requires n == TotalWPSlots
    ensures CorrectedFinalGrade(PflichtStatsOf(Repeat(Recognized, 10)),
                                WahlAbschlussStatsOf(Repeat(Slot(Module("WP"), Numeric(100.0)), n),
                                                     Numeric(100.0), Numeric(100.0), po), po)
            == FinalGrade(1.0, 1.0, 1.0)
  {
    ExampleAllRecognized();
    GetGradeIsGradeOf(100.0);
    UniformExample(n, 100.0, po);
    TruncateOneDecimalExact(1.0, 10);
  }
}
