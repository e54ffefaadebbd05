/**
  * The mandatory area ("Pflichtbereich"): ten catalog modules, each with a
  * score entry. The entries are folded into counters, an average grade and
  * the pass predicate of the examination regulations: at least one entry,
  * at least 500 points in all (a recognized module counts as 50), at most
  * two modules under 50 points and none under 25.
  *
  * The entries are given in catalog order, one per catalog module.
  */
module Pflicht {
  import opened Common
  import opened GradeScale

  /** The counters the source keeps while walking the catalog. */
  datatype Tally = Tally(
    graded: nat,       // numeric entries
    recognized: nat,   // entries marked "A"
    gradedSum: real,   // sum of the numeric entries (for the average)
    allPoints: real,   // numeric points plus 50 per recognized entry (for the 500-point rule)
    under50: nat,      // numeric entries below 50
    under25: nat)      // numeric entries below 25

  const NoEntries: Tally := Tally(0, 0, 0.0, 0.0, 0, 0)

  /** The effect of one entry on the counters. */
  function Step(t: Tally, s: Score): Tally {
    match s
    case Empty => t
    case Recognized => t.(recognized := t.recognized + 1, allPoints := t.allPoints + 50.0)
    case Numeric(p) =>
      t.(graded := t.graded + 1, gradedSum := t.gradedSum + p, allPoints := t.allPoints + p,
         under50 := t.under50 + (if p < 50.0 then 1 else 0),
         under25 := t.under25 + (if p < 25.0 then 1 else 0))
  }

  /** The counters after walking `entries` from first to last. */
  function TallyOf(entries: seq<Score>): Tally {
    if entries == [] then NoEntries
    else Step(TallyOf(entries[..|entries| - 1]), entries[|entries| - 1])
  }

  /** Field-wise sum of two tallies. */
  function Add(t: Tally, u: Tally): Tally {
    Tally(t.graded + u.graded, t.recognized + u.recognized, t.gradedSum + u.gradedSum,
          t.allPoints + u.allPoints, t.under50 + u.under50, t.under25 + u.under25)
  }

  /** The result record of the mandatory area. */
  datatype PflichtStats = PflichtStats(
    avgPoints: real,                 // mean of the numeric entries, truncated to one decimal
    avgGrade: real,                  // grade of that mean, or 0 when the mean is not positive
    placeholderPoints: Option<int>,  // the mean rounded half up, when some entry is numeric
    hasData: bool,
    recognizedCount: nat,
    totalPoints: real,
    modulesUnder50: nat,
    modulesUnder25: nat,
    requirementsMet: bool)

  /** Mean of the numeric entries, 0 when there are none. */
  function MeanPoints(t: Tally): real {
    if t.graded > 0 then t.gradedSum / t.graded as real else 0.0
  }

  /** The record the source builds from its counters once the walk is done. */
  function Finish(t: Tally): PflichtStats {
    var mean := MeanPoints(t);
    PflichtStats(
      avgPoints := Truncate(mean, 1),
      avgGrade := if mean > 0.0 then GetGrade(mean) else 0.0,
      placeholderPoints := if t.graded > 0 then Some(RoundHalfUp(mean)) else None,
      hasData := t.graded > 0 || t.recognized > 0,
      recognizedCount := t.recognized,
      totalPoints := t.allPoints,
      modulesUnder50 := t.under50,
      modulesUnder25 := t.under25,
      requirementsMet := t.graded + t.recognized > 0 && t.allPoints >= 500.0
                         && t.under50 <= 2 && t.under25 == 0)
  }

  /** The mandatory-area statistics of `entries`, as a function. */
  function PflichtStatsOf(entries: seq<Score>): PflichtStats {
    Finish(TallyOf(entries))
  }

  /** Walks the catalog once, updating six counters, then builds the result record. */
  method CalculatePflichtStats(entries: seq<Score>) returns (stats: PflichtStats)
    ensures stats == PflichtStatsOf(entries)
  {
    var totalPoints, count, modulesUnder50, modulesUnder25 := 0.0, 0, 0, 0;
    var sumAllPoints, recognizedCount := 0.0, 0;
    var i := 0;
    while i < |entries|
      invariant 0 <= i <= |entries|
      invariant Tally(count, recognizedCount, totalPoints, sumAllPoints, modulesUnder50, modulesUnder25)
                == TallyOf(entries[..i])
    {
      assert entries[..i + 1][..i] == entries[..i];
      match entries[i] {
        case Empty =>
        case Recognized =>
          recognizedCount := recognizedCount + 1;
          sumAllPoints := sumAllPoints + 50.0;
        case Numeric(points) =>
          totalPoints := totalPoints + points;
          sumAllPoints := sumAllPoints + points;
          count := count + 1;
          if points < 50.0 {
            modulesUnder50 := modulesUnder50 + 1;
          }
          if points < 25.0 {
            modulesUnder25 := modulesUnder25 + 1;
          }
      }
      i := i + 1;
    }
    assert entries[..i] == entries;
    stats := Finish(Tally(count, recognizedCount, totalPoints, sumAllPoints, modulesUnder50, modulesUnder25));
  }

  // ---------------------------------------------------------------------------
  // Properties of the fold
  // ---------------------------------------------------------------------------

  /** Walking `a` then `b` adds up the two walks: the fold is a sum over entries. */
  lemma {:induction false} TallyAppend(a: seq<Score>, b: seq<Score>)
    ensures TallyOf(a + b) == Add(TallyOf(a), TallyOf(b))
  {
    if b == [] {
      assert a + b == a;
      AddNoEntries(TallyOf(a));
    } else {
      var b', last := b[..|b| - 1], b[|b| - 1];
      assert (a + b)[..|a + b| - 1] == a + b';
      assert (a + b)[|a + b| - 1] == last;
      calc {
        TallyOf(a + b);
        Step(TallyOf(a + b'), last);
        { TallyAppend(a, b'); }
        Step(Add(TallyOf(a), TallyOf(b')), last);
        { StepAdd(TallyOf(a), TallyOf(b'), last); }
        Add(TallyOf(a), Step(TallyOf(b'), last));
        Add(TallyOf(a), TallyOf(b));
      }
    }
  }

  lemma {:induction false} AddNoEntries(t: Tally)
    ensures Add(t, NoEntries) == t
  {}

  /** Taking a step after a sum is taking it on the second summand. */
  lemma {:induction false} StepAdd(t: Tally, u: Tally, s: Score)
    ensures Step(Add(t, u), s) == Add(t, Step(u, s))
  {}

  /** The catalog order does not matter: any reordering of the entries keeps every counter. */
  lemma {:induction false} TallyOrderIndependent(a: seq<Score>, b: seq<Score>)
    requires multiset(a) == multiset(b)
    ensures TallyOf(a) == TallyOf(b)
    decreases |a|
  {
    if a == [] {
      assert |b| == |multiset(b)| == 0;
    } else {
      var a', x := a[..|a| - 1], a[|a| - 1];
      assert a == a' + [x];
      assert x in multiset(b);
      var i :| 0 <= i < |b| && b[i] == x;
      var before, after := b[..i], b[i + 1..];
      assert b == before + [x] + after;
      RemoveOne(a', x, before, after);
      TallyOrderIndependent(a', before + after);
      TallyAppend(a', [x]);
      TallyInsert(before, x, after);
    }
  }

  /** Taking the same entry out of two reorderings leaves two reorderings. */
  lemma {:induction false} RemoveOne(a: seq<Score>, x: Score, before: seq<Score>, after: seq<Score>)
    requires multiset(a + [x]) == multiset(before + [x] + after)
    ensures multiset(a) == multiset(before + after)
  {
    forall y | true
      ensures multiset(a)[y] == multiset(before + after)[y]
    {
      assert multiset(a + [x])[y] == multiset(a)[y] + multiset([x])[y];
      assert multiset(before + [x] + after)[y] == multiset(before + after)[y] + multiset([x])[y];
    }
  }

  /** An entry in the middle of the catalog counts as if it came last. */
  lemma {:induction false} TallyInsert(before: seq<Score>, x: Score, after: seq<Score>)
    ensures TallyOf(before + [x] + after) == Add(TallyOf(before + after), TallyOf([x]))
  {
    var p, one, q := TallyOf(before), TallyOf([x]), TallyOf(after);
    calc {
      TallyOf(before + [x] + after);
      { TallyAppend(before + [x], after); }
      Add(TallyOf(before + [x]), q);
      { TallyAppend(before, [x]); }
      Add(Add(p, one), q);
      { AddSwap(p, one, q); }
      Add(Add(p, q), one);
      { TallyAppend(before, after); }
      Add(TallyOf(before + after), one);
    }
  }

  /** Field-wise sums may be taken in any order. */
  lemma {:induction false} AddSwap(t: Tally, u: Tally, v: Tally)
    ensures Add(Add(t, u), v) == Add(Add(t, v), u)
  {}

  /** The 500-point total is the numeric sum plus 50 for every recognized entry. */
  lemma {:induction false} AllPointsSplit(entries: seq<Score>)
    ensures TallyOf(entries).allPoints == TallyOf(entries).gradedSum + 50.0 * TallyOf(entries).recognized as real
  {
    if entries != [] {
      AllPointsSplit(entries[..|entries| - 1]);
    }
  }

  /** Under-25 entries are among the under-50 ones, which are among the graded ones. */
  lemma {:induction false} CountsNested(entries: seq<Score>)
    ensures TallyOf(entries).under25 <= TallyOf(entries).under50 <= TallyOf(entries).graded
    ensures TallyOf(entries).graded + TallyOf(entries).recognized <= |entries|
  {
    if entries != [] {
      CountsNested(entries[..|entries| - 1]);
    }
  }

  /** Some entry is counted exactly when some entry is not blank. */
  lemma {:induction false} CountedIffNonEmpty(entries: seq<Score>)
    ensures TallyOf(entries).graded + TallyOf(entries).recognized > 0
            <==> exists i :: 0 <= i < |entries| && entries[i] != Empty
  {
    if entries != [] {
      var init := entries[..|entries| - 1];
      CountedIffNonEmpty(init);
      if exists i :: 0 <= i < |init| && init[i] != Empty {
        var i :| 0 <= i < |init| && init[i] != Empty;
        assert entries[i] == init[i];
      }
      if exists i :: 0 <= i < |entries| && entries[i] != Empty {
        var i :| 0 <= i < |entries| && entries[i] != Empty;
        if i < |init| { assert init[i] == entries[i]; }
      }
    }
  }

  /** No entry is counted under 25 exactly when every numeric entry has at least 25 points. */
  lemma {:induction false} NoneUnder25Iff(entries: seq<Score>)
    ensures TallyOf(entries).under25 == 0
            <==> forall i :: 0 <= i < |entries| && entries[i].Numeric? ==> entries[i].points >= 25.0
  {
    if entries != [] {
      var init := entries[..|entries| - 1];
      NoneUnder25Iff(init);
      if forall i :: 0 <= i < |entries| && entries[i].Numeric? ==> entries[i].points >= 25.0 {
        forall i | 0 <= i < |init| && init[i].Numeric? ensures init[i].points >= 25.0 {
          assert init[i] == entries[i];
        }
      }
      if TallyOf(entries).under25 == 0 {
        forall i | 0 <= i < |entries| && entries[i].Numeric? ensures entries[i].points >= 25.0 {
          if i < |init| { assert init[i] == entries[i]; }
        }
      }
    }
  }

  /** With scores in [0, 100] the numeric sum lies between 0 and 100 per graded entry. */
  lemma {:induction false} GradedSumBounds(entries: seq<Score>)
    requires forall i :: 0 <= i < |entries| ==> ValidScore(entries[i])
    ensures 0.0 <= TallyOf(entries).gradedSum <= 100.0 * TallyOf(entries).graded as real
  {
    if entries != [] {
      GradedSumBounds(entries[..|entries| - 1]);
    }
  }

  /**
    * Turning a recognized entry into a blank one only takes away one
    * recognition and its 50 points: recognized modules touch neither the
    * average nor the under-50 and under-25 counts.
    */
  lemma {:induction false} RecognizedOnlyAddsFifty(entries: seq<Score>, i: nat)
    requires i < |entries| && entries[i] == Recognized
    ensures var t, u := TallyOf(entries), TallyOf(entries[i := Empty]);
            u.recognized + 1 == t.recognized && u.allPoints + 50.0 == t.allPoints
            && u.graded == t.graded && u.gradedSum == t.gradedSum
            && u.under50 == t.under50 && u.under25 == t.under25
  {
    var pre, post := entries[..i], entries[i + 1..];
    assert entries == pre + [Recognized] + post;
    assert entries[i := Empty] == pre + [Empty] + post;
    TallyAppend(pre + [Recognized], post);
    TallyAppend(pre + [Empty], post);
    TallyAppend(pre, [Recognized]);
    TallyAppend(pre, [Empty]);
  }

  // ---------------------------------------------------------------------------
  // Properties of the result record
  // ---------------------------------------------------------------------------

  /**
    * The pass predicate in terms of the entries themselves: some entry is
    * filled in, the numeric points plus 50 per recognition reach 500, at most
    * two numeric entries are under 50, and no numeric entry is under 25.
    */
  lemma {:induction false} RequirementsMetIff(entries: seq<Score>)
    ensures var t := TallyOf(entries);
            PflichtStatsOf(entries).requirementsMet
            <==> (exists i :: 0 <= i < |entries| && entries[i] != Empty)
                 && t.gradedSum + 50.0 * t.recognized as real >= 500.0
                 && t.under50 <= 2
                 && (forall i :: 0 <= i < |entries| && entries[i].Numeric? ==> entries[i].points >= 25.0)
  {
    CountedIffNonEmpty(entries);
    AllPointsSplit(entries);
    NoneUnder25Iff(entries);
  }

  /** The record has data exactly when some entry is not blank. */
  lemma {:induction false} HasDataIff(entries: seq<Score>)
    ensures PflichtStatsOf(entries).hasData <==> exists i :: 0 <= i < |entries| && entries[i] != Empty
  {
    CountedIffNonEmpty(entries);
  }

  /** With scores in [0, 100] the mean of the numeric entries lies in [0, 100]. */
  lemma {:induction false} MeanPointsBounds(entries: seq<Score>)
    requires forall i :: 0 <= i < |entries| ==> ValidScore(entries[i])
    ensures 0.0 <= MeanPoints(TallyOf(entries)) <= 100.0
    ensures MeanPoints(TallyOf(entries)) == 0.0 <==> TallyOf(entries).gradedSum == 0.0
  {
    var t := TallyOf(entries);
    GradedSumBounds(entries);
    if t.graded > 0 {
      RatioBounds(t.gradedSum, t.graded as real, 100.0);
    }
  }

  /**
    * The average grade is 0 exactly when no numeric points were earned (no
    * numeric entry, or only zeros); otherwise it is the grade of the mean of
    * the numeric entries, a pass grade exactly when that mean reaches 50.
    */
  lemma {:induction false} AverageGradeMeaning(entries: seq<Score>)
    requires forall i :: 0 <= i < |entries| ==> ValidScore(entries[i])
    ensures var t, stats := TallyOf(entries), PflichtStatsOf(entries);
            && (stats.avgGrade == 0.0 <==> t.gradedSum == 0.0)
            && (t.gradedSum > 0.0 ==> stats.avgGrade == GetGrade(MeanPoints(t)))
            && (stats.avgGrade != 0.0 ==> (stats.avgGrade <= 4.0 <==> MeanPoints(t) >= 50.0))
  {
    MeanPointsBounds(entries);
    GetGradeRange(MeanPoints(TallyOf(entries)));
  }

  /** A sum of `n` values in [0, c] divided by `n` lies in [0, c]. */
  lemma {:induction false} RatioBounds(sum: real, n: real, c: real)
    requires n > 0.0 && 0.0 <= sum <= c * n
    ensures 0.0 <= sum / n <= c
    ensures sum / n == 0.0 <==> sum == 0.0
  {
    assert sum / n * n == sum;
  }

  /** The shown mean is the mean of the numeric entries cut (never rounded) to one decimal. */
  lemma {:induction false} AveragePointsMeaning(entries: seq<Score>)
    requires forall i :: 0 <= i < |entries| ==> ValidScore(entries[i])
    ensures var mean, shown := MeanPoints(TallyOf(entries)), PflichtStatsOf(entries).avgPoints;
            0.0 <= shown <= mean < shown + 0.1 && shown <= 100.0
  {
    var mean := MeanPoints(TallyOf(entries));
    assert PflichtStatsOf(entries).avgPoints == Truncate(mean, 1);
    MeanPointsBounds(entries);
    TruncateNonNegative(mean, 1);
    TruncateOneDecimal(mean);
  }

  // ---------------------------------------------------------------------------
  // The catalog scenarios pinned by the source's test suite (ten modules)
  // ---------------------------------------------------------------------------

  /** `n` times every counter of `t`. */
  function Scaled(t: Tally, n: nat): Tally {
    Tally(n * t.graded, n * t.recognized, n as real * t.gradedSum, n as real * t.allPoints,
          n * t.under50, n * t.under25)
  }

  /** `n` copies of one entry count `n` times what the entry counts alone. */
  lemma {:induction false} TallyRepeat(s: Score, n: nat)
    ensures TallyOf(Repeat(s, n)) == Scaled(Step(NoEntries, s), n)
  {
    if n > 0 {
      assert Repeat(s, n)[..n - 1] == Repeat(s, n - 1);
      assert Repeat(s, n)[n - 1] == s;
      TallyRepeat(s, n - 1);
      StepScaled(s, n - 1);
    }
  }

  /** One more copy of an entry adds one more multiple of its counts. */
  lemma {:induction false} StepScaled(s: Score, n: nat)
    ensures Step(Scaled(Step(NoEntries, s), n), s) == Scaled(Step(NoEntries, s), n + 1)
  {
    match s {
      case Empty =>
      case Recognized =>
        assert (n + 1) as real * 50.0 == n as real * 50.0 + 50.0;
      case Numeric(p) =>
        assert (n + 1) as real * p == n as real * p + p;
        assert (n + 1) as real * (0.0 + p) == n as real * (0.0 + p) + p;
    }
  }

  /** Two blocks of repeated entries. */
  lemma {:induction false} TallyTwoBlocks(s: Score, m: nat, u: Score, n: nat)
    ensures TallyOf(Repeat(s, m) + Repeat(u, n))
            == Add(Scaled(Step(NoEntries, s), m), Scaled(Step(NoEntries, u), n))
  {
    TallyAppend(Repeat(s, m), Repeat(u, n));
    TallyRepeat(s, m);
    TallyRepeat(u, n);
  }

  /** The shown mean and grade of a tally whose numeric mean has at most one decimal. */
  lemma {:induction false} FinishWithMean(t: Tally, mean: real, tenths: int)
    requires t.graded > 0 && t.gradedSum == mean * t.graded as real && mean * 10.0 == tenths as real
    ensures Finish(t).avgPoints == mean
    ensures Finish(t).avgGrade == if mean > 0.0 then GetGrade(mean) else 0.0
  {
    assert MeanPoints(t) == mean;
    TruncateOneDecimalExact(mean, tenths);
  }

  /** One entry followed by a block of repeated entries. */
  lemma {:induction false} TallyOneThenBlock(s: Score, u: Score, n: nat)
    ensures TallyOf([s] + Repeat(u, n)) == Add(Step(NoEntries, s), Scaled(Step(NoEntries, u), n))
  {
    TallyAppend([s], Repeat(u, n));
    TallyRepeat(u, n);
    assert [s][..0] == [];
  }

  /** Ten modules at the same passing points `p`: the mean is `p` itself, and the area passes. */
  lemma {:induction false} ExampleUniform(p: real, tenths: int)
    requires 50.0 <= p <= 100.0 && p * 10.0 == tenths as real
    ensures var st := PflichtStatsOf(Repeat(Numeric(p), 10));
            st.avgPoints == p && st.avgGrade == GetGrade(p) && st.totalPoints == 10.0 * p
            && st.modulesUnder50 == 0 && st.modulesUnder25 == 0 && st.requirementsMet && st.hasData
  {
    TallyRepeat(Numeric(p), 10);
    var t := TallyOf(Repeat(Numeric(p), 10));
    assert t == Tally(10, 0, 10.0 * p, 10.0 * p, 0, 0);
    FinishWithMean(t, p, tenths);
  }

  lemma {:induction false} ExampleAllFifty()
    ensures var st := PflichtStatsOf(Repeat(Numeric(50.0), 10));
            st.avgPoints == 50.0 && st.avgGrade == 4.0 && st.totalPoints == 500.0
            && st.modulesUnder50 == 0 && st.modulesUnder25 == 0 && st.requirementsMet && st.hasData
  {
    TallyRepeat(Numeric(50.0), 10);
    var t := TallyOf(Repeat(Numeric(50.0), 10));
    assert t == Tally(10, 0, 500.0, 500.0, 0, 0);
    FinishWithMean(t, 50.0, 500);
    GetGradeExamples();
  }

  lemma {:induction false} ExampleAllHundred()
    ensures var st := PflichtStatsOf(Repeat(Numeric(100.0), 10));
            st.avgPoints == 100.0 && st.avgGrade == 1.0 && st.totalPoints == 1000.0
            && st.modulesUnder50 == 0 && st.modulesUnder25 == 0 && st.requirementsMet && st.hasData
  {
    TallyRepeat(Numeric(100.0), 10);
    var t := TallyOf(Repeat(Numeric(100.0), 10));
    assert t == Tally(10, 0, 1000.0, 1000.0, 0, 0);
    FinishWithMean(t, 100.0, 1000);
    GetGradeExamples();
  }

  lemma {:induction false} ExampleBelow500()
    ensures var st := PflichtStatsOf(Repeat(Numeric(49.0), 9) + [Numeric(52.0)]);
            st.totalPoints == 493.0 && !st.requirementsMet
  {
    TallyTwoBlocks(Numeric(49.0), 9, Numeric(52.0), 1);
    assert Repeat(Numeric(52.0), 1) == [Numeric(52.0)];
  }

  lemma {:induction false} ExampleUnder50()
    ensures var st := PflichtStatsOf(Repeat(Numeric(45.0), 2) + Repeat(Numeric(60.0), 8));
            st.modulesUnder50 == 2 && st.modulesUnder25 == 0 && st.requirementsMet
    ensures var st := PflichtStatsOf(Repeat(Numeric(45.0), 3) + Repeat(Numeric(60.0), 7));
            st.modulesUnder50 == 3 && !st.requirementsMet
  {
    TallyTwoBlocks(Numeric(45.0), 2, Numeric(60.0), 8);
    TallyTwoBlocks(Numeric(45.0), 3, Numeric(60.0), 7);
  }

  lemma {:induction false} ExampleUnder25()
    ensures var st := PflichtStatsOf([Numeric(24.0)] + Repeat(Numeric(60.0), 9));
            st.modulesUnder25 == 1 && !st.requirementsMet
    ensures var st := PflichtStatsOf([Numeric(25.0)] + Repeat(Numeric(60.0), 9));
            st.modulesUnder50 == 1 && st.modulesUnder25 == 0 && st.requirementsMet
  {
    TallyOneThenBlock(Numeric(24.0), Numeric(60.0), 9);
    TallyOneThenBlock(Numeric(25.0), Numeric(60.0), 9);
  }

  lemma {:induction false} OneRecognizedTally(n: nat)
    ensures TallyOf([Recognized] + Repeat(Numeric(100.0), n))
            == Tally(n, 1, 100.0 * n as real, 100.0 * n as real + 50.0, 0, 0)
  {
    TallyOneThenBlock(Recognized, Numeric(100.0), n);
  }

  lemma {:induction false} ExampleOneRecognized()
    ensures var st := PflichtStatsOf([Recognized] + Repeat(Numeric(100.0), 9));
            st.recognizedCount == 1 && st.totalPoints == 950.0 && st.avgPoints == 100.0
            && st.avgGrade == 1.0 && st.requirementsMet
  {
    OneRecognizedTally(9);
    FinishWithMean(Tally(9, 1, 900.0, 950.0, 0, 0), 100.0, 1000);
    GetGradeExamples();
  }

  lemma {:induction false} ExampleAllRecognized()
    ensures var st := PflichtStatsOf(Repeat(Recognized, 10));
            st.recognizedCount == 10 && st.totalPoints == 500.0 && st.avgPoints == 0.0
            && st.avgGrade == 0.0 && st.requirementsMet && st.hasData
  {
    TallyRepeat(Recognized, 10);
    var t := TallyOf(Repeat(Recognized, 10));
    assert t == Tally(0, 10, 0.0, 500.0, 0, 0);
    TruncateOneDecimalExact(0.0, 0);
  }

  lemma {:induction false} ExampleBlank()
    ensures var st := PflichtStatsOf(Repeat(Empty, 10));
            !st.hasData && st.avgPoints == 0.0 && st.totalPoints == 0.0 && !st.requirementsMet
  {
    TallyRepeat(Empty, 10);
    assert TallyOf(Repeat(Empty, 10)) == NoEntries;
    TruncateOneDecimalExact(0.0, 0);
  }

  lemma {:induction false} PartialHead()
    ensures TallyOf([Numeric(80.0), Numeric(75.0)]) == Tally(2, 0, 155.0, 155.0, 0, 0)
  {
    assert [Numeric(80.0), Numeric(75.0)][..1] == [Numeric(80.0)];
  }

  lemma {:induction false} PartialTally(n: nat)
    ensures TallyOf([Numeric(80.0), Numeric(75.0)] + Repeat(Empty, n)) == Tally(2, 0, 155.0, 155.0, 0, 0)
  {
    var head := [Numeric(80.0), Numeric(75.0)];
    TallyRepeat(Empty, n);
    TallyAppend(head, Repeat(Empty, n));
    PartialHead();
    assert Step(NoEntries, Empty) == NoEntries;
    assert Scaled(NoEntries, n) == NoEntries;
    AddNoEntries(TallyOf(head));
  }

  lemma {:induction false} ExamplePartial()
    ensures var st := PflichtStatsOf([Numeric(80.0), Numeric(75.0)] + Repeat(Empty, 8));
            st.hasData && st.avgPoints == 77.5 && st.totalPoints == 155.0 && !st.requirementsMet
  {
    PartialTally(8);
    FinishWithMean(Tally(2, 0, 155.0, 155.0, 0, 0), 77.5, 775);
  }
}
