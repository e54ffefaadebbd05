# Grade calculator for the WiWi bachelor (FernUniversität Hagen), modelled in Dafny

The calculator works out a bachelor's overall grade from three groups of
score entries. Each entry is blank, the recognition marker "A" (credit
granted without a grade), or a number of points from 0 to 100. The areas are:

- the mandatory area ("Pflichtbereich"): ten catalog modules;
- six elective slots ("Wahlpflicht"), each holding nothing, the non-graded
  competency credit "ÜK", or a chosen module with its score;
- the completion part ("Abschluss"): seminar and thesis.

Points become grades through a fixed table, from 95 points for 1.0 down to
50 points for 4.0 and 5.0 below that. The mandatory area is folded into
counters, an average and a pass predicate: at least 500 points, with a
recognized module counting as 50; at most two modules under 50 points; none
under 25.

The elective and completion area is computed in three scenarios:

- current: the entries as they are;
- best: 1.0 filled in for every elective slot that holds no module (a slot
  holding ÜK included, see "## Findings"), and for a blank seminar or thesis;
- worst: the same with 4.0.

A slot with a chosen module but a blank or "A" score gets no filler grade and
contributes nothing to the elective average.

Each scenario mixes the elective average and the completion average. The
weights depend on the examination regulation (PO 2023 or PO 2025) and, under
PO 2025, on whether ÜK is used. Under PO 2025 the thesis also counts twice.
An average with nothing in it is 0 and is still weighted, so a current
scenario with only some entries can lie below 1.0 (one elective at 100
points alone gives 2/3).

The overall grade mixes the two areas, 20/80 (PO 2023) or 25/75 (PO 2025).
It is cut, never rounded, to one decimal. It is reported as 0 when nothing
was entered, or when the mandatory area has entries but fails.

Modules:

- `Common`: `Option` and `Repeat`.
- `GradeScale`: the table lookup, decimal truncation and round-half-up.
- `Pflicht`: the mandatory area. The catalog walk is a method with a loop
  invariant against a fold over the entries.
- `WahlAbschluss`: the scenarios and the area's statistics. The slot walks,
  the filler padding, the completion sum and the placeholder average are
  methods proved against functions.
- `FinalGrading`: the overall grade, its properties, and the examples pinned
  by the source's test suite.

Numbers are exact reals. The source's IEEE doubles are not modelled.

## Model

| member | source | states |
|---|---|---|
| GradeScale.FindBandFirst | src/utils/gradeCalculations.ts:12-15 | the scan finds nothing iff every band's minimum exceeds the points, and otherwise returns the grade of the first band whose minimum is at or below them |
| GradeScale.GetGrade | src/utils/gradeCalculations.ts:12-15 | the grade of the first band whose minimum is at or below the points, 5.0 if none; always within [1.0, 5.0] (its full meaning is fixed by GetGradeIsGradeOf) |
| GradeScale.GetGradeIsGradeOf | src/utils/gradeCalculations.ts:3-15 | the table lookup agrees on every real (negative ones included) with the interval definition 95/90/85/…/50 → 1.0/1.3/1.7/…/4.0, else 5.0 |
| GradeScale.GetGradeMonotone | src/utils/gradeCalculations.ts:3-15 | more points never give a worse grade |
| GradeScale.GetGradeRange | src/utils/gradeCalculations.ts:3-15 | every grade is one of the eleven table grades, lies in [1.0, 5.0], and is a pass (≤ 4.0) iff the points reach 50 |
| GradeScale.GetGradeExamples | src/utils/gradeCalculations.test.ts:26-105 | the thresholds and decimal inputs pinned by the tests (95.5 → 1.0, 94.999 → 1.3, 49 → 5.0, …) |
| GradeScale.Pow10 | src/utils/gradeCalculations.ts:18 | the truncation factor is at least 1 |
| GradeScale.Truncate | src/utils/gradeCalculations.ts:17-20 | the result is the floor of x·10^d divided back, so it is the largest multiple of 10^-d not above x: r ≤ x < r + 10^-d |
| GradeScale.TruncateOneDecimal | src/utils/gradeCalculations.ts:17-20 | one-decimal truncation lies within 0.1 below its input and is a whole number of tenths |
| GradeScale.TruncateOneDecimalExact | src/utils/gradeCalculations.ts:17-20 | a value that already has one decimal is left unchanged |
| GradeScale.TruncateNonNegative | src/utils/gradeCalculations.ts:17-20 | truncating a non-negative value gives a non-negative value |
| GradeScale.TruncateMonotone | src/utils/gradeCalculations.ts:17-20 | truncation preserves order |
| GradeScale.TruncateExamples | src/utils/gradeCalculations.test.ts:108-121 | 2.456 → 2.4, 1.999 → 1.9, 2.99999 → 2.9, 1.55555 → 1.5 (never rounded up) |
| GradeScale.TruncateExamplesTwoDecimals | src/utils/gradeCalculations.test.ts:113-116 | 2.456 → 2.45 and 1.999 → 1.99 at two decimals |
| GradeScale.RoundHalfUp | src/utils/gradeCalculations.ts:239 | Math.round: the result is within a half of x, halves going up |
| Pflicht.CalculatePflichtStats | src/utils/gradeCalculations.ts:68-126 | the catalog walk with its six counters returns exactly the record of the fold over the entries (loop invariant: counters = fold of the prefix) |
| Pflicht.TallyAppend | src/utils/gradeCalculations.ts:79-100 | walking a + b gives the field-wise sum of the walks of a and b |
| Pflicht.TallyOrderIndependent | src/utils/gradeCalculations.ts:79-100 | any reordering of the entries (the same multiset) gives the same counters |
| Pflicht.AllPointsSplit | src/utils/gradeCalculations.ts:82-89 | the points for the 500-point rule are the numeric points plus 50 per recognized module |
| Pflicht.CountsNested | src/utils/gradeCalculations.ts:87-98 | under-25 count ≤ under-50 count ≤ graded count, and graded plus recognized ≤ number of entries |
| Pflicht.CountedIffNonEmpty | src/utils/gradeCalculations.ts:79-100 | some module is counted iff some entry is not blank |
| Pflicht.NoneUnder25Iff | src/utils/gradeCalculations.ts:92-113 | the under-25 counter is 0 iff every numeric entry has at least 25 points |
| Pflicht.GradedSumBounds | src/utils/gradeCalculations.ts:86-89 | with entries in [0, 100], the numeric sum lies in [0, 100 · graded] |
| Pflicht.RecognizedOnlyAddsFifty | src/utils/gradeCalculations.ts:82-85 | blanking one recognized entry removes exactly one recognition and 50 points and changes no other counter |
| Pflicht.RequirementsMetIff | src/utils/gradeCalculations.ts:105-113 | the area passes iff some entry is filled in, numeric points plus 50 per recognition reach 500, at most two numeric entries are under 50, and no numeric entry is under 25 |
| Pflicht.HasDataIff | src/utils/gradeCalculations.ts:119 | the area has data iff some entry is not blank |
| Pflicht.MeanPointsBounds | src/utils/gradeCalculations.ts:102 | the mean of the numeric entries lies in [0, 100] and is 0 iff their sum is 0 |
| Pflicht.AverageGradeMeaning | src/utils/gradeCalculations.ts:102-103 | the average grade is 0 iff no numeric points were earned; otherwise it is the grade of the mean, a pass iff the mean reaches 50 |
| Pflicht.AveragePointsMeaning | src/utils/gradeCalculations.ts:116 | the shown mean is the true mean cut down to one decimal: shown ≤ mean < shown + 0.1, within [0, 100] |
| Pflicht.ExampleUniform | src/utils/gradeCalculations.ts:68-126 | ten modules at the same passing points p with one decimal: mean p, grade of p, total 10·p, requirements met |
| Pflicht.ExampleAllFifty | src/utils/gradeCalculations.test.ts:126-140 | all 50: mean 50.0, grade 4.0, total 500, requirements met |
| Pflicht.ExampleAllHundred | src/utils/gradeCalculations.test.ts:143-157 | all 100: mean 100.0, grade 1.0, total 1000, requirements met |
| Pflicht.ExampleBelow500 | src/utils/gradeCalculations.test.ts:160-178 | nine at 49 and one at 52: total 493, requirements not met |
| Pflicht.ExampleUnder50 | src/utils/gradeCalculations.test.ts:191-230 | two modules under 50 pass, three fail |
| Pflicht.ExampleUnder25 | src/utils/gradeCalculations.test.ts:232-272 | one module at 24 fails; at 25 it passes |
| Pflicht.ExampleOneRecognized | src/utils/gradeCalculations.test.ts:275-296 | one "A" and nine at 100: total 950, mean 100.0, grade 1.0, requirements met |
| Pflicht.ExampleAllRecognized | src/utils/gradeCalculations.test.ts:298-311 | all "A": total 500, mean 0, grade 0, requirements met, has data |
| Pflicht.ExampleBlank | src/utils/gradeCalculations.test.ts:314-324 | all blank: no data, mean 0, total 0, requirements not met |
| Pflicht.ExamplePartial | src/utils/gradeCalculations.test.ts:326-346 | 80, 75 and eight blanks: has data, mean 77.5, total 155, requirements not met |
| WahlAbschluss.Weights | src/utils/gradeCalculations.ts:188-202 | the elective weight is positive and larger than the completion weight |
| WahlAbschluss.WeightsSumToOne | src/utils/gradeCalculations.ts:188-202 | the two weights sum to 1 in all three configurations |
| WahlAbschluss.CollectWPGrades | src/utils/gradeCalculations.ts:137-142 | the slot walk returns the grades of exactly the slots holding a module other than ÜK with numeric points, in slot order |
| WahlAbschluss.AppendFiller | src/utils/gradeCalculations.ts:151-160 | the padded list is the input followed by `missing` copies of the filler when there is a filler and something is missing, and is unchanged otherwise |
| WahlAbschluss.AverageCompletion | src/utils/gradeCalculations.ts:167-186 | the completion average is the weighted mean of the present seminar and thesis grades, the thesis counted twice under PO 2025, and 0 when neither is present |
| WahlAbschluss.OrNull | src/utils/gradeCalculations.ts:145-146 | the filler's or-null fallback: no grade exactly when the filler is absent or 0, and otherwise the filler itself |
| WahlAbschluss.PartGrade | src/utils/gradeCalculations.ts:145-146 | seminar or thesis grade: absent exactly when the entry is blank and the filler is absent or 0; a blank entry otherwise takes the filler; numeric points and "A" (not-a-number points, no band matches) give a grade within [1.0, 5.0] |
| WahlAbschluss.ScenarioWeights | src/utils/gradeCalculations.ts:188-202 | the weights chosen are 3/4 and 1/4, or under PO 2025 5/8 and 3/8 with ÜK and 2/3 and 1/3 without |
| WahlAbschluss.CalculateScenario | src/utils/gradeCalculations.ts:135-215 | one scenario returns exactly the specification record: elective mean, completion mean, weights, their mix, and whether any grade took part |
| WahlAbschluss.AveragePointsForPlaceholder | src/utils/gradeCalculations.ts:222-239 | the placeholder is the mean of every numeric point value entered in graded slots, seminar and thesis, rounded half up, and absent when there is none |
| WahlAbschluss.CalculateWahlAbschlussStats | src/utils/gradeCalculations.ts:128-256 | the area's record is the three scenarios (no filler, 1.0, 4.0) and the placeholder, with non-positive averages hidden and weights in whole percent |
| WahlAbschluss.CollectedGradesOfEntered | src/utils/gradeCalculations.ts:225-230 | the grade walk and the placeholder walk select the same slots: grade i is the grade of point value i |
| WahlAbschluss.GradedAreOccupied | src/utils/gradeCalculations.ts:153 | graded slots ≤ filled slots ≤ slots |
| WahlAbschluss.CollectedGradesNonEmptyIff | src/utils/gradeCalculations.ts:139 | some grade is collected iff some slot holds a module other than ÜK with numeric points |
| WahlAbschluss.CollectedGradesAppend | src/utils/gradeCalculations.ts:138-142 | grades, points and filled count of a + b are those of a followed by those of b |
| WahlAbschluss.UngradedSlotIgnored | src/utils/gradeCalculations.ts:139 | removing a slot that is open, ÜK, blank or recognized leaves the collected grades unchanged |
| WahlAbschluss.MissingIgnoresPoints | src/utils/gradeCalculations.ts:149-154 | changing a slot's score changes neither the filled count nor whether ÜK is used |
| WahlAbschluss.OccupiedChoiceOnly | src/utils/gradeCalculations.ts:153 | the filled count depends only on the chosen modules |
| WahlAbschluss.ElectiveGradeCount | src/utils/gradeCalculations.ts:151-160 | with a filler, the elective list has six entries minus the filled slots that yield no grade |
| WahlAbschluss.PaddedSum | src/utils/gradeCalculations.ts:156-160 | padding adds max(m, 0) entries and max(m, 0) times the filler to the sum |
| WahlAbschluss.MeanMonotone | src/utils/gradeCalculations.ts:163-165 | of two equally long lists, the one with the larger sum has the larger mean |
| WahlAbschluss.ElectiveMeanMonotone | src/utils/gradeCalculations.ts:151-166 | a larger filler never lowers the elective average |
| WahlAbschluss.CompletionMonotone | src/utils/gradeCalculations.ts:167-186 | larger seminar and thesis grades never lower the completion average |
| WahlAbschluss.ScenarioMonotone | src/utils/gradeCalculations.ts:217-220 | the combined average grows with the filler, so the best case is never worse than the worst |
| WahlAbschluss.ElectiveGradesRange | src/utils/gradeCalculations.ts:137-160 | with no filler or one in [1, 5], every elective grade lies in [1, 5] |
| WahlAbschluss.CompletionBounds | src/utils/gradeCalculations.ts:167-186 | the completion average of grades in [lo, hi] lies in [lo, hi], and is 0 when neither grade is present |
| WahlAbschluss.ElectiveMeanBounds | src/utils/gradeCalculations.ts:162-165 | the elective average lies in [0, 5] |
| WahlAbschluss.PartGradeRange | src/utils/gradeCalculations.ts:145-146 | a seminar or thesis grade lies in [1, 5] when the filler does |
| WahlAbschluss.ScenarioBounds | src/utils/gradeCalculations.ts:204-205 | elective, completion and combined averages of a scenario lie in [0, 5] |
| WahlAbschluss.PrognosisCollapses | src/utils/gradeCalculations.ts:145-160 | with six slots holding a module other than ÜK and seminar and thesis entered, every filler gives the current scenario |
| WahlAbschluss.CurrentHasDataIff | src/utils/gradeCalculations.ts:213 | the current scenario has data iff some slot is graded or seminar or thesis is entered |
| WahlAbschluss.StatsOrdered | src/utils/gradeCalculations.ts:217-252 | best ≤ worst, and current, best and worst lie in [0, 5] |
| WahlAbschluss.StatsHasDataIff | src/utils/gradeCalculations.ts:248 | the area reports data iff some slot holds a module other than ÜK with numeric points, or seminar or thesis has an entry (an elective entered only as "A" does not count); the filled-in scenarios always have data |
| WahlAbschluss.StatsCollapse | src/utils/gradeCalculations.ts:249-252 | six chosen modules other than ÜK, with seminar and thesis entered, make current, best and worst equal |
| WahlAbschluss.WeightPercentages | src/utils/gradeCalculations.ts:244-246 | the displayed percentages are 75/25, 63/38 (PO 2025 with ÜK) and 67/33 (without) |
| WahlAbschluss.ThesisCountsTwiceExample | src/utils/gradeCalculations.test.ts:463-496 | seminar 4.0 and thesis 1.0 average 2.0 under PO 2025 and 2.5 under PO 2023 |
| WahlAbschluss.OneElectiveExample | src/utils/gradeCalculations.test.ts:517-552 | one elective at 100 and five open slots: current 2/3, best 1.0, worst 11/3, completion hidden, placeholder 100 |
| WahlAbschluss.UniformCurrent | src/utils/gradeCalculations.test.ts:373-408 | six electives, seminar and thesis at the same points: the current combined average is the grade of those points |
| WahlAbschluss.UniformExample | src/utils/gradeCalculations.test.ts:373-408 | six electives, seminar and thesis at the same points: current, best and worst are the grade of those points |
| WahlAbschluss.UKSlotPaddedExample | src/utils/gradeCalculations.ts:149-160 | as written: five electives, ÜK, seminar and thesis all entered at 100 under PO 2025 give current and best 1.0 but worst 21/16, because the ÜK slot is padded with 4.0; the corrected scenario gives 1.0 |
| WahlAbschluss.CorrectedScenarioOf | src/utils/gradeCalculations.ts:149-160 | corrected: a slot holding ÜK counts as filled; without filler or without ÜK the scenario is the source's |
| WahlAbschluss.CorrectedPrognosisCollapses | src/utils/gradeCalculations.ts:145-160 | corrected: with six slots holding a module or ÜK and seminar and thesis entered, every filler gives the current scenario |
| FinalGrading.AreaWeights | src/utils/gradeCalculations.ts:280-281 | the mandatory weight is positive and smaller than the elective-area weight |
| FinalGrading.AreaWeightsSumToOne | src/utils/gradeCalculations.ts:280-281 | the two area weights sum to 1 |
| FinalGrading.CalculateFinalGrade | src/utils/gradeCalculations.ts:258-295 | nothing entered, or a failing mandatory area with entries, gives 0/0/0; otherwise each grade is the weighted mix cut to one decimal: g ≤ mix < g + 0.1, with one decimal |
| FinalGrading.FinalGradeOrdered | src/utils/gradeCalculations.ts:286-294 | ordered elective-area prognoses give best ≤ worst overall |
| FinalGrading.FinalGradeBounds | src/utils/gradeCalculations.ts:283-294 | area grades in [0, 5] give overall grades in [0, 5] |
| FinalGrading.MixWithin | src/utils/gradeCalculations.ts:286-288 | a mix of two grades within [lo, hi] stays within [lo, hi] |
| FinalGrading.MixBounds | src/utils/gradeCalculations.ts:286-288 | a mix of two grades within [0, 5] stays within [0, 5] |
| FinalGrading.FinalGradeOfOrdered | src/utils/gradeCalculations.ts:258-295 | for all entries in range, the overall best ≤ worst and all three lie in [0, 5] |
| FinalGrading.NothingEnteredNoGrade | src/utils/gradeCalculations.ts:263-269 | nothing entered in either area gives 0/0/0 |
| FinalGrading.ModuleUnder25NoGrade | src/utils/gradeCalculations.ts:271-278 | a mandatory module under 25 points gives 0/0/0, whatever else is entered |
| FinalGrading.MixedExampleAreas | src/utils/gradeCalculations.test.ts:626-669 | mandatory all 100 gives grade 1.0; the elective area all 50 gives 4.0 in all three scenarios |
| FinalGrading.MixedExample | src/utils/gradeCalculations.test.ts:626-669 | mandatory 1.0 and elective area 4.0 give 3.2 under PO 2025 (3.25 cut) and 3.4 under PO 2023 |
| FinalGrading.SettledFinalGrade | src/utils/gradeCalculations.ts:290-294 | when current, best and worst of the elective area coincide, so do the overall grades |
| FinalGrading.UniformAreas | src/utils/gradeCalculations.test.ts:576-623 | every entry at 100 (or 50): both areas have the grade of those points |
| FinalGrading.UniformFinal | src/utils/gradeCalculations.test.ts:576-623 | every entry at 100 (or 50): the overall grade is that grade |
| FinalGrading.UniformFinalExample | src/utils/gradeCalculations.test.ts:576-623 | every entry at 100 gives 1.0, every entry at 50 gives 4.0, under either regulation |
| FinalGrading.TruncationExample | src/utils/gradeCalculations.test.ts:725-745 | mandatory 93 (1.3) and elective area 87 (1.7) under PO 2025 give 1.6, at most 2.0 and one decimal |
| FinalGrading.AllRecognizedBelowScale | src/utils/gradeCalculations.ts:283 | as written: an all-recognized mandatory area with everything else at 100 gives 0.8 (PO 2023) or 0.7 (PO 2025) |
| FinalGrading.CorrectedFinalGrade | src/utils/gradeCalculations.ts:283-294 | corrected: blocked inputs still give 0/0/0, and an area with a mandatory grade gives the unchanged result |
| FinalGrading.CorrectionOnlyWithoutPoints | src/utils/gradeCalculations.ts:283 | the correction changes the overall grade only when the mandatory area earned no numeric points |
| FinalGrading.CorrectedFinalGradeOnScale | src/utils/gradeCalculations.ts:283-294 | corrected: a mandatory grade on the 1.0 to 5.0 scale or absent, and elective-area grades on that scale, give overall grades on that scale |
| FinalGrading.AllRecognizedCorrected | src/utils/gradeCalculations.ts:283 | corrected: the all-recognized example gives 1.0 |

## Left out

- Parsing of the text fields (`Number(...)`, `NaN`) is not modelled. A score is blank, "A" or a number. Numbers are limited to [0, 100] by the form (src/App.tsx:180-185), and lemmas that need the range say so as a precondition.
- The mandatory entries are a sequence in catalog order, one per module, not a dictionary read through the catalog. So a catalog id without any entry (`undefined`, read as `NaN` points) is not modelled.
- The module catalogs, the slot labels, the UI and local storage in src/App.tsx are not part of this model. ÜK and the module ids enter only as `SlotModule`, mapped from the source's `moduleId` as: `null` or `''` (the "-- Modul wählen --" choice, src/App.tsx:188-194 and 807-812) → `NoModule`, `'UK'` → `UK`, any other id → `Module(id)`. `Module("")` and `Module("UK")` do not arise from that mapping; the model does not exclude them and would count them as chosen modules.
- IEEE-754 doubles: all arithmetic is on exact reals. For example, 0.25·1.3 + 0.75·1.7 is exactly 1.6 here, so `FinalGrading.TruncationExample` proves an overall grade of 1.6. In doubles the sum is 1.5999999999999999, which truncates to 1.5. So at that input (all mandatory modules at 93, everything else at 87, PO 2025) the source shows a grade 0.1 lower than the model. Any mix that lands just below a tenth in doubles differs in the same way.
- `toFixed(2)` is not modelled. The shown elective and completion averages are kept as exact values, with `None` standing for "-,-".
- `toFixed(0)` on the weight percentages is modelled as round-half-up. That matches it on the non-negative values that occur.
- A seminar or thesis entry "A": the form accepts only numbers there (src/App.tsx:853-870). The model follows the code, where such an entry reads as not-a-number points, matches no band, and grades 5.0.
- The blocks of `calculateScenario` (the slot walk, the filler padding, the completion sum and the weight choice) are separate methods here. Each is proved against its own function, and `CalculateScenario` calls them in the source's order.
- WahlAbschluss.CorrectedScenarioOf: the corrected ÜK padding is stated for one scenario; the area's statistics and the overall grade keep the source's padding, so that they model the code as written.
- The final grade is a function, not a method, because `calculateFinalGrade` has no loop and updates nothing.

## Findings

| source | as written | input that shows it | evidently intended | confidence | as-written member | corrected member |
|---|---|---|---|---|---|---|
| src/utils/gradeCalculations.ts:283 | a mandatory area with only recognized modules passes (10 × 50 points) with average grade 0, and that 0 is weighted into the overall grade | all ten mandatory modules "A"; six electives, seminar and thesis at 100 points: overall 0.8 under PO 2023 and 0.7 under PO 2025, better than the best grade 1.0 | an area without a numeric grade is left out of the weighting, so the overall grade stays on the 1.0 to 5.0 scale whenever the elective-area grades are on it (1.0 here) | medium, not executed | FinalGrading.AllRecognizedBelowScale | FinalGrading.CorrectedFinalGrade |
| src/utils/gradeCalculations.ts:153-154 | the slots still to fill are six minus the modules other than ÜK, so a slot holding ÜK is padded with the filler grade like an open one | PO 2025, five electives at 100 points and ÜK in the sixth slot, seminar and thesis at 100: current and best 1.0, worst 21/16 = 1.3125, although nothing is left to enter | a slot holding ÜK counts as filled, as the "5 WP + ÜK" weighting at src/utils/gradeCalculations.ts:193-196 assumes, so complete entries give worst = current (1.0 here) | medium, not executed | WahlAbschluss.UKSlotPaddedExample | WahlAbschluss.CorrectedScenarioOf |
