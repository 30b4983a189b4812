# BikeFitter fit core in Dafny

BikeFitter recommends a road-bike cockpit. The inputs are a rider's body measurements, a frame's
geometry and the rider's current setup. The outputs are a target reach band, a target drop band,
a stem length snapped to a standard size, a spacer band, a confidence score and notes. This project
models that fit core and proves properties of the model.

- `Prelude` (prelude.dfy): optional values, JavaScript `Math.round` (round half up), `Math.abs`,
  `Math.min` and `Math.max`, and `Array.filter` on a range.
- `Units` (units.dfy): centimetre and millimetre conversion.
- `Fit` (fit.dfy): the v1 fit engine, `computeFitRecommendation` and its steps.
  - The shared `notes` array is a class, `NoteLog`. The spacer and confidence steps push into it.
  - The stem snap and the confidence count are loops with invariants.
  - Each step is proved equal to a reference definition. `FitSpec` assembles those definitions.
- `FitProperties` (fit_properties.dfy): what the engine promises, stated and proved about `FitSpec`.
  This module also holds concrete fixtures.
- `FitCalculator` (fit_calculator.dfy): the older stand-alone `calculateFit`. It estimates torso and
  arm, adjusts reach and stack, picks the stem, spacer and bar, and scores discomfort. It also holds
  the bar-reach and discomfort lookups.
- `FitAdapter` (fit_adapter.dfy): `calculateFitV1`. It runs the v1 engine on a legacy input and
  rebuilds the legacy result, including the recommended bar, the flags, the rationale and the
  0–100 confidence.
- `CockpitViz` (cockpit_viz.dfy): the cockpit picture.
  - `projectToSvgModel` maps millimetres onto a 720 × 420 canvas with 40 px padding.
  - `getDeltaColor` gives the green/amber/red colour of a delta.
  - `buildVizInput` assembles the visualisation input.

All arithmetic is over exact reals. Rounding is explicit: `Round(x) = ⌊x + 0.5⌋`, as `Math.round`
does. A required numeric field that the code tests with `!value` counts as missing when it is 0.
A field the code tests with `=== undefined` or `??` is an `Option`.

## Model

| member | source | states |
|---|---|---|
| Prelude.Option.GetOr | lib/fit.ts:120 | `x ?? d` is the value when present and `d` when absent |
| Prelude.Round | lib/fit.ts:187-202 | `Math.round` gives the integer in (x − 0.5, x + 0.5] |
| Prelude.RoundUnique | lib/fit.ts:187-202 | any integer in (x − 0.5, x + 0.5] is the rounded value |
| Prelude.RoundShift | lib/fit-adapter.ts:141 | rounding commutes with adding an integer |
| Prelude.RoundOfInt | lib/fit-adapter.ts:141 | an integer rounds to itself |
| Prelude.RoundMonotone | lib/fit.ts:187-202 | rounding is monotone |
| Prelude.Abs | lib/cockpit-viz.ts:91 | `Math.abs` is non-negative and equals x or −x |
| Prelude.Min | lib/cockpit-viz.ts:144 | `Math.min` is a lower bound of both arguments and one of them |
| Prelude.Max | lib/fit.ts:302-306 | `Math.max` is an upper bound of both arguments and one of them |
| Prelude.IntMin | lib/fit-calculator.ts:124-127 | integer minimum, a lower bound and one of the arguments |
| Prelude.IntMax | lib/fit-calculator.ts:124-127 | integer maximum, an upper bound and one of the arguments |
| Prelude.FilterWithinSpec | lib/fit.ts:249-256 | filtering to [lo, hi] keeps exactly the elements in range, never grows the list and keeps ascending order |
| Units.CmToMm | lib/units.ts:10-12 | the millimetre value divided by 10 is the centimetre value |
| Units.Mm | lib/units.ts:19-21 | `mm` is the identity |
| Units.MmToCm | lib/units.ts:28-30 | the centimetre value times 10 is the millimetre value |
| Units.RoundTrip | lib/units.ts:10-30 | `mmToCm(cmToMm(x)) == x` and `cmToMm(mmToCm(x)) == x` |
| Units.CmToMmLinear | lib/units.ts:10-12 | `cmToMm` is additive and strictly monotone |
| Fit.DropRangeFor | lib/fit.ts:111-115 | each style's drop band has min < max |
| Fit.NoteLog.constructor | lib/fit.ts:153 | a new notes array is empty |
| Fit.NoteLog.Push | lib/fit.ts:278 | a push appends exactly the note and changes nothing else |
| Fit.CalculateBaseReach | lib/fit.ts:216-218 | base reach = 4.3 · torso_cm + 3.5 · arm_cm (0.43 and 0.35 of the lengths in mm) |
| Fit.StemSizesMembers | lib/fit.ts:88 | the standard stem sizes are exactly 50, 60, …, 120 |
| Fit.SnappedStemIsSnap | lib/fit.ts:227-241 | the cell-based reference snap is a nearest size, and no equally near size is longer |
| Fit.SnapIsUnique | lib/fit.ts:227-241 | nearest-with-longer-tie-break determines the size uniquely |
| Fit.ScanIsSnap | lib/fit.ts:230-238 | a size no farther than any indexed size, and not shorter than any equally near one, is the snap |
| Fit.SnapStemLength | lib/fit.ts:227-241 | the scan returns a standard size nearest to the basis, the longer on a tie, and equals the reference snap |
| Fit.GetAllowedStems | lib/fit.ts:249-256 | the sizes within ±10 of the snap, as the filter; its contract is stated in `Fit.AllowedStemsSpec` |
| Fit.AllowedStemsSpec | lib/fit.ts:249-256 | allowed stems are exactly the sizes within ±10 of the snap, strictly ascending, and include the snap when it is a size |
| Fit.CalculateSpacerRecommendation | lib/fit.ts:270-313 | with frame stack and current spacers: recommended max(0, cur) in band [max(0, cur − 20), cur + 20]; otherwise current spacers or 20 with no band, plus one "Insufficient data" note |
| Fit.MissingFieldNames | lib/fit.ts:347-352 | never more missing names than fields |
| Fit.MissingFieldNamesExpanded | lib/fit.ts:338-345 | the missing names of the six fields, field by field, in check order |
| Fit.MissingFieldNamesSnoc | lib/fit.ts:347-352 | one more field adds its name exactly when it is 0 |
| Fit.MissingNotesSnoc | lib/fit.ts:349-351 | one more missing name adds exactly its note at the end |
| Fit.CalculateConfidence | lib/fit.ts:331-355 | confidence = max(0.3, 1 − 0.15 · #missing), and the log gains one "Missing … reduces confidence" note per missing field, in order |
| Fit.SpacersAndConfidence | lib/fit.ts:176-185 | the spacer notes come first, then the missing-field notes, in one log |
| Fit.ComputeFitRecommendation | lib/fit.ts:148-203 | the recommendation equals the reference definition `FitSpec` in every field |
| FitProperties.TargetReachBand | lib/fit.ts:159-165 | mid = round(4.3 torso + 3.5 arm + flexibility offset + style offset), min = mid − 5, max = mid + 5 |
| FitProperties.FlexibilityShiftsReach | lib/fit.ts:93-97 | low flexibility gives 15 mm less mid reach than medium, high gives 10 mm more |
| FitProperties.RidingStyleShiftsReach | lib/fit.ts:102-106 | comfort gives 20 mm less mid reach than endurance, race gives 15 mm more |
| FitProperties.AdjustmentsAdd | lib/fit.ts:160-162 | the two offsets add: high + race is +25 and low + comfort is −35 |
| FitProperties.DropBandByStyle | lib/fit.ts:111-115 | the drop band depends on the style alone: comfort [10,20], endurance [20,40], race [50,80] |
| FitProperties.HoodOffsetDefault | lib/fit.ts:120 | an absent hood offset gives the same recommendation as 10 mm |
| FitProperties.HoodOffsetShiftsBasis | lib/fit.ts:171-172 | 10 mm more hood offset means a 10 mm shorter basis |
| FitProperties.StemRecommendationIsNearest | lib/fit.ts:171-174 | the recommended stem is a standard size nearest to the basis, the longer on a tie, and lies within its allowed list |
| FitProperties.TieGoesToLongerStem | lib/fit.ts:233-235 | a basis exactly between two neighbouring sizes snaps to the longer |
| FitProperties.TieBreakExamples | lib/fit.ts:233-235 | basis 65 snaps to 70 and basis 115 to 120 |
| FitProperties.AllowedStemsAtShortest | lib/fit.ts:249-256 | snapped 50 allows [50, 60] |
| FitProperties.AllowedStemsAtLongest | lib/fit.ts:249-256 | snapped 120 allows [110, 120] |
| FitProperties.AllowedStemsInMiddle | lib/fit.ts:249-256 | snapped 80 allows [70, 80, 90] |
| FitProperties.SpacerBand | lib/fit.ts:277-312 | without data: current (or 20), no band and the one note; with data: min = max(0, cur − 20), max = cur + 20, min ≤ recommended, and for cur ≥ 0 recommended = cur ≤ max, with no note |
| FitProperties.ConfidenceScoreShape | lib/fit.ts:337-354 | confidence lies in [0.3, 1.0], drops exactly 0.15 per missing field up to four, is 0.3 from five, and never rises with more missing fields |
| FitProperties.MissingNotesOnePerName | lib/fit.ts:349-351 | one note per missing name, at the same position |
| FitProperties.MissingFieldNamesMembers | lib/fit.ts:347-352 | a name is reported exactly when a field of that name is 0 |
| FitProperties.MissingNoteInjective | lib/fit.ts:350 | different names give different notes |
| FitProperties.InsufficientIsNotMissingNote | lib/fit.ts:278 | the spacer note is never a missing-field note |
| FitProperties.MissingNotesMembers | lib/fit.ts:349-351 | a name's note is present exactly when the name is |
| FitProperties.RequiredFieldNamesDistinct | lib/fit.ts:338-345 | the six required fields have six different names |
| FitProperties.MissingIffNoted | lib/fit.ts:338-352 | each required field is 0 exactly when the recommendation carries its "Missing" note |
| FitProperties.BaselineRecommendation | lib/fit.ts:148-203 | a concrete rider (torso 60, arm 65) and bike give the exact recommendation |
| FitProperties.BaselineReach | lib/fit.ts:159-165 | mid 485.5 rounds to 486, band [481, 491] |
| FitProperties.BaselineStem | lib/fit.ts:171-174 | basis 10 snaps to 50, allowed [50, 60] |
| FitProperties.BaselineConfidence | lib/fit.ts:338-354 | with every field present nothing is missing and confidence is 1.0 |
| FitProperties.TwoMissingFields | lib/fit.ts:338-354 | bar reach and stem length 0 give confidence 0.7 and exactly their two notes |
| FitProperties.AllFieldsMissing | lib/fit.ts:354 | everything 0 gives the floor 0.3 |
| FitProperties.SnapUsesUnroundedBasis | lib/fit.ts:174-196 | the shown basis 65 comes from 64.5, which snaps to 60 |
| FitProperties.SnapUsesUnroundedBasisLong | lib/fit.ts:174-196 | the shown basis 115 comes from 114.5, which snaps to 110 |
| FitProperties.ShortBasisSnapsToShortest | lib/fit.ts:227-256 | a basis of 45 snaps to 50 with allowed [50, 60] |
| FitCalculator.EstimateTorso | lib/fit-calculator.ts:189-193 | the torso estimate is 0.32 · height, rounded |
| FitCalculator.EstimateArm | lib/fit-calculator.ts:198-201 | the arm estimate is 0.38 · height, rounded |
| FitCalculator.OrNumber | lib/fit-calculator.ts:55-62 | `x \|\| d` is the value when it is present and non-zero, otherwise the default |
| FitCalculator.StemOnGrid | lib/fit-calculator.ts:124-127 | the arm-scaled stem rounded to 10 mm is the multiple of 10 within 5 mm of it (the larger on a tie) |
| FitCalculator.CalculateFit | lib/fit-calculator.ts:46-184 | the step-by-step result equals the closed-form reference `CalculateFitSpec` |
| FitCalculator.AdjustReach | lib/fit-calculator.ts:64-91 | the adjusted reach is the closed-form target reach, and the notes are the style, flexibility and hand-pain notes in order |
| FitCalculator.AdjustStack | lib/fit-calculator.ts:95-115 | the target stack is the frame stack plus the closed-form gap, with the neck/back note |
| FitCalculator.ScoreDiscomfort | lib/fit-calculator.ts:154-173 | the accumulated score equals the closed-form discomfort score |
| FitCalculator.GetBarReachRange | lib/fit-calculator.ts:206-212 | every category's range has lo < hi; short ends at or below 75 and the others start at or above 75 |
| FitCalculator.GetDiscomfortLevel | lib/fit-calculator.ts:217-231 | optimal iff < 15, minor iff in [15, 35), moderate iff in [35, 60), significant iff ≥ 60 |
| FitCalculator.IdealStemOnGrid | lib/fit-calculator.ts:119-127 | the ideal stem is a multiple of 10 in [60, 130] |
| FitCalculator.StemForGapOnGrid | lib/fit-calculator.ts:124-127 | for any gap and arm multiplier, the clamped stem is a multiple of 10 in [60, 130] |
| FitCalculator.IdealSpacerOnGrid | lib/fit-calculator.ts:130-134 | the ideal spacer is a multiple of 5 in [0, 50] |
| FitCalculator.DiscomfortBounded | lib/fit-calculator.ts:154-173 | the discomfort score is an integer in [0, 100] |
| FitCalculator.HandPainShortensBar | lib/fit-calculator.ts:138-150 | with hand pain the bar is never long: arms under 60 give short, otherwise one step shorter than the arm rule |
| FitCalculator.NoHandPainKeepsBar | lib/fit-calculator.ts:138-150 | without hand pain the bar follows the arm rule |
| FitCalculator.NeckOrBackRaisesStack | lib/fit-calculator.ts:112-115 | neck or back pain raises the target stack by exactly 20 |
| FitCalculator.MissingStyleIsEndurance | lib/fit-calculator.ts:65 | an absent or empty riding style gives the same result as endurance |
| FitCalculator.MissingFlexibilityIsTwo | lib/fit-calculator.ts:75 | an absent or 0 flexibility gives the same result as 2 |
| FitCalculator.DiscomfortLevelMonotone | lib/fit-calculator.ts:217-231 | a higher score never gives a lower level |
| FitAdapter.GetBarReachMm | lib/fit-adapter.ts:26-30 | the table read by `getBarReachMm` (lines 179-181) is short 72, med 78, long 86: each lies in its category's range, and they increase |
| FitAdapter.GetAllowedStemRange | lib/fit-adapter.ts:167-171 | the adapter's filter of its own size list; `FitAdapter.AllowedStemRangeAgrees` proves it equals the engine's window |
| FitAdapter.AllowedStemRangeAgrees | lib/fit-adapter.ts:167-171 | the adapter's stem range equals the engine's allowed stems for every input |
| FitAdapter.FlexibilityFromLevel | lib/fit-adapter.ts:46-49 | 1 maps to low, 3 to high, and every other level to medium |
| FitAdapter.WithoutMissing | lib/fit-adapter.ts:133 | filtering notes never adds any |
| FitAdapter.CalculateFitV1 | lib/fit-adapter.ts:44-159 | the result equals the reference `LegacyResult` of the input |
| FitAdapter.ToLegacyResult | lib/fit-adapter.ts:139-158 | the legacy fields are built from the engine result as the reference states |
| FitAdapter.RecommendBar | lib/fit-adapter.ts:83-88 | the reassigned bar category equals the reference `RecommendedBar` |
| FitAdapter.BuildFlags | lib/fit-adapter.ts:91-100 | the pushed flags equal the reference `Flags` |
| FitAdapter.BuildRationale | lib/fit-adapter.ts:103-133 | the pushed sentences are pain, then style, then flexibility, then the kept engine notes |
| FitAdapter.Contains | lib/fit-adapter.ts:133 | `String.includes`: some position of the string starts with the substring; the lemmas below state which notes contain "Missing" |
| FitAdapter.ContainsFirstChar | lib/fit-adapter.ts:133 | a string containing a non-empty substring contains the substring's first character |
| FitAdapter.MissingNoteMentionsMissing | lib/fit-adapter.ts:133 | every missing-field note contains "Missing" |
| FitAdapter.SpacerNoteKept | lib/fit-adapter.ts:133 | the spacer note does not contain "Missing" |
| FitAdapter.WithoutMissingAppend | lib/fit-adapter.ts:133 | the filter distributes over concatenation, keeping order |
| FitAdapter.WithoutMissingMembers | lib/fit-adapter.ts:133 | a note is kept exactly when it is present and does not contain "Missing" |
| FitAdapter.MissingNotesFiltered | lib/fit-adapter.ts:133 | every missing-field note is dropped |
| FitAdapter.EngineNotesFiltered | lib/fit-adapter.ts:133 | because the adapter always passes frame stack 0 (lines 60-63), the kept engine notes are exactly the one spacer note |
| FitAdapter.RationaleOrder | lib/fit-adapter.ts:103-133 | rationale = pain sentences (at most 3), then style (at most 1), then flexibility (at most 1), then the spacer note last |
| FitAdapter.AdapterSpacers | lib/fit-adapter.ts:147-151 | the ideal spacer is the input spacer, with range ±5 |
| FitAdapter.LegacyConfidence | lib/fit-adapter.ts:136 | round(40 + 55c); `FitAdapter.LegacyConfidenceRange` and `FitAdapter.AdapterConfidence` bound it |
| FitAdapter.LegacyConfidenceRange | lib/fit-adapter.ts:136 | round(40 + 55c) lies in [57, 95] for c in [0.3, 1.0] |
| FitAdapter.AdapterConfidence | lib/fit-adapter.ts:136 | the "Missing frame stack" note is always there, since frame stack is passed as 0 (lines 60-63), so legacy confidence lies in [57, 87] |
| FitAdapter.RecommendedBarIsCurrentOrLong | lib/fit-adapter.ts:83-88 | the recommended bar is long exactly when the stem is 120 and the current bar is not long; otherwise it is the current bar |
| FitAdapter.FlagsConsistent | lib/fit-adapter.ts:91-100 | consider_bar_change iff snapped ≤ 50 or ≥ 110; each frame flag iff its condition, each implies consider_bar_change, never both |
| FitAdapter.AdapterStemAndReach | lib/fit-adapter.ts:141-154 | the ideal stem is a standard size with range ±5; reach delta = round(frame + stem + bar + 10) − target mid, the effective reach of line 80 |
| FitAdapter.AdapterTargetDrop | lib/fit-adapter.ts:141 | the target drop is 15, 30 or 65 by style |
| CockpitViz.GetDeltaColor | lib/cockpit-viz.ts:90-95 | green iff \|d\| ≤ 10, amber iff 10 < \|d\| ≤ 25, red iff \|d\| > 25 |
| CockpitViz.DeltaColorByMagnitude | lib/cockpit-viz.ts:90-95 | the colour depends only on \|d\| |
| CockpitViz.DeltaColorMonotone | lib/cockpit-viz.ts:90-95 | a larger \|d\| is never a milder colour |
| CockpitViz.Max3 | lib/cockpit-viz.ts:136-137 | the maximum of three is an upper bound of each and one of them |
| CockpitViz.ProjectToSvgModel | lib/cockpit-viz.ts:112-229 | the projection at the uniform scale; `CockpitViz.ScaleIsUniform` states the scale, and the lemmas below state the drawing, deltas and bands |
| CockpitViz.Projection | lib/cockpit-viz.ts:146-228 | the drawing, deltas and bands at a given non-zero scale; its properties are the lemmas below |
| CockpitViz.UniformScale | lib/cockpit-viz.ts:140-144 | when at least one extent is non-zero the scale is non-zero, is at most each finite axis scale and equals one of them; a zero extent's infinite axis scale never wins `Math.min` |
| CockpitViz.ScaleIsUniform | lib/cockpit-viz.ts:136-144 | xScale == yScale (as returned at lines 224-227) == min(640 / maxReach, 340 / maxStack), or the finite axis scale alone when the other extent is zero |
| CockpitViz.MulMonotone | lib/cockpit-viz.ts:151-152 | scaling by a positive factor keeps order |
| CockpitViz.ScaleBounds | lib/cockpit-viz.ts:136-144 | for non-negative extents, not both zero, the scale is positive, and scale · maxReach ≤ 640 and scale · maxStack ≤ 340 |
| CockpitViz.ExtentsFitAt | lib/cockpit-viz.ts:136-144 | each reach · scale ≤ 640 − 80 · scale and each stack · scale ≤ 340 − 60 · scale |
| CockpitViz.DrawingFitsAt | lib/cockpit-viz.ts:136-183 | at such a scale the live hood stays left of the right padding and both stem ends stay below the top padding |
| CockpitViz.CurrentHoodFitsAt | lib/cockpit-viz.ts:120-121 | the current hood, drawn 25 mm past the bar (line 168), stays left of the right padding when the current reach is measured with that 25 mm offset |
| CockpitViz.WithinMargin | lib/cockpit-viz.ts:136-141 | a length `margin` short of an extent that scales to at most `room` scales to at most `room − margin · s` |
| CockpitViz.HoodsAboveStemEnds | lib/cockpit-viz.ts:166-183 | each hood is drawn exactly 35 px above its stem end |
| CockpitViz.HoodsClearTopAt | lib/cockpit-viz.ts:137-183 | each hood lies at y ≥ 5 + 60 · s, so it stays on the canvas, and clears the top padding when s ≥ 7/12 |
| CockpitViz.DrawingFits | lib/cockpit-viz.ts:136-183 | for non-negative extents, not both zero, at the scale the projection picks: xScale = yScale = s, live hood left of the right padding, current hood too when measured with the 25 mm offset, both stem ends below the top padding, both hoods at y ≥ 5 + 60 · s and clear of the top padding when s ≥ 7/12 |
| CockpitViz.DrawingClearsBottomLeft | lib/cockpit-viz.ts:146-183 | with non-negative lengths nothing is drawn left of x = 40 or below y = 380: each cockpit runs forward and up from the head-tube top |
| CockpitViz.ZeroReachExtentUsesStackScale | lib/cockpit-viz.ts:136-144 | frame reach −300 with a 100 mm stem, a 78 mm bar and target reach −80 make maxReach 0, and the drawing uses the vertical scale 340 / 670 |
| CockpitViz.HoodCanEnterTopPadding | lib/cockpit-viz.ts:136-183 | frame stack 590, reach 386 and 50 mm of live spacers give scale 17/35 and a live hood at y < 40, inside the top padding |
| CockpitViz.ScaledPositions | lib/cockpit-viz.ts:151-183 | the live hood is 40 + live reach · s across, the current hood 40 + (frame reach + stem + bar + 25) · s, and each stem end 380 − stack · s down |
| CockpitViz.ReachOffset | lib/cockpit-viz.ts:154-165 | offsets along x add up before scaling |
| CockpitViz.StackOffset | lib/cockpit-viz.ts:155-163 | offsets along y add up before scaling |
| CockpitViz.FramePlacement | lib/cockpit-viz.ts:146-155 | BB at (40, 380), head-top at (40 + reach·s, 380 − stack·s); the reach line (line 197) is horizontal and the stack line (line 198) vertical |
| CockpitViz.CockpitShape | lib/cockpit-viz.ts:158-169 | barEnd.y == stemEnd.y, stemEnd.y = headTop.y − spacers·s, hood.x = barEnd.x + 25·s, hood.y = barEnd.y − 35 |
| CockpitViz.HoodOffsets | lib/cockpit-viz.ts:158-183 | the two cockpits' hoods differ by the scaled setup differences |
| CockpitViz.CockpitsFromSetups | lib/cockpit-viz.ts:158-183 | the current cockpit uses the current setup and the target cockpit uses the overrides |
| CockpitViz.ReachDeltaOfLiveSetup | lib/cockpit-viz.ts:186 | reach delta = round(frame reach + stem + bar + 25 − target reach), from the overrides |
| CockpitViz.QuotientOfScaled | lib/cockpit-viz.ts:187 | dividing a scaled length by the scale returns it |
| CockpitViz.DropDeltaOfCockpits | lib/cockpit-viz.ts:187 | the drop delta of two cockpits is the rounded spacer difference |
| CockpitViz.DropDeltaIsSpacerChange | lib/cockpit-viz.ts:168-190 | drop delta = round(current spacers − override spacers), whatever the scale; positive when the live setup has fewer spacers; 0 and green when equal |
| CockpitViz.BandsCopied | lib/cockpit-viz.ts:220-223 | the bands are copied unchanged from the target |
| CockpitViz.BuildVizInput | lib/cockpit-viz.ts:234-279 | the visualisation input assembled from the parameters; `CockpitViz.BuildVizInputFields` states every field |
| CockpitViz.BuildVizInputFields | lib/cockpit-viz.ts:234-279 | hood offset is always 25; both bar reaches come from the category table and lie in their category's range; every other field (frame, stem, spacers, target reach and drop, ideal stem and spacer, both ranges, reach delta, confidence, flags, saddle height) is copied |
| CockpitViz.CurrentSetupAsOverrides | lib/cockpit-viz.ts:120-190 | with the current setup as overrides the two cockpits coincide, the drop delta is 0 and the reach delta is current reach − target |

## Left out

- IEEE-754 floating point: arithmetic is over exact reals, so binary rounding effects are not modelled. For example, `1 − 0.15 · k` is exact here.
- CockpitViz.DrawingFits: does not promise that the hoods clear the top padding at every scale, because the source does not keep them clear. A hood is drawn a fixed 35 px above its bar, but the stack margin gives only 60 · s px, so when s < 7/12 a hood can enter the top padding, though it stays on the canvas. `CockpitViz.HoodsClearTopAt` states the bound that holds, and `CockpitViz.HoodCanEnterTopPadding` gives a realistic input that reaches the padding. The left and bottom bounds hold only for non-negative lengths (`CockpitViz.DrawingClearsBottomLeft`).
- CockpitViz.ProjectToSvgModel: requires that the padded extents are not both zero. With one zero extent JavaScript's axis scale is +Infinity and `Math.min` picks the other, finite one, which the model does too. With both zero the scale is Infinity and the coordinates are Infinity or NaN, which real arithmetic cannot express. The geometric lemmas are stated about `Projection` at any non-zero scale, which includes the scale `ProjectToSvgModel` picks.
- FitCalculator.CalculateFit: requires a non-zero inseam for the same reason. The torso/inseam ratio divides by it.
- `getBarReachValue`, `getConfidenceLevel`, `getFlagMessage` and the `FitInput`/`FitResult`/`BarCategory` types are declared in a part of lib/fit-calculator.ts that is not part of this model. The legacy types take their fields from their uses in lib/fit-adapter.ts. `getBarReachValue` is stood in for by the adapter's table {short 72, med 78, long 86}. The other two functions are not modelled.
- The UI, the React components, the database, the network and the PNG export are not in scope.
- The six required engine fields have type `number`. `calculateConfidence` counts a field as missing when it is `undefined`, `null` or 0 (lib/fit.ts:348), and the spacer step tests `!frame.stack_mm` (lib/fit.ts:277). The model gives these fields type `real` and writes an absent value as 0, which both tests treat the same way. Fields read with `=== undefined` or `??` are `Option`.
- In `FitCalculator` the riding style is an optional string and the flexibility an optional integer, as in lib/fit-calculator.ts:18-21. In `FitAdapter.FitInput` the flexibility is an integer level, but the riding style is the engine's `RidingStyle` datatype. The adapter passes it straight to the engine (lib/fit-adapter.ts:56), so it must already be one of the three styles.
- The long step functions are split into helper methods, each proved against its own reference definition. These are `FitCalculator.AdjustReach`, `FitCalculator.AdjustStack`, `FitCalculator.ScoreDiscomfort`, `FitAdapter.ToLegacyResult`, `FitAdapter.RecommendBar`, `FitAdapter.BuildFlags`, `FitAdapter.BuildRationale` and `Fit.SpacersAndConfidence`. The order of the statements and of the pushes is kept.
- The adapter's own `STEM_SIZES` constant is modelled by `FitAdapter.StemSizes`. `AllowedStemRangeAgrees` shows it gives the same filter as the engine's list.
- The target drop passed to `calculateSpacerRecommendation` is unused there, as in the source.
- Saddle height and head-tube length are carried by the visualisation input but not used by the projection, as in the source.
