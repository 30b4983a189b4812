/**
 * The adapter between the legacy calculator's input and result shapes and the
 * v1 engine: it maps the 1-3 flexibility level and the short/med/long bar
 * category to engine inputs, runs the engine, and adds the legacy fields
 * (a recommended bar category, diagnostic flags, ordered rationale sentences
 * and a 40-95 confidence percentage).
 *
 * The adapter imports the legacy `FitInput`, `FitResult` and `BarCategory`
 * types from lib/fit-calculator.ts, which does not declare them; the fields
 * here are the ones the adapter reads and writes.
 */
module FitAdapter {
  import opened Prelude
  import opened Fit
  import FC = FitCalculator

  // ---------------------------------------------------------------------------
  // Lookups
  // ---------------------------------------------------------------------------

  /** Bar reach in mm for a category: 72, 78 or 86, each inside the span the
      calculator gives for that category, and longer categories reach further. */
  function GetBarReachMm(category: FC.BarCategory): (r: int)
    ensures FC.GetBarReachRange(category).0 <= r <= FC.GetBarReachRange(category).1
    ensures category == FC.Short ==> r < GetBarReachMmOf(FC.Med)
    ensures category == FC.Med ==> r < GetBarReachMmOf(FC.Long)
  {
    GetBarReachMmOf(category)
  }

  function GetBarReachMmOf(category: FC.BarCategory): int {
    match category
    case Short => 72
    case Med => 78
    case Long => 86
  }

  /** The adapter's own copy of the standard stem sizes. */
  const StemSizes: seq<int> := [50, 60, 70, 80, 90, 100, 110, 120]

  function GetAllowedStemRange(snappedStem: int): seq<int> {
    FilterWithin(StemSizes, snappedStem - 10, snappedStem + 10)
  }

  /** The adapter's window agrees with the engine's for every input. */
  lemma AllowedStemRangeAgrees(snappedStem: int)
    ensures GetAllowedStemRange(snappedStem) == GetAllowedStems(snappedStem)
    ensures forall s :: s in GetAllowedStemRange(snappedStem) <==>
      s in StemSizesMm && snappedStem - 10 <= s <= snappedStem + 10
  {
    assert StemSizes == StemSizesMm;
    AllowedStemsSpec(snappedStem);
  }

  // ---------------------------------------------------------------------------
  // Legacy shapes
  // ---------------------------------------------------------------------------

  datatype FitInput = FitInput(
    torsoCm: real,
    armCm: real,
    flexibilityLevel: int,
    ridingStyle: RidingStyle,
    frameReachMm: real,
    barReachCategory: FC.BarCategory,
    stemMm: real,
    spacerMm: real,
    painPoints: seq<string>)

  datatype FitResult = FitResult(
    targetReachMm: int,
    targetDropMm: int,
    idealStemMm: int,
    idealStemRangeMm: (int, int),
    idealSpacerMm: real,
    idealSpacerRangeMm: (real, real),
    recommendedBarReachCategory: FC.BarCategory,
    currentEffectiveReachMm: int,
    reachDeltaMm: int,
    confidence: int,
    flags: seq<string>,
    rationale: seq<string>)

  const FrameTooLongFlag := "frame_maybe_too_long"
  const FrameTooShortFlag := "frame_maybe_too_short"
  const ConsiderBarChangeFlag := "consider_bar_change"

  const HandsRationale := "Reduced forward reach to limit hand load."
  const NeckRationale := "Raised bar height to reduce neck extension."
  const BackRationale := "Shortened reach to reduce lower back strain."
  const ComfortRationale := "Comfort posture shortens reach and reduces drop."
  const RaceRationale := "Race posture increases reach and drop for aerodynamics."
  const LowFlexibilityRationale := "Limited flexibility requires more upright position."
  const HighFlexibilityRationale := "High flexibility allows for more aggressive position."

  /** Hood offset the adapter passes to the engine. */
  const StandardHoodOffsetMm: real := 10.0

  // ---------------------------------------------------------------------------
  // Mapping the input
  // ---------------------------------------------------------------------------

  /** 1 is low, 3 is high, every other level is medium. */
  function FlexibilityFromLevel(level: int): (f: Flexibility)
    ensures f == Low <==> level == 1
    ensures f == High <==> level == 3
    ensures f == Medium <==> level != 1 && level != 3
  {
    if level == 1 then Low else if level == 3 then High else Medium
  }

  function EngineRider(input: FitInput): RiderProfile {
    RiderProfile(None, None, input.torsoCm, input.armCm, FlexibilityFromLevel(input.flexibilityLevel), input.ridingStyle)
  }

  /** The frame stack is always passed as 0. */
  function EngineFrame(input: FitInput): FrameGeometry {
    FrameGeometry(0.0, input.frameReachMm, None, None, None)
  }

  function EngineSetup(input: FitInput): CurrentSetup {
    CurrentSetup(input.stemMm, Some(input.spacerMm), GetBarReachMm(input.barReachCategory) as real,
                 Some(StandardHoodOffsetMm), None, None)
  }

  function EngineResult(input: FitInput): FitRecommendation {
    FitSpec(EngineRider(input), EngineFrame(input), EngineSetup(input))
  }

  function CurrentEffectiveReach(input: FitInput): real {
    input.frameReachMm + input.stemMm + GetBarReachMm(input.barReachCategory) as real + StandardHoodOffsetMm
  }

  // ---------------------------------------------------------------------------
  // Legacy fields
  // ---------------------------------------------------------------------------

  /** A stem below 50 suggests a short bar, one above 110 a long bar. */
  function RecommendedBar(snappedMm: int, current: FC.BarCategory): FC.BarCategory {
    if snappedMm < 50 && current != FC.Short then FC.Short
    else if snappedMm > 110 && current != FC.Long then FC.Long
    else current
  }

  function Flags(snappedMm: int, effectiveReach: real, targetMid: int): seq<string> {
    (if snappedMm <= 50 && effectiveReach > targetMid as real then [FrameTooLongFlag] else [])
    + (if snappedMm >= 110 && effectiveReach < targetMid as real then [FrameTooShortFlag] else [])
    + (if snappedMm <= 50 || snappedMm >= 110 then [ConsiderBarChangeFlag] else [])
  }

  function PainRationale(painPoints: seq<string>): seq<string> {
    (if "hands" in painPoints then [HandsRationale] else [])
    + (if "neck" in painPoints then [NeckRationale] else [])
    + (if "back" in painPoints then [BackRationale] else [])
  }

  function StyleRationale(style: RidingStyle): seq<string> {
    match style
    case Comfort => [ComfortRationale]
    case Race => [RaceRationale]
    case Endurance => []
  }

  function FlexibilityRationale(flexibility: Flexibility): seq<string> {
    match flexibility
    case Low => [LowFlexibilityRationale]
    case High => [HighFlexibilityRationale]
    case Medium => []
  }

  /** `s.includes(sub)` */
  predicate Contains(s: string, sub: string)
    decreases |s|
  {
    if |s| < |sub| then false
    else s[..|sub|] == sub || Contains(s[1..], sub)
  }

  /** `notes.filter(note => !note.includes('Missing'))` */
  function WithoutMissing(notes: seq<string>): (r: seq<string>)
    ensures |r| <= |notes|
  {
    if notes == [] then []
    else (if Contains(notes[0], "Missing") then [] else [notes[0]]) + WithoutMissing(notes[1..])
  }

  /** Legacy percentage for an engine confidence in [0, 1]. */
  function LegacyConfidence(confidence: real): int {
    Round(40.0 + confidence * 55.0)
  }

  /** Reference definition of the adapter's result. */
  function LegacyResult(input: FitInput): FitResult {
    LegacyFields(input, EngineResult(input))
  }

  /** The legacy fields derived from an engine result `v1`. */
  function LegacyFields(input: FitInput, v1: FitRecommendation): FitResult {
    var snapped := v1.stem.snappedMm;
    var mid := v1.targetReach.midMm;
    var effective := CurrentEffectiveReach(input);
    var rec := v1.spacers.recommendedMm;
    FitResult(
      mid,
      Round((v1.targetDrop.minMm + v1.targetDrop.maxMm) as real / 2.0),
      snapped,
      (snapped - 5, snapped + 5),
      rec,
      (v1.spacers.minMm.GetOr(rec - 5.0), v1.spacers.maxMm.GetOr(rec + 5.0)),
      RecommendedBar(snapped, input.barReachCategory),
      Round(effective),
      Round(effective - mid as real),
      LegacyConfidence(v1.confidence),
      Flags(snapped, effective, mid),
      PainRationale(input.painPoints) + StyleRationale(input.ridingStyle)
        + FlexibilityRationale(FlexibilityFromLevel(input.flexibilityLevel)) + WithoutMissing(v1.notes))
  }

  /** The adapter as written: engine inputs built and the engine run, then
      the legacy fields derived from its result. */
  method CalculateFitV1(input: FitInput) returns (r: FitResult)
    ensures r == LegacyResult(input)
  {
    var flexibility := if input.flexibilityLevel == 1 then Low
      else if input.flexibilityLevel == 3 then High
      else Medium;

    var rider := RiderProfile(None, None, input.torsoCm, input.armCm, flexibility, input.ridingStyle);
    var frame := FrameGeometry(0.0, input.frameReachMm, None, None, None);
    var barReachMm := GetBarReachMmOf(input.barReachCategory) as real;
    var current := CurrentSetup(input.stemMm, Some(input.spacerMm), barReachMm, Some(StandardHoodOffsetMm), None, None);
    assert rider == EngineRider(input) && frame == EngineFrame(input) && current == EngineSetup(input);

    var v1Result := ComputeFitRecommendation(rider, frame, current);
    r := ToLegacyResult(input, v1Result);
  }

  /** Maps an engine result to the legacy shape: the recommended bar, the
      flags and the rationale are built step by step by the methods below. */
  method ToLegacyResult(input: FitInput, v1Result: FitRecommendation) returns (r: FitResult)
    ensures r == LegacyFields(input, v1Result)
  {
    var flexibility := if input.flexibilityLevel == 1 then Low
      else if input.flexibilityLevel == 3 then High
      else Medium;
    var barReachMm := GetBarReachMmOf(input.barReachCategory) as real;
    var currentEffectiveReach := input.frameReachMm + input.stemMm + barReachMm + StandardHoodOffsetMm;
    var recommendedBar := RecommendBar(v1Result.stem.snappedMm, input.barReachCategory);
    var flags := BuildFlags(v1Result.stem.snappedMm, currentEffectiveReach, v1Result.targetReach.midMm);
    var rationale := BuildRationale(input.painPoints, input.ridingStyle, flexibility, v1Result.notes);
    var confidencePercentage := Round(40.0 + v1Result.confidence * 55.0);

    r := FitResult(
      v1Result.targetReach.midMm,
      Round((v1Result.targetDrop.minMm + v1Result.targetDrop.maxMm) as real / 2.0),
      v1Result.stem.snappedMm,
      (v1Result.stem.snappedMm - 5, v1Result.stem.snappedMm + 5),
      v1Result.spacers.recommendedMm,
      (v1Result.spacers.minMm.GetOr(v1Result.spacers.recommendedMm - 5.0),
       v1Result.spacers.maxMm.GetOr(v1Result.spacers.recommendedMm + 5.0)),
      recommendedBar,
      Round(currentEffectiveReach),
      Round(currentEffectiveReach - v1Result.targetReach.midMm as real),
      confidencePercentage,
      flags,
      rationale);
  }

  /** Starts from the current category and reassigns it for very short or
      very long stems. */
  method RecommendBar(snappedMm: int, current: FC.BarCategory) returns (recommendedBar: FC.BarCategory)
    ensures recommendedBar == RecommendedBar(snappedMm, current)
  {
    recommendedBar := current;
    if snappedMm < 50 && current != FC.Short {
      recommendedBar := FC.Short;
    } else if snappedMm > 110 && current != FC.Long {
      recommendedBar := FC.Long;
    }
  }

  method BuildFlags(snappedMm: int, currentEffectiveReach: real, targetMid: int) returns (flags: seq<string>)
    ensures flags == Flags(snappedMm, currentEffectiveReach, targetMid)
  {
    flags := [];
    if snappedMm <= 50 && currentEffectiveReach > targetMid as real {
      flags := flags + [FrameTooLongFlag];
    }
    if snappedMm >= 110 && currentEffectiveReach < targetMid as real {
      flags := flags + [FrameTooShortFlag];
    }
    if snappedMm <= 50 || snappedMm >= 110 {
      flags := flags + [ConsiderBarChangeFlag];
    }
  }

  method BuildRationale(painPoints: seq<string>, style: RidingStyle, flexibility: Flexibility,
                        engineNotes: seq<string>) returns (rationale: seq<string>)
    ensures rationale == PainRationale(painPoints) + StyleRationale(style)
      + FlexibilityRationale(flexibility) + WithoutMissing(engineNotes)
  {
    rationale := [];
    if "hands" in painPoints {
      rationale := rationale + [HandsRationale];
    }
    if "neck" in painPoints {
      rationale := rationale + [NeckRationale];
    }
    if "back" in painPoints {
      rationale := rationale + [BackRationale];
    }
    assert rationale == PainRationale(painPoints);
    if style == Comfort {
      rationale := rationale + [ComfortRationale];
    }
    if style == Race {
      rationale := rationale + [RaceRationale];
    }
    assert rationale == PainRationale(painPoints) + StyleRationale(style);
    if flexibility == Low {
      rationale := rationale + [LowFlexibilityRationale];
    }
    if flexibility == High {
      rationale := rationale + [HighFlexibilityRationale];
    }
    assert rationale == PainRationale(painPoints) + StyleRationale(style) + FlexibilityRationale(flexibility);
    rationale := rationale + WithoutMissing(engineNotes);
  }

  // ---------------------------------------------------------------------------
  // Properties
  // ---------------------------------------------------------------------------

  lemma {:induction false} ContainsFirstChar(s: string, sub: string)
    requires Contains(s, sub) && sub != []
    ensures sub[0] in s
    decreases |s|
  {
    if s[..|sub|] == sub {
      assert s[0] == sub[0];
    } else {
      ContainsFirstChar(s[1..], sub);
      assert sub[0] in s[1..];
    }
  }

  /** Every confidence note mentions "Missing". */
  lemma MissingNoteMentionsMissing(name: string)
    ensures Contains(MissingNote(name), "Missing")
  {
    assert MissingNote(name)[..|"Missing"|] == "Missing";
  }

  /** The spacer note does not mention "Missing". */
  lemma SpacerNoteKept()
    ensures !Contains(InsufficientSpacerNote, "Missing")
  {
    assert 'M' !in "Insufficient data for precise ";
    assert 'M' !in "spacer calculation; using current setup";
    if Contains(InsufficientSpacerNote, "Missing") {
      ContainsFirstChar(InsufficientSpacerNote, "Missing");
      assert false;
    }
  }

  lemma {:induction false} WithoutMissingAppend(a: seq<string>, b: seq<string>)
    ensures WithoutMissing(a + b) == WithoutMissing(a) + WithoutMissing(b)
    decreases |a|
  {
    if a != [] {
      assert (a + b)[0] == a[0];
      assert (a + b)[1..] == a[1..] + b;
      WithoutMissingAppend(a[1..], b);
      var head := if Contains(a[0], "Missing") then [] else [a[0]];
      calc {
        WithoutMissing(a + b);
        head + WithoutMissing(a[1..] + b);
        head + (WithoutMissing(a[1..]) + WithoutMissing(b));
        (head + WithoutMissing(a[1..])) + WithoutMissing(b);
      }
    } else {
      assert a + b == b;
    }
  }

  /** The filter keeps exactly the notes without "Missing". */
  lemma {:induction false} WithoutMissingMembers(notes: seq<string>, n: string)
    ensures n in WithoutMissing(notes) <==> n in notes && !Contains(n, "Missing")
    decreases |notes|
  {
    if notes != [] {
      WithoutMissingMembers(notes[1..], n);
      assert notes == [notes[0]] + notes[1..];
    }
  }

  /** The filter removes every confidence note. */
  lemma {:induction false} MissingNotesFiltered(names: seq<string>)
    ensures WithoutMissing(MissingNotes(names)) == []
    decreases |names|
  {
    if names != [] {
      var init := names[..|names| - 1];
      MissingNotesFiltered(init);
      MissingNoteMentionsMissing(names[|names| - 1]);
      WithoutMissingAppend(MissingNotes(init), [MissingNote(names[|names| - 1])]);
    }
  }

  /** The engine gets no frame stack, so its notes are the spacer note
      followed by confidence notes, and only the spacer note survives. */
  lemma EngineNotesFiltered(input: FitInput)
    ensures WithoutMissing(EngineResult(input).notes) == [InsufficientSpacerNote]
  {
    var missing := MissingFieldNames(RequiredFields(EngineRider(input), EngineFrame(input), EngineSetup(input)));
    assert EngineResult(input).notes == [InsufficientSpacerNote] + MissingNotes(missing);
    WithoutMissingAppend([InsufficientSpacerNote], MissingNotes(missing));
    MissingNotesFiltered(missing);
    SpacerNoteKept();
  }

  /** Rationale order: pain-point sentences (hands, neck, back, each at most
      once), then at most one style sentence, at most one flexibility
      sentence, and last the engine's spacer note. */
  lemma RationaleOrder(input: FitInput)
    ensures LegacyResult(input).rationale
         == PainRationale(input.painPoints) + StyleRationale(input.ridingStyle)
          + FlexibilityRationale(FlexibilityFromLevel(input.flexibilityLevel)) + [InsufficientSpacerNote]
    ensures |PainRationale(input.painPoints)| <= 3
    ensures |StyleRationale(input.ridingStyle)| <= 1
    ensures |FlexibilityRationale(FlexibilityFromLevel(input.flexibilityLevel))| <= 1
    ensures var rationale := LegacyResult(input).rationale;
      rationale[|rationale| - 1] == InsufficientSpacerNote
  {
    EngineNotesFiltered(input);
  }

  /** With no frame stack the engine gives no spacer band: the ideal spacers
      are the input spacers and the range is 5 mm either side. */
  lemma AdapterSpacers(input: FitInput)
    ensures LegacyResult(input).idealSpacerMm == input.spacerMm
    ensures LegacyResult(input).idealSpacerRangeMm == (input.spacerMm - 5.0, input.spacerMm + 5.0)
  {
    var v1 := EngineResult(input);
    assert !HasSpacerData(EngineFrame(input), EngineSetup(input));
    assert v1.spacers == SpacerSpec(EngineFrame(input), EngineSetup(input));
    assert v1.spacers == SpacerRecommendation(input.spacerMm, None, None);
    assert LegacyResult(input) == LegacyFields(input, v1);
  }

  /** An engine confidence in [0.3, 1] maps to a percentage in [57, 95]. */
  lemma LegacyConfidenceRange(confidence: real)
    requires 0.3 <= confidence <= 1.0
    ensures 57 <= LegacyConfidence(confidence) <= 95
  {
    RoundMonotone(56.5, 40.0 + confidence * 55.0);
    RoundMonotone(40.0 + confidence * 55.0, 95.0);
    RoundUnique(56.5, 57);
    RoundOfInt(95);
  }

  /** The frame stack is always reported missing, so the percentage never
      exceeds round(40 + 0.85 * 55) = 87. */
  lemma AdapterConfidence(input: FitInput)
    ensures 57 <= LegacyResult(input).confidence <= 87
  {
    var rider, frame, current := EngineRider(input), EngineFrame(input), EngineSetup(input);
    MissingFieldNamesExpanded(rider, frame, current);
    var missing := |MissingFieldNames(RequiredFields(rider, frame, current))|;
    assert missing >= 1;
    var c := ConfidenceScore(missing);
    assert 0.3 <= c <= 0.85;
    RoundMonotone(56.5, 40.0 + c * 55.0);
    RoundMonotone(40.0 + c * 55.0, 86.75);
    RoundUnique(56.5, 57);
    RoundUnique(86.75, 87);
  }

  /** The snapped stem is never below 50, so the bar is kept unless the
      stem snaps to 120 and the bar is not already long. */
  lemma RecommendedBarIsCurrentOrLong(input: FitInput)
    ensures var r := LegacyResult(input);
      r.recommendedBarReachCategory
        == if r.idealStemMm == 120 && input.barReachCategory != FC.Long then FC.Long else input.barReachCategory
  {
    var basis := BasisStem(EngineRider(input), EngineFrame(input), EngineSetup(input));
    SnappedStemIsSnap(basis);
    StemSizesMembers();
  }

  /** `consider_bar_change` appears exactly for snapped stems of at most 50 or
      at least 110; each frame flag comes with it; the frame flags never
      appear together; and each frame flag has its exact condition. */
  lemma FlagsConsistent(snappedMm: int, effectiveReach: real, targetMid: int)
    ensures var flags := Flags(snappedMm, effectiveReach, targetMid);
      && (ConsiderBarChangeFlag in flags <==> snappedMm <= 50 || snappedMm >= 110)
      && (FrameTooLongFlag in flags ==> ConsiderBarChangeFlag in flags)
      && (FrameTooShortFlag in flags ==> ConsiderBarChangeFlag in flags)
      && !(FrameTooLongFlag in flags && FrameTooShortFlag in flags)
      && (FrameTooLongFlag in flags <==> snappedMm <= 50 && effectiveReach > targetMid as real)
      && (FrameTooShortFlag in flags <==> snappedMm >= 110 && effectiveReach < targetMid as real)
  {
    assert FrameTooLongFlag[6] == 'm' && FrameTooShortFlag[6] == 'm' && ConsiderBarChangeFlag[6] == 'e';
    assert FrameTooLongFlag[16] == 'l' && FrameTooShortFlag[16] == 's';
  }

  /** The stem is a standard size with a 5 mm band either side, and the reach
      delta is the rounded effective reach minus the target. */
  lemma AdapterStemAndReach(input: FitInput)
    ensures var r := LegacyResult(input);
      && r.idealStemMm in StemSizesMm
      && r.idealStemRangeMm == (r.idealStemMm - 5, r.idealStemMm + 5)
      && r.currentEffectiveReachMm
           == Round(input.frameReachMm + input.stemMm + GetBarReachMm(input.barReachCategory) as real + 10.0)
      && r.reachDeltaMm == r.currentEffectiveReachMm - r.targetReachMm
  {
    var r := LegacyResult(input);
    SnappedStemIsSnap(BasisStem(EngineRider(input), EngineFrame(input), EngineSetup(input)));
    RoundShift(CurrentEffectiveReach(input) - r.targetReachMm as real, r.targetReachMm);
  }

  /** The single target drop is the middle of the style's band. */
  lemma AdapterTargetDrop(input: FitInput)
    ensures LegacyResult(input).targetDropMm
         == match input.ridingStyle
            case Comfort => 15
            case Endurance => 30
            case Race => 65
  {
    RoundOfInt(15);
    RoundOfInt(30);
    RoundOfInt(65);
  }
}
