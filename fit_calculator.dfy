/**
 * The older standalone fit calculator: target reach and stack from body
 * measurements, riding style, flexibility level and pain points; an ideal
 * stem on a 10 mm grid, an ideal spacer stack on a 5 mm grid, a bar-reach
 * category, and a bounded discomfort score for the current setup.
 *
 * The source treats a field as absent when it is `undefined` or falsy
 * (`x || default`): an absent or 0 torso length, an absent or empty riding
 * style and an absent or 0 flexibility level all take their defaults.
 */
module FitCalculator {
  import opened Prelude

  datatype BarCategory = Short | Med | Long

  datatype RiderProfile = RiderProfile(
    heightCm: real,
    inseamCm: real,
    torsoCm: Option<real>,
    armCm: Option<real>,
    flexibilityLevel: Option<int>,    // 1 low, 2 medium, 3 high
    ridingStyle: Option<string>,      // "comfort", "endurance" or "race"
    painPoints: Option<seq<string>>)  // "hands", "neck", "back", "saddle"

  datatype BikeGeometry = BikeGeometry(stackMm: real, reachMm: real)

  datatype CurrentSetup = CurrentSetup(
    stemMm: Option<real>,
    spacerMm: Option<real>,
    barReachCategory: Option<BarCategory>)

  datatype FitRecommendation = FitRecommendation(
    targetReachMm: int,
    targetStackMm: int,
    idealStemMm: int,
    idealSpacerMm: int,
    idealBarReachCategory: BarCategory,
    discomfortScore: int,
    notes: seq<string>)

  const ComfortNote := "Comfort position: shortened reach for upright posture"
  const RaceNote := "Race position: extended reach for aerodynamics"
  const LowFlexibilityNote := "Low flexibility: reducing reach to avoid overextension"
  const HandReachNote := "Hand discomfort: reducing reach to take weight off hands"
  const NeckNote := "Neck discomfort: will raise bar height"
  const BackNeckNote := "Back/neck pain: raising bar height to reduce strain"
  const HandBarNote := "Hand pain: suggesting shorter bar reach to reduce wrist extension"

  // ---------------------------------------------------------------------------
  // Estimates and defaults
  // ---------------------------------------------------------------------------

  /** Torso estimate: 32% of height, rounded half up; the inseam is unused. */
  function EstimateTorso(heightCm: real, inseamCm: real): (r: int)
    ensures heightCm * 0.32 - 0.5 < r as real <= heightCm * 0.32 + 0.5
  {
    Round(heightCm * 0.32)
  }

  /** Arm estimate: 38% of height, rounded half up. */
  function EstimateArm(heightCm: real): (r: int)
    ensures heightCm * 0.38 - 0.5 < r as real <= heightCm * 0.38 + 0.5
  {
    Round(heightCm * 0.38)
  }

  /** `o || d` for a number: the value when present and non-zero, else `d`. */
  function OrNumber(o: Option<real>, d: real): (r: real)
    ensures r == d || (o.Some? && r == o.value && r != 0.0)
    ensures o.Some? && o.value != 0.0 ==> r == o.value
  {
    if o.Some? && o.value != 0.0 then o.value else d
  }

  function TorsoLength(profile: RiderProfile): real {
    OrNumber(profile.torsoCm, EstimateTorso(profile.heightCm, profile.inseamCm) as real)
  }

  function ArmLength(profile: RiderProfile): real {
    OrNumber(profile.armCm, EstimateArm(profile.heightCm) as real)
  }

  /** `profile.riding_style || 'endurance'` */
  function StyleOf(profile: RiderProfile): string {
    if profile.ridingStyle.Some? && profile.ridingStyle.value != "" then profile.ridingStyle.value
    else "endurance"
  }

  /** `profile.flexibility_level || 2` */
  function FlexibilityOf(profile: RiderProfile): int {
    if profile.flexibilityLevel.Some? && profile.flexibilityLevel.value != 0 then profile.flexibilityLevel.value
    else 2
  }

  /** `profile.pain_points || []` (an array, even an empty one, is truthy) */
  function PainOf(profile: RiderProfile): seq<string> {
    profile.painPoints.GetOr([])
  }

  // ---------------------------------------------------------------------------
  // Reach and stack, in closed form
  // ---------------------------------------------------------------------------

  /** Height in mm times a multiplier steered by the torso/inseam ratio. */
  function BaseReach(profile: RiderProfile): real
    requires profile.inseamCm != 0.0
  {
    ReachFromHeight(profile.heightCm, ReachMultiplier(TorsoLength(profile) / profile.inseamCm))
  }

  /** 0.45 at a torso/inseam ratio of 0.6, 0.03 more per 0.1 of ratio. */
  function ReachMultiplier(torsoInseamRatio: real): real {
    0.45 + (torsoInseamRatio - 0.6) * 0.3
  }

  function ReachFromHeight(heightCm: real, multiplier: real): real {
    heightCm * 10.0 * multiplier
  }

  function StyleReachAdjustment(style: string): real {
    if style == "comfort" then -20.0 else if style == "race" then 15.0 else 0.0
  }

  function FlexibilityReachAdjustment(flexibility: int): real {
    if flexibility == 1 then -10.0 else if flexibility == 3 then 10.0 else 0.0
  }

  function PainReachAdjustment(pain: seq<string>): real {
    if "hands" in pain then -15.0 else 0.0
  }

  /** The unrounded target reach. */
  function TargetReach(profile: RiderProfile): real
    requires profile.inseamCm != 0.0
  {
    BaseReach(profile) + StyleReachAdjustment(StyleOf(profile))
      + FlexibilityReachAdjustment(FlexibilityOf(profile)) + PainReachAdjustment(PainOf(profile))
  }

  function FlexibilityStackAdjustment(flexibility: int): real {
    if flexibility == 1 then 20.0 else if flexibility == 3 then -10.0 else 0.0
  }

  function StyleStackAdjustment(style: string): real {
    if style == "comfort" then 25.0 else if style == "race" then -15.0 else 0.0
  }

  function PainStackAdjustment(pain: seq<string>): real {
    if "neck" in pain || "back" in pain then 20.0 else 0.0
  }

  /** How much the target stack rises above the frame's own stack. */
  function StackGap(profile: RiderProfile): real {
    FlexibilityStackAdjustment(FlexibilityOf(profile)) + StyleStackAdjustment(StyleOf(profile))
      + PainStackAdjustment(PainOf(profile))
  }

  // ---------------------------------------------------------------------------
  // Stem, spacers, bar
  // ---------------------------------------------------------------------------

  /** The stem that closes the reach gap, scaled by arm length over 65 cm,
      rounded to 10 mm and clamped to [60, 130]. */
  function IdealStem(profile: RiderProfile, geometry: BikeGeometry): int
    requires profile.inseamCm != 0.0
  {
    StemForGap(TargetReach(profile) - geometry.reachMm, ArmLength(profile) / 65.0)
  }

  function StemForGap(reachGap: real, armMultiplier: real): int {
    IntMax(60, IntMin(130, StemOnGrid(reachGap, armMultiplier)))
  }

  /** The arm-scaled stem, rounded half up to a multiple of 10 mm: the
      multiple of 10 nearest to it, the larger one on a tie. */
  function StemOnGrid(reachGap: real, armMultiplier: real): (r: int)
    ensures r % 10 == 0
    ensures (80.0 + reachGap) * armMultiplier - 5.0 < r as real <= (80.0 + reachGap) * armMultiplier + 5.0
  {
    Round((80.0 + reachGap) * armMultiplier / 10.0) * 10
  }

  /** The stack gap rounded to 5 mm and clamped to [0, 50]. */
  function IdealSpacer(profile: RiderProfile): int {
    IntMax(0, IntMin(50, IntMax(0, Round(StackGap(profile) / 5.0) * 5)))
  }

  /** Short below 60 cm of arm, long above 70 cm, medium otherwise. */
  function BarByArm(armLength: real): BarCategory {
    if armLength < 60.0 then Short else if armLength > 70.0 then Long else Med
  }

  /** One category shorter, stopping at short. */
  function Shorter(c: BarCategory): BarCategory {
    match c
    case Long => Med
    case Med => Short
    case Short => Short
  }

  function IdealBar(armLength: real, pain: seq<string>): BarCategory {
    var byArm := BarByArm(armLength);
    if "hands" in pain && byArm != Short then (if byArm == Long then Med else Short) else byArm
  }

  // ---------------------------------------------------------------------------
  // Discomfort and notes
  // ---------------------------------------------------------------------------

  function StemDiscomfort(current: Option<CurrentSetup>, idealStem: int): real {
    if current.Some? && current.value.stemMm.Some? && current.value.stemMm.value != 0.0 then
      Min(40.0, Abs(current.value.stemMm.value - idealStem as real) / 2.0)
    else 0.0
  }

  function SpacerDiscomfort(current: Option<CurrentSetup>, idealSpacer: int): real {
    if current.Some? && current.value.spacerMm.Some? then
      Min(30.0, Abs(current.value.spacerMm.value - idealSpacer as real))
    else 0.0
  }

  function BarDiscomfort(current: Option<CurrentSetup>, idealBar: BarCategory): real {
    if current.Some? && current.value.barReachCategory.Some? && current.value.barReachCategory.value != idealBar then
      20.0
    else 0.0
  }

  function DiscomfortScore(current: Option<CurrentSetup>, idealStem: int, idealSpacer: int,
                           idealBar: BarCategory, painCount: nat): int
  {
    Round(Min(100.0, StemDiscomfort(current, idealStem) + SpacerDiscomfort(current, idealSpacer)
                     + BarDiscomfort(current, idealBar) + (painCount * 5) as real))
  }

  /** The notes in the order the steps push them. */
  function CalculatorNotes(style: string, flexibility: int, pain: seq<string>, byArm: BarCategory): seq<string> {
    ReachNotes(style, flexibility, pain) + StackNotes(pain) + BarNotes(pain, byArm)
  }

  function ReachNotes(style: string, flexibility: int, pain: seq<string>): seq<string> {
    (if style == "comfort" then [ComfortNote] else if style == "race" then [RaceNote] else [])
    + (if flexibility == 1 then [LowFlexibilityNote] else [])
    + (if "hands" in pain then [HandReachNote] else [])
    + (if "neck" in pain then [NeckNote] else [])
  }

  function StackNotes(pain: seq<string>): seq<string> {
    if "neck" in pain || "back" in pain then [BackNeckNote] else []
  }

  function BarNotes(pain: seq<string>, byArm: BarCategory): seq<string> {
    if "hands" in pain && byArm != Short then [HandBarNote] else []
  }

  /** The whole recommendation, as a value. */
  function CalculateFitSpec(profile: RiderProfile, geometry: BikeGeometry, current: Option<CurrentSetup>): FitRecommendation
    requires profile.inseamCm != 0.0
  {
    var stem := IdealStem(profile, geometry);
    var spacer := IdealSpacer(profile);
    var bar := IdealBar(ArmLength(profile), PainOf(profile));
    FitRecommendation(
      Round(TargetReach(profile)),
      Round(geometry.stackMm + StackGap(profile)),
      stem,
      spacer,
      bar,
      DiscomfortScore(current, stem, spacer, bar, |PainOf(profile)|),
      CalculatorNotes(StyleOf(profile), FlexibilityOf(profile), PainOf(profile), BarByArm(ArmLength(profile))))
  }

  /** The calculator as written: the adjustments are applied one step at a
      time. Steps 1-4 (reach), 5 (stack) and 9 (discomfort) are the methods
      below, called in the source's order; steps 6-8 are inline. */
  method CalculateFit(profile: RiderProfile, geometry: BikeGeometry, current: Option<CurrentSetup>)
    returns (r: FitRecommendation)
    requires profile.inseamCm != 0.0
    ensures r == CalculateFitSpec(profile, geometry, current)
  {
    var armLength := OrNumber(profile.armCm, EstimateArm(profile.heightCm) as real);
    var targetReach, notes := AdjustReach(profile);
    var targetStack, stackNotes := AdjustStack(profile, geometry.stackMm);
    notes := notes + stackNotes;

    // Step 6: stem
    var reachGap := targetReach - geometry.reachMm;
    var armMultiplier := armLength / 65.0;
    var idealStem := StemOnGrid(reachGap, armMultiplier);
    idealStem := IntMax(60, IntMin(130, idealStem));
    assert idealStem == IdealStem(profile, geometry);

    // Step 7: spacers
    var stackGap := targetStack - geometry.stackMm;
    var idealSpacer := IntMax(0, Round(stackGap / 5.0) * 5);
    idealSpacer := IntMax(0, IntMin(50, idealSpacer));
    assert idealSpacer == IdealSpacer(profile);

    // Step 8: bar reach category
    var painPoints := profile.painPoints.GetOr([]);
    var idealBarReach := Med;
    if armLength < 60.0 {
      idealBarReach := Short;
    } else if armLength > 70.0 {
      idealBarReach := Long;
    }
    if "hands" in painPoints && idealBarReach != Short {
      idealBarReach := if idealBarReach == Long then Med else Short;
      notes := notes + [HandBarNote];
    }
    assert idealBarReach == IdealBar(armLength, painPoints);

    var score := ScoreDiscomfort(current, idealStem, idealSpacer, idealBarReach, |painPoints|);
    r := FitRecommendation(Round(targetReach), Round(targetStack), idealStem, idealSpacer,
                           idealBarReach, score, notes);
  }

  /** Steps 1-4: the base reach, then the style, flexibility and pain-point
      adjustments, each with its note. */
  method AdjustReach(profile: RiderProfile) returns (targetReach: real, notes: seq<string>)
    requires profile.inseamCm != 0.0
    ensures targetReach == TargetReach(profile)
    ensures notes == ReachNotes(StyleOf(profile), FlexibilityOf(profile), PainOf(profile))
  {
    notes := [];

    // Step 1: base reach
    var torsoLength := OrNumber(profile.torsoCm, EstimateTorso(profile.heightCm, profile.inseamCm) as real);
    assert torsoLength == TorsoLength(profile);
    var torsoInseamRatio := torsoLength / profile.inseamCm;
    var baseReachMultiplier := 0.45 + (torsoInseamRatio - 0.6) * 0.3;
    assert baseReachMultiplier == ReachMultiplier(TorsoLength(profile) / profile.inseamCm);
    targetReach := ReachFromHeight(profile.heightCm, baseReachMultiplier);
    assert targetReach == BaseReach(profile);

    // Step 2: riding style
    var ridingStyle := if profile.ridingStyle.Some? && profile.ridingStyle.value != "" then profile.ridingStyle.value else "endurance";
    if ridingStyle == "comfort" {
      targetReach := targetReach - 20.0;
      notes := notes + [ComfortNote];
    } else if ridingStyle == "race" {
      targetReach := targetReach + 15.0;
      notes := notes + [RaceNote];
    }
    assert ridingStyle == StyleOf(profile);
    assert targetReach == BaseReach(profile) + StyleReachAdjustment(ridingStyle);
    ghost var styleNotes := if ridingStyle == "comfort" then [ComfortNote] else if ridingStyle == "race" then [RaceNote] else [];
    assert notes == styleNotes;

    // Step 3: flexibility
    var flexibility := if profile.flexibilityLevel.Some? && profile.flexibilityLevel.value != 0 then profile.flexibilityLevel.value else 2;
    if flexibility == 1 {
      targetReach := targetReach - 10.0;
      notes := notes + [LowFlexibilityNote];
    } else if flexibility == 3 {
      targetReach := targetReach + 10.0;
    }
    assert flexibility == FlexibilityOf(profile);
    assert targetReach == BaseReach(profile) + StyleReachAdjustment(ridingStyle)
      + FlexibilityReachAdjustment(flexibility);
    assert notes == styleNotes + (if flexibility == 1 then [LowFlexibilityNote] else []);

    // Step 4: pain points
    var painPoints := profile.painPoints.GetOr([]);
    if "hands" in painPoints {
      targetReach := targetReach - 15.0;
      notes := notes + [HandReachNote];
    }
    if "neck" in painPoints {
      notes := notes + [NeckNote];
    }
  }

  /** Step 5: the frame stack raised or lowered by flexibility, style and
      neck or back pain; the note for the pain adjustment. */
  method AdjustStack(profile: RiderProfile, frameStackMm: real) returns (targetStack: real, notes: seq<string>)
    ensures targetStack == frameStackMm + StackGap(profile)
    ensures notes == StackNotes(PainOf(profile))
  {
    notes := [];
    var ridingStyle := if profile.ridingStyle.Some? && profile.ridingStyle.value != "" then profile.ridingStyle.value else "endurance";
    var flexibility := if profile.flexibilityLevel.Some? && profile.flexibilityLevel.value != 0 then profile.flexibilityLevel.value else 2;
    var painPoints := profile.painPoints.GetOr([]);
    targetStack := frameStackMm;
    if flexibility == 1 {
      targetStack := targetStack + 20.0;
    } else if flexibility == 3 {
      targetStack := targetStack - 10.0;
    }
    if ridingStyle == "comfort" {
      targetStack := targetStack + 25.0;
    } else if ridingStyle == "race" {
      targetStack := targetStack - 15.0;
    }
    if "neck" in painPoints || "back" in painPoints {
      targetStack := targetStack + 20.0;
      notes := notes + [BackNeckNote];
    }
  }

  /** Step 9: up to 40 points for the stem, 30 for the spacers, 20 for the
      wrong bar category, 5 per pain point, capped at 100 and rounded. */
  method ScoreDiscomfort(current: Option<CurrentSetup>, idealStem: int, idealSpacer: int,
                         idealBar: BarCategory, painCount: nat) returns (score: int)
    ensures score == DiscomfortScore(current, idealStem, idealSpacer, idealBar, painCount)
  {
    var discomfortScore := 0.0;
    if current.Some? && current.value.stemMm.Some? && current.value.stemMm.value != 0.0 {
      var stemDiff := Abs(current.value.stemMm.value - idealStem as real);
      discomfortScore := discomfortScore + Min(40.0, stemDiff / 2.0);
    }
    if current.Some? && current.value.spacerMm.Some? {
      var spacerDiff := Abs(current.value.spacerMm.value - idealSpacer as real);
      discomfortScore := discomfortScore + Min(30.0, spacerDiff);
    }
    if current.Some? && current.value.barReachCategory.Some? && current.value.barReachCategory.value != idealBar {
      discomfortScore := discomfortScore + 20.0;
    }
    discomfortScore := discomfortScore + (painCount * 5) as real;
    score := Round(Min(100.0, discomfortScore));
  }

  // ---------------------------------------------------------------------------
  // Lookup helpers
  // ---------------------------------------------------------------------------

  /** The bar reach span, in mm, a category stands for. */
  function GetBarReachRange(category: BarCategory): (r: (int, int))
    ensures r.0 < r.1
    ensures category == Short ==> r.1 <= 75
    ensures category != Short ==> r.0 >= 75
  {
    match category
    case Short => (70, 75)
    case Med => (75, 80)
    case Long => (85, 95)
  }

  datatype DiscomfortLevel = Optimal | Minor | Moderate | Significant

  datatype DiscomfortLabel = DiscomfortLabel(level: DiscomfortLevel, labelText: string, color: string)

  /** Severity order of the levels. */
  function LevelRank(level: DiscomfortLevel): nat {
    match level
    case Optimal => 0
    case Minor => 1
    case Moderate => 2
    case Significant => 3
  }

  /** The label for a score: thresholds 15, 35 and 60. */
  function GetDiscomfortLevel(score: real): (r: DiscomfortLabel)
    ensures r.level == Optimal <==> score < 15.0
    ensures r.level == Minor <==> 15.0 <= score < 35.0
    ensures r.level == Moderate <==> 35.0 <= score < 60.0
    ensures r.level == Significant <==> 60.0 <= score
  {
    if score < 15.0 then DiscomfortLabel(Optimal, "Optimal fit", "text-green-600")
    else if score < 35.0 then DiscomfortLabel(Minor, "Minor adjustments recommended", "text-yellow-600")
    else if score < 60.0 then DiscomfortLabel(Moderate, "Moderate issues detected", "text-orange-600")
    else DiscomfortLabel(Significant, "Significant fit issues", "text-red-600")
  }

  // ---------------------------------------------------------------------------
  // Properties
  // ---------------------------------------------------------------------------

  /** The ideal stem is a multiple of 10 mm between 60 and 130. */
  lemma IdealStemOnGrid(profile: RiderProfile, geometry: BikeGeometry, current: Option<CurrentSetup>)
    requires profile.inseamCm != 0.0
    ensures var stem := CalculateFitSpec(profile, geometry, current).idealStemMm;
      stem % 10 == 0 && 60 <= stem <= 130
  {
    assert CalculateFitSpec(profile, geometry, current).idealStemMm == IdealStem(profile, geometry);
    StemForGapOnGrid(TargetReach(profile) - geometry.reachMm, ArmLength(profile) / 65.0);
  }

  lemma StemForGapOnGrid(reachGap: real, armMultiplier: real)
    ensures var stem := StemForGap(reachGap, armMultiplier);
      stem % 10 == 0 && 60 <= stem <= 130
  {
    var onGrid := StemOnGrid(reachGap, armMultiplier);
    assert onGrid % 10 == 0;
  }

  /** The ideal spacer stack is a multiple of 5 mm between 0 and 50. */
  lemma IdealSpacerOnGrid(profile: RiderProfile)
    ensures var spacer := IdealSpacer(profile);
      spacer % 5 == 0 && 0 <= spacer <= 50
  {
    var k := Round(StackGap(profile) / 5.0);
    assert (k * 5) % 5 == 0;
  }

  /** The discomfort score is an integer between 0 and 100. */
  lemma DiscomfortBounded(current: Option<CurrentSetup>, idealStem: int, idealSpacer: int,
                          idealBar: BarCategory, painCount: nat)
    ensures 0 <= DiscomfortScore(current, idealStem, idealSpacer, idealBar, painCount) <= 100
  {
    var total := StemDiscomfort(current, idealStem) + SpacerDiscomfort(current, idealSpacer)
                 + BarDiscomfort(current, idealBar) + (painCount * 5) as real;
    assert total >= 0.0;
    RoundMonotone(0.0, Min(100.0, total));
    RoundMonotone(Min(100.0, total), 100.0);
    RoundOfInt(0);
    RoundOfInt(100);
  }

  /** With hand pain the bar is never long: arms under 60 cm get short,
      longer arms get one category shorter than the arm rule gives. */
  lemma HandPainShortensBar(armLength: real, pain: seq<string>)
    requires "hands" in pain
    ensures IdealBar(armLength, pain) != Long
    ensures armLength < 60.0 ==> IdealBar(armLength, pain) == Short
    ensures armLength >= 60.0 ==> IdealBar(armLength, pain) == Shorter(BarByArm(armLength))
  {
  }

  /** Without hand pain the arm rule alone decides. */
  lemma NoHandPainKeepsBar(armLength: real, pain: seq<string>)
    requires "hands" !in pain
    ensures IdealBar(armLength, pain) == BarByArm(armLength)
  {
  }

  /** Neck or back pain raises the target stack by exactly 20 mm against the
      same rider with a pain list that has neither. */
  lemma NeckOrBackRaisesStack(profile: RiderProfile, geometry: BikeGeometry, current: Option<CurrentSetup>,
                              withPain: seq<string>, withoutPain: seq<string>)
    requires profile.inseamCm != 0.0
    requires "neck" in withPain || "back" in withPain
    requires "neck" !in withoutPain && "back" !in withoutPain
    ensures CalculateFitSpec(profile.(painPoints := Some(withPain)), geometry, current).targetStackMm
         == CalculateFitSpec(profile.(painPoints := Some(withoutPain)), geometry, current).targetStackMm + 20
  {
    var p1 := profile.(painPoints := Some(withPain));
    var p2 := profile.(painPoints := Some(withoutPain));
    assert StackGap(p1) == StackGap(p2) + 20.0;
    RoundShift(geometry.stackMm + StackGap(p2), 20);
    assert geometry.stackMm + StackGap(p1) == geometry.stackMm + StackGap(p2) + 20 as real;
  }

  /** An absent or empty riding style is read as "endurance". */
  lemma MissingStyleIsEndurance(profile: RiderProfile, geometry: BikeGeometry, current: Option<CurrentSetup>)
    requires profile.inseamCm != 0.0
    ensures CalculateFitSpec(profile.(ridingStyle := None), geometry, current)
         == CalculateFitSpec(profile.(ridingStyle := Some("endurance")), geometry, current)
    ensures CalculateFitSpec(profile.(ridingStyle := Some("")), geometry, current)
         == CalculateFitSpec(profile.(ridingStyle := Some("endurance")), geometry, current)
  {
    assert StyleOf(profile.(ridingStyle := None)) == StyleOf(profile.(ridingStyle := Some("endurance")));
    assert StyleOf(profile.(ridingStyle := Some(""))) == StyleOf(profile.(ridingStyle := Some("endurance")));
  }

  /** An absent or 0 flexibility level is read as 2. */
  lemma MissingFlexibilityIsTwo(profile: RiderProfile, geometry: BikeGeometry, current: Option<CurrentSetup>)
    requires profile.inseamCm != 0.0
    ensures CalculateFitSpec(profile.(flexibilityLevel := None), geometry, current)
         == CalculateFitSpec(profile.(flexibilityLevel := Some(2)), geometry, current)
    ensures CalculateFitSpec(profile.(flexibilityLevel := Some(0)), geometry, current)
         == CalculateFitSpec(profile.(flexibilityLevel := Some(2)), geometry, current)
  {
  }

  /** A higher score never gets a milder label. */
  lemma DiscomfortLevelMonotone(a: real, b: real)
    requires a <= b
    ensures LevelRank(GetDiscomfortLevel(a).level) <= LevelRank(GetDiscomfortLevel(b).level)
  {
  }
}
