/** The v1 fit engine: from rider anthropometrics, frame geometry and the
    current cockpit setup to a target reach band, a target drop band, a stem
    length snapped to a standard size, a spacer band, a confidence score and a
    list of notes. All lengths are millimetres unless a name says `Cm`. */
module Fit {
  import opened Prelude
  import Units

  // ---------------------------------------------------------------------------
  // Data model
  // ---------------------------------------------------------------------------

  datatype Flexibility = Low | Medium | High
  datatype RidingStyle = Comfort | Endurance | Race

  /** Torso and arm length are required by the type but may be 0, which the
      engine reads as "absent". */
  datatype RiderProfile = RiderProfile(
    heightCm: Option<real>,
    inseamCm: Option<real>,
    torsoLengthCm: real,
    armLengthCm: real,
    flexibility: Flexibility,
    ridingStyle: RidingStyle)

  datatype FrameGeometry = FrameGeometry(
    stackMm: real,
    reachMm: real,
    headTubeAngleDeg: Option<real>,
    seatTubeAngleDeg: Option<real>,
    wheelbaseMm: Option<real>)

  /** The spacer stack is checked against `undefined` by the engine, so it is
      optional here; the hood offset is optional in the type. */
  datatype CurrentSetup = CurrentSetup(
    stemLengthMm: real,
    spacerStackMm: Option<real>,
    barReachMm: real,
    hoodReachOffsetMm: Option<real>,
    saddleHeightMm: Option<real>,
    saddleSetbackMm: Option<real>)

  datatype ReachBand = ReachBand(minMm: int, midMm: int, maxMm: int)
  datatype DropRange = DropRange(minMm: int, maxMm: int)
  datatype StemRecommendation = StemRecommendation(snappedMm: int, allowedMm: seq<int>, basisMm: int)
  /** `minMm` and `maxMm` are `null` in the TypeScript result when data is insufficient. */
  datatype SpacerRecommendation = SpacerRecommendation(recommendedMm: real, minMm: Option<real>, maxMm: Option<real>)

  datatype FitRecommendation = FitRecommendation(
    targetReach: ReachBand,
    targetDrop: DropRange,
    stem: StemRecommendation,
    spacers: SpacerRecommendation,
    confidence: real,
    notes: seq<string>)

  // ---------------------------------------------------------------------------
  // Constants
  // ---------------------------------------------------------------------------

  /** Standard stem lengths on the market. */
  const StemSizesMm: seq<int> := [50, 60, 70, 80, 90, 100, 110, 120]

  const DefaultHoodReachOffsetMm: real := 10.0
  const ReachToleranceMm: real := 5.0
  /** Spacer recommended when neither frame stack nor current spacers are known. */
  const DefaultSpacerMm: real := 20.0
  const SpacerBandMm: real := 20.0

  /** The note for missing spacer data; written as two literals only so that
      the verifier can read its characters. */
  const InsufficientSpacerNote: string := "Insufficient data for precise " + "spacer calculation; using current setup"

  function FlexibilityAdjustment(f: Flexibility): real {
    match f
    case Low => -15.0
    case Medium => 0.0
    case High => 10.0
  }

  function RidingStyleAdjustment(s: RidingStyle): real {
    match s
    case Comfort => -20.0
    case Endurance => 0.0
    case Race => 15.0
  }

  /** Target drop band per riding style. */
  function DropRangeFor(s: RidingStyle): (r: DropRange)
    ensures r.minMm < r.maxMm
  {
    match s
    case Comfort => DropRange(10, 20)
    case Endurance => DropRange(20, 40)
    case Race => DropRange(50, 80)
  }

  // ---------------------------------------------------------------------------
  // Shared notes array
  // ---------------------------------------------------------------------------

  /** The `notes` array that the recommendation creates and its helpers push to. */
  class NoteLog {
    var entries: seq<string>

    constructor ()
      ensures entries == []
    {
      entries := [];
    }

    method Push(note: string)
      modifies this
      ensures entries == old(entries) + [note]
    {
      entries := entries + [note];
    }
  }

  // ---------------------------------------------------------------------------
  // Target reach and stem basis
  // ---------------------------------------------------------------------------

  /** Base reach from anthropometrics: 0.43 of the torso and 0.35 of the arm,
      both converted to millimetres. */
  function CalculateBaseReach(rider: RiderProfile): (r: real)
    ensures r == 4.3 * rider.torsoLengthCm + 3.5 * rider.armLengthCm
  {
    Units.CmToMm(rider.torsoLengthCm) * 0.43 + Units.CmToMm(rider.armLengthCm) * 0.35
  }

  /** Unrounded centre of the target reach band. */
  function TargetReachMid(rider: RiderProfile): real {
    CalculateBaseReach(rider) + (FlexibilityAdjustment(rider.flexibility) + RidingStyleAdjustment(rider.ridingStyle))
  }

  /** `current.hood_reach_offset_mm ?? 10`. */
  function HoodReachOffset(current: CurrentSetup): real {
    current.hoodReachOffsetMm.GetOr(DefaultHoodReachOffsetMm)
  }

  /** Stem length that would put the hoods exactly at the target reach. */
  function BasisStem(rider: RiderProfile, frame: FrameGeometry, current: CurrentSetup): real {
    TargetReachMid(rider) - (frame.reachMm + current.barReachMm + HoodReachOffset(current))
  }

  // ---------------------------------------------------------------------------
  // Stem snapping
  // ---------------------------------------------------------------------------

  /** `s` is a standard size nearest to `basis`, and no equally near size is longer. */
  predicate IsSnapOf(basis: real, s: int) {
    && s in StemSizesMm
    && (forall t :: t in StemSizesMm ==> Abs(basis - s as real) <= Abs(basis - t as real))
    && (forall t :: t in StemSizesMm && Abs(basis - t as real) == Abs(basis - s as real) ==> t <= s)
  }

  /** Reference definition of snapping: the size whose half-open cell
      [size - 5, size + 5) contains the basis, the end sizes taking the tails. */
  function SnappedStem(basis: real): int {
    if basis < 55.0 then 50
    else if basis < 65.0 then 60
    else if basis < 75.0 then 70
    else if basis < 85.0 then 80
    else if basis < 95.0 then 90
    else if basis < 105.0 then 100
    else if basis < 115.0 then 110
    else 120
  }

  lemma StemSizesMembers()
    ensures 50 in StemSizesMm && 60 in StemSizesMm && 70 in StemSizesMm && 80 in StemSizesMm
    ensures 90 in StemSizesMm && 100 in StemSizesMm && 110 in StemSizesMm && 120 in StemSizesMm
    ensures forall t :: t in StemSizesMm ==> t == 50 || t == 60 || t == 70 || t == 80 || t == 90 || t == 100 || t == 110 || t == 120
  {
  }

  /** The reference definition snaps to a nearest size with the longer-stem tie-break. */
  lemma SnappedStemIsSnap(basis: real)
    ensures IsSnapOf(basis, SnappedStem(basis))
  {
    StemSizesMembers();
  }

  /** Nearest-with-tie-break determines the size uniquely. */
  lemma SnapIsUnique(basis: real, s: int)
    requires IsSnapOf(basis, s)
    ensures s == SnappedStem(basis)
  {
    StemSizesMembers();
    var b := basis;
    assert Abs(b - s as real) <= Abs(b - 50.0) && Abs(b - s as real) <= Abs(b - 60.0);
    assert Abs(b - s as real) <= Abs(b - 70.0) && Abs(b - s as real) <= Abs(b - 80.0);
    assert Abs(b - s as real) <= Abs(b - 90.0) && Abs(b - s as real) <= Abs(b - 100.0);
    assert Abs(b - s as real) <= Abs(b - 110.0) && Abs(b - s as real) <= Abs(b - 120.0);
  }

  /** What a full scan establishes, by index, is a snap. */
  lemma ScanIsSnap(basis: real, s: int)
    requires s in StemSizesMm
    requires forall j :: 0 <= j < |StemSizesMm| ==> Abs(basis - s as real) <= Abs(basis - StemSizesMm[j] as real)
    requires forall j :: 0 <= j < |StemSizesMm| && Abs(basis - StemSizesMm[j] as real) == Abs(basis - s as real) ==> StemSizesMm[j] <= s
    ensures IsSnapOf(basis, s)
  {
    forall t | t in StemSizesMm
      ensures Abs(basis - s as real) <= Abs(basis - t as real)
      ensures Abs(basis - t as real) == Abs(basis - s as real) ==> t <= s
    {
      var j :| 0 <= j < |StemSizesMm| && StemSizesMm[j] == t;
    }
  }

  /** Linear scan over the sizes keeping the nearest so far; on an exact tie the
      longer size replaces the current one. */
  method SnapStemLength(basisMm: real) returns (nearest: int)
    ensures IsSnapOf(basisMm, nearest)
    ensures nearest == SnappedStem(basisMm)
  {
    nearest := StemSizesMm[0];
    var minDiff := Abs(basisMm - nearest as real);
    ghost var best := 0;
    for i := 0 to |StemSizesMm|
      invariant 0 <= best < |StemSizesMm| && nearest == StemSizesMm[best]
      invariant minDiff == Abs(basisMm - nearest as real)
      invariant forall j :: 0 <= j < i ==> minDiff <= Abs(basisMm - StemSizesMm[j] as real)
      invariant forall j :: 0 <= j < i && Abs(basisMm - StemSizesMm[j] as real) == minDiff ==> StemSizesMm[j] <= nearest
    {
      var size := StemSizesMm[i];
      var diff := Abs(basisMm - size as real);
      if diff < minDiff || (diff == minDiff && size > nearest) {
        nearest := size;
        minDiff := diff;
        best := i;
      }
      assert minDiff <= diff && (diff == minDiff ==> size <= nearest);
    }
    ScanIsSnap(basisMm, nearest);
    SnapIsUnique(basisMm, nearest);
  }

  /** The standard sizes within 10 mm of the snapped size, in ascending order. */
  function GetAllowedStems(snappedMm: int): seq<int> {
    FilterWithin(StemSizesMm, snappedMm - 10, snappedMm + 10)
  }

  /** The allowed stems are exactly the standard sizes within 10 mm of the
      snapped size, ascending, and include the snapped size itself. */
  lemma AllowedStemsSpec(snappedMm: int)
    ensures forall s :: s in GetAllowedStems(snappedMm) <==> s in StemSizesMm && snappedMm - 10 <= s <= snappedMm + 10
    ensures StrictlyAscending(GetAllowedStems(snappedMm))
    ensures snappedMm in StemSizesMm ==> snappedMm in GetAllowedStems(snappedMm)
  {
    assert StrictlyAscending(StemSizesMm);
    FilterWithinSpec(StemSizesMm, snappedMm - 10, snappedMm + 10);
  }

  // ---------------------------------------------------------------------------
  // Spacers
  // ---------------------------------------------------------------------------

  /** Both frame stack (non-zero) and the current spacer stack are known. */
  predicate HasSpacerData(frame: FrameGeometry, current: CurrentSetup) {
    frame.stackMm != 0.0 && current.spacerStackMm.Some?
  }

  /** Reference definition of the spacer recommendation: with data, a band of
      20 mm either side of the current spacers (never below 0) and the current
      spacers clamped to be non-negative; without, the current spacers (or 20)
      and no band. */
  function SpacerSpec(frame: FrameGeometry, current: CurrentSetup): SpacerRecommendation {
    if HasSpacerData(frame, current) then
      var cur := current.spacerStackMm.value;
      SpacerRecommendation(Max(0.0, cur), Some(Max(0.0, cur - SpacerBandMm)), Some(cur + SpacerBandMm))
    else
      SpacerRecommendation(current.spacerStackMm.GetOr(DefaultSpacerMm), None, None)
  }

  /** Notes the spacer step adds. */
  function SpacerNotes(frame: FrameGeometry, current: CurrentSetup): seq<string> {
    if HasSpacerData(frame, current) then [] else [InsufficientSpacerNote]
  }

  method CalculateSpacerRecommendation(frame: FrameGeometry, current: CurrentSetup, targetDrop: DropRange, notes: NoteLog)
    returns (r: SpacerRecommendation)
    modifies notes
    ensures r == SpacerSpec(frame, current)
    ensures notes.entries == old(notes.entries) + SpacerNotes(frame, current)
  {
    if frame.stackMm == 0.0 || current.spacerStackMm.None? {
      notes.Push(InsufficientSpacerNote);
      return SpacerRecommendation(current.spacerStackMm.GetOr(DefaultSpacerMm), None, None);
    }
    var spacers := current.spacerStackMm.value;
    var spacerMin := Max(0.0, spacers - SpacerBandMm);
    var spacerMax := spacers + SpacerBandMm;
    var recommended := Max(spacerMin, Min(spacerMax, spacers));
    r := SpacerRecommendation(recommended, Some(spacerMin), Some(spacerMax));
  }

  // ---------------------------------------------------------------------------
  // Confidence
  // ---------------------------------------------------------------------------

  datatype RequiredField = RequiredField(value: real, name: string)

  /** The six fields that full confidence needs, in the order they are checked. */
  function RequiredFields(rider: RiderProfile, frame: FrameGeometry, current: CurrentSetup): seq<RequiredField> {
    [ RequiredField(rider.torsoLengthCm, "torso length"),
      RequiredField(rider.armLengthCm, "arm length"),
      RequiredField(frame.stackMm, "frame stack"),
      RequiredField(frame.reachMm, "frame reach"),
      RequiredField(current.barReachMm, "bar reach"),
      RequiredField(current.stemLengthMm, "stem length") ]
  }

  /** A numeric field counts as missing when it is 0. */
  predicate IsMissing(f: RequiredField) {
    f.value == 0.0
  }

  /** Names of the missing fields, in field order. */
  function MissingFieldNames(fields: seq<RequiredField>): (names: seq<string>)
    ensures |names| <= |fields|
    decreases |fields|
  {
    if fields == [] then []
    else
      var last := fields[|fields| - 1];
      MissingFieldNames(fields[..|fields| - 1]) + (if IsMissing(last) then [last.name] else [])
  }

  function MissingIf(value: real, name: string): seq<string> {
    if value == 0.0 then [name] else []
  }

  /** The missing names of the six required fields, written out field by field. */
  lemma MissingFieldNamesExpanded(rider: RiderProfile, frame: FrameGeometry, current: CurrentSetup)
    ensures MissingFieldNames(RequiredFields(rider, frame, current))
         == MissingIf(rider.torsoLengthCm, "torso length") + MissingIf(rider.armLengthCm, "arm length")
          + MissingIf(frame.stackMm, "frame stack") + MissingIf(frame.reachMm, "frame reach")
          + MissingIf(current.barReachMm, "bar reach") + MissingIf(current.stemLengthMm, "stem length")
  {
    var fs := RequiredFields(rider, frame, current);
    assert fs[..5][..4] == fs[..4] && fs[..4][..3] == fs[..3] && fs[..3][..2] == fs[..2];
    assert fs[..2][..1] == fs[..1] && fs[..1][..0] == [] && fs[..6] == fs;
    assert MissingFieldNames(fs[..1]) == MissingIf(rider.torsoLengthCm, "torso length");
    assert MissingFieldNames(fs[..2]) == MissingFieldNames(fs[..1]) + MissingIf(rider.armLengthCm, "arm length");
    assert MissingFieldNames(fs[..3]) == MissingFieldNames(fs[..2]) + MissingIf(frame.stackMm, "frame stack");
    assert MissingFieldNames(fs[..4]) == MissingFieldNames(fs[..3]) + MissingIf(frame.reachMm, "frame reach");
    assert MissingFieldNames(fs[..5]) == MissingFieldNames(fs[..4]) + MissingIf(current.barReachMm, "bar reach");
    assert MissingFieldNames(fs) == MissingFieldNames(fs[..5]) + MissingIf(current.stemLengthMm, "stem length");
  }

  function MissingNote(name: string): string {
    "Missing " + name + " reduces confidence"
  }

  /** One note per missing field name, in order. */
  function MissingNotes(names: seq<string>): (notes: seq<string>)
    decreases |names|
  {
    if names == [] then []
    else MissingNotes(names[..|names| - 1]) + [MissingNote(names[|names| - 1])]
  }

  /** Confidence for a number of missing fields: 0.15 off per field, floor 0.3. */
  function ConfidenceScore(missing: nat): real {
    Max(0.3, 1.0 - 0.15 * missing as real)
  }

  lemma MissingFieldNamesSnoc(fields: seq<RequiredField>, f: RequiredField)
    ensures MissingFieldNames(fields + [f]) == MissingFieldNames(fields) + (if IsMissing(f) then [f.name] else [])
  {
    assert (fields + [f])[..|fields|] == fields;
  }

  lemma MissingNotesSnoc(names: seq<string>, n: string)
    ensures MissingNotes(names + [n]) == MissingNotes(names) + [MissingNote(n)]
  {
    assert (names + [n])[..|names|] == names;
  }

  method CalculateConfidence(rider: RiderProfile, frame: FrameGeometry, current: CurrentSetup, notes: NoteLog)
    returns (confidence: real)
    modifies notes
    ensures confidence == ConfidenceScore(|MissingFieldNames(RequiredFields(rider, frame, current))|)
    ensures notes.entries == old(notes.entries) + MissingNotes(MissingFieldNames(RequiredFields(rider, frame, current)))
  {
    confidence := 1.0;
    var requiredFields := RequiredFields(rider, frame, current);
    for i := 0 to |requiredFields|
      invariant confidence == 1.0 - 0.15 * |MissingFieldNames(requiredFields[..i])| as real
      invariant notes.entries == old(notes.entries) + MissingNotes(MissingFieldNames(requiredFields[..i]))
    {
      var field := requiredFields[i];
      ghost var done := MissingFieldNames(requiredFields[..i]);
      assert requiredFields[..i + 1] == requiredFields[..i] + [field];
      MissingFieldNamesSnoc(requiredFields[..i], field);
      if field.value == 0.0 {
        MissingNotesSnoc(done, field.name);
        confidence := confidence - 0.15;
        notes.Push(MissingNote(field.name));
        assert notes.entries == old(notes.entries) + (MissingNotes(done) + [MissingNote(field.name)]);
      } else {
        assert MissingFieldNames(requiredFields[..i] + [field]) == done;
      }
      assert MissingFieldNames(requiredFields[..i + 1]) == MissingFieldNames(requiredFields[..i] + [field]);
    }
    assert requiredFields[..|requiredFields|] == requiredFields;
    confidence := Max(0.3, confidence);
  }

  // ---------------------------------------------------------------------------
  // The recommendation
  // ---------------------------------------------------------------------------

  /** Reference definition of the whole recommendation, built from the
      reference definitions of each step. */
  function FitSpec(rider: RiderProfile, frame: FrameGeometry, current: CurrentSetup): FitRecommendation {
    var mid := TargetReachMid(rider);
    var basis := BasisStem(rider, frame, current);
    var snapped := SnappedStem(basis);
    var missing := MissingFieldNames(RequiredFields(rider, frame, current));
    FitRecommendation(
      ReachBand(Round(mid - ReachToleranceMm), Round(mid), Round(mid + ReachToleranceMm)),
      DropRangeFor(rider.ridingStyle),
      StemRecommendation(snapped, GetAllowedStems(snapped), Round(basis)),
      SpacerSpec(frame, current),
      ConfidenceScore(|missing|),
      SpacerNotes(frame, current) + MissingNotes(missing))
  }

  method ComputeFitRecommendation(rider: RiderProfile, frame: FrameGeometry, current: CurrentSetup)
    returns (r: FitRecommendation)
    ensures r == FitSpec(rider, frame, current)
  {
    var baseReach := CalculateBaseReach(rider);
    var adjustments := FlexibilityAdjustment(rider.flexibility) + RidingStyleAdjustment(rider.ridingStyle);
    var targetReachMid := baseReach + adjustments;
    assert targetReachMid == TargetReachMid(rider);
    var targetReachMin := targetReachMid - ReachToleranceMm;
    var targetReachMax := targetReachMid + ReachToleranceMm;

    var targetDrop := DropRangeFor(rider.ridingStyle);

    var hoodReachOffset := current.hoodReachOffsetMm.GetOr(DefaultHoodReachOffsetMm);
    var basisStem := targetReachMid - (frame.reachMm + current.barReachMm + hoodReachOffset);
    var snappedStem := SnapStemLength(basisStem);
    var allowedStems := GetAllowedStems(snappedStem);

    assert basisStem == BasisStem(rider, frame, current);
    assert snappedStem == SnappedStem(BasisStem(rider, frame, current));
    assert allowedStems == GetAllowedStems(SnappedStem(BasisStem(rider, frame, current)));

    var spacers, confidence, notes := SpacersAndConfidence(rider, frame, current, targetDrop);

    var targetReach := ReachBand(Round(targetReachMin), Round(targetReachMid), Round(targetReachMax));
    var stem := StemRecommendation(snappedStem, allowedStems, Round(basisStem));
    assert targetReach == FitSpec(rider, frame, current).targetReach;
    assert stem == FitSpec(rider, frame, current).stem;
    r := FitRecommendation(targetReach, targetDrop, stem, spacers, confidence, notes);
  }

  /** The steps that write notes: spacers, then confidence, into one log. */
  method SpacersAndConfidence(rider: RiderProfile, frame: FrameGeometry, current: CurrentSetup, targetDrop: DropRange)
    returns (spacers: SpacerRecommendation, confidence: real, notes: seq<string>)
    ensures spacers == SpacerSpec(frame, current)
    ensures confidence == ConfidenceScore(|MissingFieldNames(RequiredFields(rider, frame, current))|)
    ensures notes == SpacerNotes(frame, current) + MissingNotes(MissingFieldNames(RequiredFields(rider, frame, current)))
  {
    var log := new NoteLog();
    spacers := CalculateSpacerRecommendation(frame, current, targetDrop, log);
    confidence := CalculateConfidence(rider, frame, current, log);
    notes := log.entries;
  }
}
