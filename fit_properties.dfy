/** Properties of the v1 fit engine, stated about its reference definition
    `Fit.FitSpec` (which `Fit.ComputeFitRecommendation` is proved to compute). */
module FitProperties {
  import opened Prelude
  import opened Fit

  // ---------------------------------------------------------------------------
  // Target reach
  // ---------------------------------------------------------------------------

  /** mid = round(4.3 torso + 3.5 arm + flexibility offset + style offset), and
      the band is exactly 5 mm either side of the rounded mid. */
  lemma TargetReachBand(rider: RiderProfile, frame: FrameGeometry, current: CurrentSetup)
    ensures var band := FitSpec(rider, frame, current).targetReach;
      && band.midMm == Round(4.3 * rider.torsoLengthCm + 3.5 * rider.armLengthCm
                             + FlexibilityAdjustment(rider.flexibility) + RidingStyleAdjustment(rider.ridingStyle))
      && band.minMm == band.midMm - 5
      && band.maxMm == band.midMm + 5
      && band.minMm < band.midMm < band.maxMm
  {
    var mid := TargetReachMid(rider);
    RoundShift(mid, -5);
    RoundShift(mid, 5);
  }

  function MidOf(rider: RiderProfile, frame: FrameGeometry, current: CurrentSetup): int {
    FitSpec(rider, frame, current).targetReach.midMm
  }

  /** Low flexibility is 15 mm shorter than medium, high is 10 mm longer. */
  lemma FlexibilityShiftsReach(rider: RiderProfile, frame: FrameGeometry, current: CurrentSetup)
    ensures MidOf(rider.(flexibility := Low), frame, current) == MidOf(rider.(flexibility := Medium), frame, current) - 15
    ensures MidOf(rider.(flexibility := High), frame, current) == MidOf(rider.(flexibility := Medium), frame, current) + 10
  {
    var m := TargetReachMid(rider.(flexibility := Medium));
    assert TargetReachMid(rider.(flexibility := Low)) == m + (-15) as real;
    assert TargetReachMid(rider.(flexibility := High)) == m + 10 as real;
    RoundShift(m, -15);
    RoundShift(m, 10);
  }

  /** Comfort is 20 mm shorter than endurance, race is 15 mm longer. */
  lemma RidingStyleShiftsReach(rider: RiderProfile, frame: FrameGeometry, current: CurrentSetup)
    ensures MidOf(rider.(ridingStyle := Comfort), frame, current) == MidOf(rider.(ridingStyle := Endurance), frame, current) - 20
    ensures MidOf(rider.(ridingStyle := Race), frame, current) == MidOf(rider.(ridingStyle := Endurance), frame, current) + 15
  {
    var m := TargetReachMid(rider.(ridingStyle := Endurance));
    assert TargetReachMid(rider.(ridingStyle := Comfort)) == m + (-20) as real;
    assert TargetReachMid(rider.(ridingStyle := Race)) == m + 15 as real;
    RoundShift(m, -20);
    RoundShift(m, 15);
  }

  /** The two offsets add up: high + race is the medium/endurance mid + 25,
      low + comfort is the medium/endurance mid - 35. */
  lemma AdjustmentsAdd(rider: RiderProfile, frame: FrameGeometry, current: CurrentSetup)
    ensures MidOf(rider.(flexibility := High, ridingStyle := Race), frame, current)
         == MidOf(rider.(flexibility := Medium, ridingStyle := Endurance), frame, current) + 25
    ensures MidOf(rider.(flexibility := Low, ridingStyle := Comfort), frame, current)
         == MidOf(rider.(flexibility := Medium, ridingStyle := Endurance), frame, current) - 35
  {
    var m := TargetReachMid(rider.(flexibility := Medium, ridingStyle := Endurance));
    assert TargetReachMid(rider.(flexibility := High, ridingStyle := Race)) == m + 25 as real;
    assert TargetReachMid(rider.(flexibility := Low, ridingStyle := Comfort)) == m + (-35) as real;
    RoundShift(m, 25);
    RoundShift(m, -35);
  }

  // ---------------------------------------------------------------------------
  // Drop band and hood offset
  // ---------------------------------------------------------------------------

  /** The drop band depends on the riding style alone. */
  lemma DropBandByStyle(rider: RiderProfile, frame: FrameGeometry, current: CurrentSetup,
                        rider': RiderProfile, frame': FrameGeometry, current': CurrentSetup)
    requires rider.ridingStyle == rider'.ridingStyle
    ensures FitSpec(rider, frame, current).targetDrop == FitSpec(rider', frame', current').targetDrop
    ensures FitSpec(rider, frame, current).targetDrop ==
      match rider.ridingStyle
      case Comfort => DropRange(10, 20)
      case Endurance => DropRange(20, 40)
      case Race => DropRange(50, 80)
  {
  }

  /** An absent hood offset behaves exactly like 10 mm. */
  lemma HoodOffsetDefault(rider: RiderProfile, frame: FrameGeometry, current: CurrentSetup)
    ensures FitSpec(rider, frame, current.(hoodReachOffsetMm := None))
         == FitSpec(rider, frame, current.(hoodReachOffsetMm := Some(10.0)))
  {
  }

  /** 10 mm more hood offset means exactly 10 mm less stem basis. */
  lemma HoodOffsetShiftsBasis(rider: RiderProfile, frame: FrameGeometry, current: CurrentSetup, h: real)
    ensures FitSpec(rider, frame, current.(hoodReachOffsetMm := Some(h + 10.0))).stem.basisMm
         == FitSpec(rider, frame, current.(hoodReachOffsetMm := Some(h))).stem.basisMm - 10
  {
    var b := BasisStem(rider, frame, current.(hoodReachOffsetMm := Some(h)));
    assert BasisStem(rider, frame, current.(hoodReachOffsetMm := Some(h + 10.0))) == b + (-10) as real;
    RoundShift(b, -10);
  }

  // ---------------------------------------------------------------------------
  // Stem snapping
  // ---------------------------------------------------------------------------

  /** The recommended stem is a standard size nearest to the basis, the longer
      one on a tie, and the allowed list is exactly the sizes within 10 mm of it,
      ascending, including the snapped size itself. */
  lemma StemRecommendationIsNearest(rider: RiderProfile, frame: FrameGeometry, current: CurrentSetup)
    ensures var stem := FitSpec(rider, frame, current).stem;
      && IsSnapOf(BasisStem(rider, frame, current), stem.snappedMm)
      && 50 <= stem.snappedMm <= 120
      && StrictlyAscending(stem.allowedMm)
      && stem.snappedMm in stem.allowedMm
      && (forall s :: s in stem.allowedMm <==> s in StemSizesMm && stem.snappedMm - 10 <= s <= stem.snappedMm + 10)
  {
    var snapped := SnappedStem(BasisStem(rider, frame, current));
    SnappedStemIsSnap(BasisStem(rider, frame, current));
    StemSizesMembers();
    AllowedStemsSpec(snapped);
    assert FitSpec(rider, frame, current).stem.allowedMm == GetAllowedStems(snapped);
  }

  /** Exact midpoints between neighbouring sizes go to the longer stem. */
  lemma TieGoesToLongerStem(k: nat)
    requires k + 1 < |StemSizesMm|
    ensures var mid := (StemSizesMm[k] + 5) as real;
      && Abs(mid - StemSizesMm[k] as real) == Abs(mid - StemSizesMm[k + 1] as real)
      && SnappedStem(mid) == StemSizesMm[k + 1]
  {
  }

  lemma TieBreakExamples()
    ensures SnappedStem(65.0) == 70 && SnappedStem(115.0) == 120
  {
    TieGoesToLongerStem(1);
    TieGoesToLongerStem(6);
  }

  /** At the ends of the list the allowed window is clipped. */
  lemma AllowedStemsAtShortest()
    ensures GetAllowedStems(50) == [50, 60]
  {
  }

  lemma AllowedStemsAtLongest()
    ensures GetAllowedStems(120) == [110, 120]
  {
  }

  lemma AllowedStemsInMiddle()
    ensures GetAllowedStems(80) == [70, 80, 90]
  {
  }

  // ---------------------------------------------------------------------------
  // Spacers
  // ---------------------------------------------------------------------------

  /** Without frame stack or current spacers: current spacers (or 20), no band,
      one "insufficient data" note. With both: a band 20 mm either side of the
      current spacers, floored at 0, and for non-negative spacers the
      recommendation is the current value and lies inside the band. */
  lemma SpacerBand(frame: FrameGeometry, current: CurrentSetup)
    ensures var sp := SpacerSpec(frame, current);
      && (!HasSpacerData(frame, current) ==>
            && sp.minMm == None && sp.maxMm == None
            && sp.recommendedMm == (if current.spacerStackMm.Some? then current.spacerStackMm.value else 20.0)
            && SpacerNotes(frame, current) == [InsufficientSpacerNote])
      && (HasSpacerData(frame, current) ==>
            var cur := current.spacerStackMm.value;
            && sp.minMm == Some(if cur >= 20.0 then cur - 20.0 else 0.0)
            && sp.maxMm == Some(cur + 20.0)
            && sp.minMm.value <= sp.recommendedMm
            && (cur >= 0.0 ==> sp.recommendedMm == cur && sp.recommendedMm <= sp.maxMm.value)
            && SpacerNotes(frame, current) == [])
  {
  }

  // ---------------------------------------------------------------------------
  // Confidence and notes
  // ---------------------------------------------------------------------------

  /** Confidence lies in [0.3, 1.0]; up to four missing fields each cost exactly
      0.15, and from five on the floor 0.3 applies. */
  lemma ConfidenceScoreShape(missing: nat)
    ensures 0.3 <= ConfidenceScore(missing) <= 1.0
    ensures missing <= 4 ==> ConfidenceScore(missing) == 1.0 - 0.15 * missing as real
    ensures missing >= 5 ==> ConfidenceScore(missing) == 0.3
    ensures ConfidenceScore(missing + 1) <= ConfidenceScore(missing)
  {
  }

  /** Each missing name yields exactly one note, in the same position. */
  lemma {:induction false} MissingNotesOnePerName(names: seq<string>)
    ensures |MissingNotes(names)| == |names|
    ensures forall k :: 0 <= k < |names| ==> MissingNotes(names)[k] == MissingNote(names[k])
    decreases |names|
  {
    if names != [] {
      MissingNotesOnePerName(names[..|names| - 1]);
    }
  }

  /** A name is reported missing exactly when some field with that name is 0. */
  lemma {:induction false} MissingFieldNamesMembers(fields: seq<RequiredField>, n: string)
    ensures n in MissingFieldNames(fields) <==> exists i :: 0 <= i < |fields| && IsMissing(fields[i]) && fields[i].name == n
    decreases |fields|
  {
    if fields != [] {
      var init := fields[..|fields| - 1];
      MissingFieldNamesMembers(init, n);
      if exists i :: 0 <= i < |fields| && IsMissing(fields[i]) && fields[i].name == n {
        var i :| 0 <= i < |fields| && IsMissing(fields[i]) && fields[i].name == n;
        if i < |init| {
          assert init[i] == fields[i];
        }
      }
      if exists i :: 0 <= i < |init| && IsMissing(init[i]) && init[i].name == n {
        var i :| 0 <= i < |init| && IsMissing(init[i]) && init[i].name == n;
        assert fields[i] == init[i];
      }
    }
  }

  lemma MissingNoteInjective(a: string, b: string)
    requires MissingNote(a) == MissingNote(b)
    ensures a == b
  {
    assert |a| == |b|;
    assert MissingNote(a)[8..8 + |a|] == a;
    assert MissingNote(b)[8..8 + |b|] == b;
  }

  /** The spacer note is not a "Missing ..." note. */
  lemma InsufficientIsNotMissingNote(n: string)
    ensures InsufficientSpacerNote != MissingNote(n)
  {
    assert InsufficientSpacerNote[0] == 'I';
    assert MissingNote(n)[0] == 'M';
  }

  /** A name's note is present exactly when the name is. */
  lemma MissingNotesMembers(names: seq<string>, n: string)
    ensures MissingNote(n) in MissingNotes(names) <==> n in names
  {
    MissingNotesOnePerName(names);
    if n in names {
      var j :| 0 <= j < |names| && names[j] == n;
      assert MissingNotes(names)[j] == MissingNote(n);
    }
    if MissingNote(n) in MissingNotes(names) {
      var j :| 0 <= j < |names| && MissingNotes(names)[j] == MissingNote(n);
      MissingNoteInjective(names[j], n);
    }
  }

  /** The six required fields carry six different names. */
  lemma RequiredFieldNamesDistinct(rider: RiderProfile, frame: FrameGeometry, current: CurrentSetup, i: nat, k: nat)
    requires i < 6 && k < 6
    ensures var fields := RequiredFields(rider, frame, current);
      fields[i].name == fields[k].name ==> i == k
  {
    var fields := RequiredFields(rider, frame, current);
    assert fields[0].name[0] == 't' && fields[1].name[0] == 'a' && fields[3].name[0] == 'f';
    assert fields[2].name[0] == 'f' && fields[4].name[0] == 'b' && fields[5].name[0] == 's';
    assert fields[2].name[6] == 's' && fields[3].name[6] == 'r';
  }

  /** Each of the six required fields is 0 exactly when the recommendation's
      notes hold "Missing <its name> reduces confidence". */
  lemma MissingIffNoted(rider: RiderProfile, frame: FrameGeometry, current: CurrentSetup, k: nat)
    requires k < 6
    ensures var f := RequiredFields(rider, frame, current)[k];
      IsMissing(f) <==> MissingNote(f.name) in FitSpec(rider, frame, current).notes
  {
    var fields := RequiredFields(rider, frame, current);
    var f := fields[k];
    var names := MissingFieldNames(fields);
    assert FitSpec(rider, frame, current).notes == SpacerNotes(frame, current) + MissingNotes(names);
    InsufficientIsNotMissingNote(f.name);
    MissingNotesMembers(names, f.name);
    MissingFieldNamesMembers(fields, f.name);
    if f.name in names {
      var i :| 0 <= i < |fields| && IsMissing(fields[i]) && fields[i].name == f.name;
      RequiredFieldNamesDistinct(rider, frame, current, i, k);
    }
  }

  // ---------------------------------------------------------------------------
  // The numbers the engine's tests pin down
  // ---------------------------------------------------------------------------

  const BaselineRider := RiderProfile(Some(175.0), Some(82.0), 60.0, 65.0, Medium, Endurance)
  const BaselineFrame := FrameGeometry(590.0, 386.0, Some(72.5), Some(73.0), Some(1020.0))
  const BaselineSetup := CurrentSetup(90.0, Some(20.0), 80.0, Some(10.0), Some(740.0), Some(25.0))

  /** 60 cm torso, 65 cm arm: mid 485.5 rounds to 486, band [481, 491];
      basis 9.5 rounds to 10 and snaps to 50; full confidence, no notes. */
  lemma BaselineRecommendation()
    ensures FitSpec(BaselineRider, BaselineFrame, BaselineSetup) ==
      FitRecommendation(
        ReachBand(481, 486, 491),
        DropRange(20, 40),
        StemRecommendation(50, [50, 60], 10),
        SpacerRecommendation(20.0, Some(0.0), Some(40.0)),
        1.0,
        [])
  {
    BaselineReach();
    BaselineStem();
    BaselineConfidence();
  }

  lemma BaselineReach()
    ensures FitSpec(BaselineRider, BaselineFrame, BaselineSetup).targetReach == ReachBand(481, 486, 491)
  {
    assert TargetReachMid(BaselineRider) == 485.5;
  }

  lemma BaselineStem()
    ensures FitSpec(BaselineRider, BaselineFrame, BaselineSetup).stem == StemRecommendation(50, [50, 60], 10)
  {
    assert TargetReachMid(BaselineRider) == 485.5;
    assert BasisStem(BaselineRider, BaselineFrame, BaselineSetup) == 9.5;
    AllowedStemsAtShortest();
  }

  lemma BaselineConfidence()
    ensures MissingFieldNames(RequiredFields(BaselineRider, BaselineFrame, BaselineSetup)) == []
  {
    MissingFieldNamesExpanded(BaselineRider, BaselineFrame, BaselineSetup);
  }

  /** Bar reach and stem length 0: confidence exactly 0.7, and the notes name both fields. */
  lemma TwoMissingFields()
    ensures var r := FitSpec(BaselineRider, BaselineFrame, BaselineSetup.(barReachMm := 0.0, stemLengthMm := 0.0));
      && r.confidence == 0.7
      && r.notes == [MissingNote("bar reach"), MissingNote("stem length")]
  {
    var current := BaselineSetup.(barReachMm := 0.0, stemLengthMm := 0.0);
    var missing := MissingFieldNames(RequiredFields(BaselineRider, BaselineFrame, current));
    assert missing == ["bar reach", "stem length"] by {
      MissingFieldNamesExpanded(BaselineRider, BaselineFrame, current);
    }
    assert MissingNotes(missing) == [MissingNote("bar reach"), MissingNote("stem length")] by {
      assert MissingNotes(["bar reach", "stem length"]) == MissingNotes(["bar reach"]) + [MissingNote("stem length")];
    }
    assert SpacerNotes(BaselineFrame, current) == [];
  }

  /** Every required field 0: the floor 0.3 applies. */
  lemma AllFieldsMissing()
    ensures FitSpec(RiderProfile(None, None, 0.0, 0.0, Medium, Endurance),
                    FrameGeometry(0.0, 0.0, None, None, None),
                    CurrentSetup(0.0, Some(20.0), 0.0, None, None, None)).confidence == 0.3
  {
    MissingFieldNamesExpanded(RiderProfile(None, None, 0.0, 0.0, Medium, Endurance),
                              FrameGeometry(0.0, 0.0, None, None, None),
                              CurrentSetup(0.0, Some(20.0), 0.0, None, None, None));
  }

  /** The shown basis is rounded but snapping uses the unrounded basis: a
      frame reach of 331 shows basis 65 (from 64.5) and snaps to 60. */
  lemma SnapUsesUnroundedBasis()
    ensures var s := FitSpec(BaselineRider, BaselineFrame.(reachMm := 331.0), BaselineSetup).stem;
      s.basisMm == 65 && s.snappedMm == 60
  {
    assert TargetReachMid(BaselineRider) == 485.5;
  }

  /** Likewise a frame reach of 281 shows basis 115 (from 114.5) and snaps
      to 110. */
  lemma SnapUsesUnroundedBasisLong()
    ensures var s := FitSpec(BaselineRider, BaselineFrame.(reachMm := 281.0), BaselineSetup).stem;
      s.basisMm == 115 && s.snappedMm == 110
  {
    assert TargetReachMid(BaselineRider) == 485.5;
  }

  /** A basis below the shortest size (45, from a frame reach of 351) snaps
      to 50, with allowed sizes [50, 60]. */
  lemma ShortBasisSnapsToShortest()
    ensures var s := FitSpec(BaselineRider, BaselineFrame.(reachMm := 351.0), BaselineSetup).stem;
      s.basisMm == 45 && s.snappedMm == 50 && s.allowedMm == [50, 60]
  {
    assert TargetReachMid(BaselineRider) == 485.5;
    AllowedStemsAtShortest();
  }
}
