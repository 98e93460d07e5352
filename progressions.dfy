/**
 * The progression generator: the chord symbols of a II-V-I and of the
 * eight-chord diatonic cycle in the key of a root, each chord being a scale
 * degree followed by a chord-quality suffix.
 */
module Progressions {
  import opened Results
  import opened Theory

  /**
   * `symbol` is a chord on pitch class `pc` with quality suffix `suffix`:
   * it ends with the suffix and what comes before the suffix names `pc`.
   */
  predicate ChordOn(symbol: string, pc: nat, suffix: string) {
    |suffix| <= |symbol| &&
    symbol[|symbol| - |suffix|..] == suffix &&
    PitchClass(symbol[..|symbol| - |suffix|]) == Some(pc)
  }

  /**
   * `generate_two_five_one`: the minor seventh on degree II, the dominant
   * seventh on degree V and the major seventh on degree I held for two bars.
   * The root's scale failing makes the progression fail with the same error.
   */
  function TwoFiveOne(root: string): (r: Result<seq<string>>)
    ensures r.Err? <==> ScaleDegrees(root).Err?
    ensures r.Err? ==> r.error == NoteNotInTable(root)
    ensures r.Ok? ==> |r.value| == 4 && r.value[2] == r.value[3]
  {
    match ScaleDegrees(root)
    case Err(e) => Err(e)
    case Ok(scale) => Ok(TwoFiveOneOn(scale))
  }

  /** The II-V-I chord symbols over a seven-degree scale. */
  function TwoFiveOneOn(scale: seq<string>): (r: seq<string>)
    requires |scale| == 7
    ensures |r| == 4 && r[2] == r[3]
    ensures forall k :: 0 <= k < |r| ==> |r[k]| > 0
  {
    var ii := scale[1] + ChordTypes["Minor 7"];
    var v := scale[4] + ChordTypes["Dominant 7"];
    var i := scale[0] + ChordTypes["Major 7"];
    [ii, v, i, i]
  }

  /**
   * `generate_diatonic_cycle`: I, IV, III, VI, II, V, I, I with major sevenths
   * on I and IV, minor sevenths on III, VI and II and a dominant seventh on V.
   */
  function DiatonicCycle(root: string): (r: Result<seq<string>>)
    ensures r.Err? <==> ScaleDegrees(root).Err?
    ensures r.Err? ==> r.error == NoteNotInTable(root)
    ensures r.Ok? ==> |r.value| == 8 && r.value[0] == r.value[6] == r.value[7]
  {
    match ScaleDegrees(root)
    case Err(e) => Err(e)
    case Ok(scale) => Ok(DiatonicCycleOn(scale))
  }

  /** The eight diatonic-cycle chord symbols over a seven-degree scale. */
  function DiatonicCycleOn(scale: seq<string>): (r: seq<string>)
    requires |scale| == 7
    ensures |r| == 8 && r[0] == r[6] == r[7]
    ensures forall k :: 0 <= k < |r| ==> |r[k]| > 0
  {
    var i, iv := scale[0] + ChordTypes["Major 7"], scale[3] + ChordTypes["Major 7"];
    var iii, vi, ii := scale[2] + ChordTypes["Minor 7"], scale[5] + ChordTypes["Minor 7"], scale[1] + ChordTypes["Minor 7"];
    var v := scale[4] + ChordTypes["Dominant 7"];
    [i, iv, iii, vi, ii, v, i, i]
  }

  /** A scale degree followed by a suffix is a chord on the degree's pitch class. */
  lemma ChordOnDegree(root: string, k: nat, suffix: string)
    requires ScaleDegrees(root).Ok? && k < 7
    ensures PitchClass(root).Some?
    ensures ChordOn(ScaleDegrees(root).value[k] + suffix,
                    Transpose(PitchClass(root).value, MajorIntervals[k]), suffix)
  {
    var note := ScaleDegrees(root).value[k];
    var symbol := note + suffix;
    assert symbol[|symbol| - |suffix|..] == suffix;
    assert symbol[..|symbol| - |suffix|] == note;
    ScaleIntervals(root, k);
  }

  /** Each II-V-I chord is a scale degree followed by its quality's suffix. */
  lemma TwoFiveOneOnDegrees(scale: seq<string>)
    requires |scale| == 7
    ensures var r := TwoFiveOneOn(scale);
      r[0] == scale[1] + "m7" && r[1] == scale[4] + "7" &&
      r[2] == scale[0] + "maj7" && r[3] == scale[0] + "maj7"
  {
    assert ChordTypes["Major 7"] == "maj7" && ChordTypes["Minor 7"] == "m7" && ChordTypes["Dominant 7"] == "7";
  }

  /** Each cycle chord is a scale degree followed by its quality's suffix. */
  lemma DiatonicCycleOnDegrees(scale: seq<string>)
    requires |scale| == 7
    ensures var r := DiatonicCycleOn(scale);
      r[0] == scale[0] + "maj7" && r[1] == scale[3] + "maj7" &&
      r[2] == scale[2] + "m7" && r[3] == scale[5] + "m7" &&
      r[4] == scale[1] + "m7" && r[5] == scale[4] + "7" &&
      r[6] == scale[0] + "maj7" && r[7] == scale[0] + "maj7"
  {
    assert ChordTypes["Major 7"] == "maj7" && ChordTypes["Minor 7"] == "m7" && ChordTypes["Dominant 7"] == "7";
  }

  /** Over a scale, the cycle's last four chords are the II-V-I. */
  lemma DiatonicCycleOnEndsWithTwoFiveOneOn(scale: seq<string>)
    requires |scale| == 7
    ensures DiatonicCycleOn(scale)[4..] == TwoFiveOneOn(scale)
  {
    TwoFiveOneOnDegrees(scale);
    DiatonicCycleOnDegrees(scale);
  }

  /**
   * The II-V-I of a key: a minor seventh two semitones above the root, a
   * dominant seventh seven semitones above it and the major seventh on the
   * root twice.
   */
  lemma TwoFiveOneShape(root: string)
    requires TwoFiveOne(root).Ok?
    ensures PitchClass(root).Some?
    ensures var p, r := PitchClass(root).value, TwoFiveOne(root).value;
      ChordOn(r[0], Transpose(p, 2), "m7") &&
      ChordOn(r[1], Transpose(p, 7), "7") &&
      ChordOn(r[2], p, "maj7") &&
      ChordOn(r[3], p, "maj7")
  {
    var scale := ScaleDegrees(root).value;
    assert TwoFiveOne(root).value == TwoFiveOneOn(scale);
    TwoFiveOneOnDegrees(scale);
    ChordOnDegree(root, 1, "m7");
    ChordOnDegree(root, 4, "7");
    ChordOnDegree(root, 0, "maj7");
  }

  /**
   * The diatonic cycle of a key, by pitch class above the root: major
   * sevenths on 0 and 5, minor sevenths on 4, 9 and 2, a dominant seventh on 7
   * and the major seventh on the root twice more.
   */
  lemma DiatonicCycleShape(root: string)
    requires DiatonicCycle(root).Ok?
    ensures PitchClass(root).Some?
    ensures var p, r := PitchClass(root).value, DiatonicCycle(root).value;
      ChordOn(r[0], p, "maj7") &&
      ChordOn(r[1], Transpose(p, 5), "maj7") &&
      ChordOn(r[2], Transpose(p, 4), "m7") &&
      ChordOn(r[3], Transpose(p, 9), "m7") &&
      ChordOn(r[4], Transpose(p, 2), "m7") &&
      ChordOn(r[5], Transpose(p, 7), "7") &&
      ChordOn(r[6], p, "maj7") &&
      ChordOn(r[7], p, "maj7")
  {
    var scale := ScaleDegrees(root).value;
    assert DiatonicCycle(root).value == DiatonicCycleOn(scale);
    DiatonicCycleOnDegrees(scale);
    ChordOnDegree(root, 0, "maj7");
    ChordOnDegree(root, 3, "maj7");
    ChordOnDegree(root, 2, "m7");
    ChordOnDegree(root, 5, "m7");
    ChordOnDegree(root, 1, "m7");
    ChordOnDegree(root, 4, "7");
  }

  /** The cycle closes with the key's II-V-I: its last four chords are that progression. */
  lemma CycleEndsWithTwoFiveOne(root: string)
    ensures DiatonicCycle(root).Ok? <==> TwoFiveOne(root).Ok?
    ensures DiatonicCycle(root).Ok? ==> DiatonicCycle(root).value[4..] == TwoFiveOne(root).value
  {
    if ScaleDegrees(root).Ok? {
      DiatonicCycleOnEndsWithTwoFiveOneOn(ScaleDegrees(root).value);
    }
  }

  /** The II-V-I over the scales of C and F. */
  lemma TwoFiveOneOnTestScales()
    ensures TwoFiveOneOn(["C", "D", "E", "F", "G", "A", "B"]) == ["Dm7", "G7", "Cmaj7", "Cmaj7"]
    ensures TwoFiveOneOn(["F", "G", "A", "Bb", "C", "D", "E"]) == ["Gm7", "C7", "Fmaj7", "Fmaj7"]
  {
    TwoFiveOneOnDegrees(["C", "D", "E", "F", "G", "A", "B"]);
    assert "D" + "m7" == "Dm7" && "G" + "7" == "G7" && "C" + "maj7" == "Cmaj7";
    TwoFiveOneOnDegrees(["F", "G", "A", "Bb", "C", "D", "E"]);
    assert "G" + "m7" == "Gm7" && "C" + "7" == "C7" && "F" + "maj7" == "Fmaj7";
  }

  lemma DiatonicCycleOnCScale()
    ensures DiatonicCycleOn(["C", "D", "E", "F", "G", "A", "B"]) ==
            ["Cmaj7", "Fmaj7", "Em7", "Am7", "Dm7", "G7", "Cmaj7", "Cmaj7"]
  {
    DiatonicCycleOnDegrees(["C", "D", "E", "F", "G", "A", "B"]);
    assert "C" + "maj7" == "Cmaj7" && "F" + "maj7" == "Fmaj7";
    assert "E" + "m7" == "Em7" && "A" + "m7" == "Am7" && "D" + "m7" == "Dm7";
    assert "G" + "7" == "G7";
  }

  /** The II-V-I of C. */
  lemma TwoFiveOneOfC()
    ensures TwoFiveOne("C") == Ok(["Dm7", "G7", "Cmaj7", "Cmaj7"])
  {
    ScaleOfC();
    TwoFiveOneOnTestScales();
  }

  /** The II-V-I of F. */
  lemma TwoFiveOneOfF()
    ensures TwoFiveOne("F") == Ok(["Gm7", "C7", "Fmaj7", "Fmaj7"])
  {
    ScaleOfF();
    TwoFiveOneOnTestScales();
  }

  /** The diatonic cycle of C. */
  lemma DiatonicCycleOfC()
    ensures DiatonicCycle("C") == Ok(["Cmaj7", "Fmaj7", "Em7", "Am7", "Dm7", "G7", "Cmaj7", "Cmaj7"])
  {
    ScaleOfC();
    DiatonicCycleOnCScale();
  }
}
