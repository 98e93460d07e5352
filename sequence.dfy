/**
 * The sequence builder: the chord symbols of a practice session, in pattern
 * mode (whole progressions for randomly chosen roots, cut to length) or in
 * random mode (a random root and quality per measure), laid out as one timed
 * bass event per measure, and the click times of the metronome.
 *
 * Randomness is a parameter: `draws(k)` is the value behind the k-th call of
 * `random.choice`, which picks `xs[draws(k) % |xs|]`.
 */
module Sequence {
  import opened Results
  import opened Theory
  import opened Progressions

  /** One bass note of the playback sequence: the dictionary the engine emits. */
  datatype NoteEvent = NoteEvent(note: string, time: real, duration: real, instrument: string)

  /** How the chord symbols are chosen. */
  datatype Mode = TwoFiveOneMode | DiatonicCycleMode | RandomMode

  /** The progression-type names the engine recognises; every other name means random chords. */
  function ModeOf(progressionType: string): (m: Mode)
    ensures m == TwoFiveOneMode <==> progressionType == "II-V-I"
    ensures m == DiatonicCycleMode <==> progressionType == "Diatonic Cycle"
    ensures m == RandomMode <==> progressionType != "II-V-I" && progressionType != "Diatonic Cycle"
  {
    if progressionType == "II-V-I" then TwoFiveOneMode
    else if progressionType == "Diatonic Cycle" then DiatonicCycleMode
    else RandomMode
  }

  function Max0(n: int): nat {
    if n > 0 then n else 0
  }

  function Min(a: int, b: int): int {
    if a <= b then a else b
  }

  /** `random.choice`: an element of `xs` chosen by `draw`; IndexError on an empty list. */
  function Choice<T>(xs: seq<T>, draw: nat): (r: Result<T>)
    ensures r.Err? <==> |xs| == 0
    ensures r.Err? ==> r.error == EmptyChoice
    ensures r.Ok? ==> r.value in xs
  {
    if |xs| == 0 then Err(EmptyChoice) else Ok(xs[draw % |xs|])
  }

  // ---------------------------------------------------------------------
  // Pattern modes
  // ---------------------------------------------------------------------

  /** The number of chords in one progression of a pattern mode. */
  function BlockSize(mode: Mode): (b: nat)
    requires mode != RandomMode
    ensures b == 4 || b == 8
  {
    if mode == TwoFiveOneMode then 4 else 8
  }

  /** The progression a pattern mode builds on one root. */
  function Pattern(mode: Mode, root: string): (r: Result<seq<string>>)
    requires mode != RandomMode
    ensures r.Ok? <==> root in Notes
    ensures r.Err? ==> r.error == NoteNotInTable(root)
    ensures r.Ok? ==> |r.value| == BlockSize(mode)
  {
    ScaleDefinedExactlyOnFlatNames(root);
    if mode == TwoFiveOneMode then TwoFiveOne(root) else DiatonicCycle(root)
  }

  /** The generator a pattern mode extends the sequence with, one root at a time. */
  function PatternOf(mode: Mode): string -> Result<seq<string>>
    requires mode != RandomMode
  {
    root => Pattern(mode, root)
  }

  /** Every progression the generator succeeds with has exactly b chords. */
  ghost predicate FixedLength(progressionOf: string -> Result<seq<string>>, b: nat) {
    forall root :: progressionOf(root).Ok? ==> |progressionOf(root).value| == b
  }

  lemma PatternFixedLength(mode: Mode)
    requires mode != RandomMode
    ensures FixedLength(PatternOf(mode), BlockSize(mode))
  {
  }

  /** The root drawn for block j. */
  function BlockRoot(notes: seq<string>, draws: nat -> nat, j: nat): (root: string)
    requires |notes| > 0
    ensures root in notes
  {
    notes[draws(j) % |notes|]
  }

  /**
   * The first `count` whole progressions, block j built on the root of the
   * j-th draw; the first failing block decides the error.
   */
  function Blocks(progressionOf: string -> Result<seq<string>>, notes: seq<string>, draws: nat -> nat, count: nat)
    : (r: Result<seq<string>>)
    ensures r.Err? ==> count > 0
    ensures r.Ok? && count > 0 ==> |notes| > 0
    decreases count
  {
    if count == 0 then Ok([])
    else
      match Blocks(progressionOf, notes, draws, count - 1)
      case Err(e) => Err(e)
      case Ok(prefix) =>
        match Choice(notes, draws(count - 1))
        case Err(e) => Err(e)
        case Ok(root) =>
          match progressionOf(root)
          case Err(e) => Err(e)
          case Ok(progression) => Ok(prefix + progression)
  }

  /** count blocks of b chords each hold count * b chords. */
  lemma {:induction false} BlocksLength(progressionOf: string -> Result<seq<string>>, b: nat,
                                        notes: seq<string>, draws: nat -> nat, count: nat)
    requires FixedLength(progressionOf, b)
    ensures Blocks(progressionOf, notes, draws, count).Ok? ==>
              |Blocks(progressionOf, notes, draws, count).value| == count * b
    decreases count
  {
    if count > 0 {
      BlocksLength(progressionOf, b, notes, draws, count - 1);
      assert count * b == (count - 1) * b + b;
    }
  }

  /** The number of whole progressions needed to reach n chords. */
  function BlockCount(n: int, b: nat): nat
    requires b > 0
  {
    if n <= 0 then 0 else (n + b - 1) / b
  }

  /** The first n chords of the progressions needed to reach n. */
  function CutBlocks(progressionOf: string -> Result<seq<string>>, b: nat,
                     notes: seq<string>, draws: nat -> nat, n: int): (r: Result<seq<string>>)
    requires b > 0 && FixedLength(progressionOf, b)
    ensures r.Ok? ==> |r.value| == Max0(n)
  {
    var count := BlockCount(n, b);
    match Blocks(progressionOf, notes, draws, count)
    case Err(e) => Err(e)
    case Ok(blocks) =>
      BlocksLength(progressionOf, b, notes, draws, count);
      BlockCountCovers(n, b);
      Ok(blocks[..Max0(n)])
  }

  /** The display symbols of a pattern mode: the needed progressions, cut to n chords. */
  function PatternDisplay(mode: Mode, notes: seq<string>, draws: nat -> nat, n: int): (r: Result<seq<string>>)
    requires mode != RandomMode
    ensures r.Ok? ==> |r.value| == Max0(n)
  {
    PatternFixedLength(mode);
    CutBlocks(PatternOf(mode), BlockSize(mode), notes, draws, n)
  }

  lemma MulMonotone(a: int, c: int, b: nat)
    requires a <= c
    ensures a * b <= c * b
  {
    assert c * b == a * b + (c - a) * b;
  }

  /** BlockCount is the ceiling of n / b: its blocks cover n chords, one block fewer does not. */
  lemma BlockCountCovers(n: int, b: nat)
    requires b > 0
    ensures Max0(n) <= BlockCount(n, b) * b
    ensures n > 0 ==> (BlockCount(n, b) - 1) * b < n
  {
    if n > 0 {
      var q, rest := (n + b - 1) / b, (n + b - 1) % b;
      assert n + b - 1 == q * b + rest && 0 <= rest < b;
      assert (q - 1) * b == q * b - b;
    }
  }

  /** Only the ceiling of n / b lies between n / b and one block more. */
  lemma CeilingUnique(n: int, b: nat, j: nat)
    requires b > 0 && n > 0
    requires (j - 1) * b < n <= j * b
    ensures BlockCount(n, b) == j
  {
    var q := BlockCount(n, b);
    BlockCountCovers(n, b);
    if q < j {
      MulMonotone(q, j - 1, b);
    } else if q > j {
      MulMonotone(j, q - 1, b);
    }
  }

  /** A block that starts before n chords is one of the BlockCount(n, b) blocks. */
  lemma BelowCeiling(n: int, b: nat, j: nat)
    requires b > 0 && j * b < n
    ensures j < BlockCount(n, b)
  {
    BlockCountCovers(n, b);
    if BlockCount(n, b) <= j {
      MulMonotone(BlockCount(n, b), j, b);
    }
  }

  /**
   * The pattern loop: while fewer than n chords are collected, draw a root,
   * append its progression, and once past n cut to n and stop. Both pattern
   * branches of the engine run this loop, each with its own generator.
   */
  method BuildPatternDisplay(progressionOf: string -> Result<seq<string>>, b: nat,
                             notes: seq<string>, draws: nat -> nat, n: int)
    returns (r: Result<seq<string>>)
    requires b > 0 && FixedLength(progressionOf, b)
    ensures r == CutBlocks(progressionOf, b, notes, draws, n)
  {
    var display: seq<string> := [];
    var j: nat := 0;
    while |display| < n
      invariant |display| == j * b <= Max0(n)
      invariant j == 0 || (j - 1) * b < n
      invariant Blocks(progressionOf, notes, draws, j) == Ok(display)
      decreases n - |display|
    {
      var root := Choice(notes, draws(j));
      if root.Err? {
        BelowCeiling(n, b, j);
        FirstFailureDecides(progressionOf, notes, draws, j, BlockCount(n, b));
        return Err(root.error);
      }
      var progression := progressionOf(root.value);
      if progression.Err? {
        BelowCeiling(n, b, j);
        FirstFailureDecides(progressionOf, notes, draws, j, BlockCount(n, b));
        return Err(progression.error);
      }
      assert (j + 1) * b == j * b + b;
      display := display + progression.value;
      j := j + 1;
      if |display| > n {
        CeilingUnique(n, b, j);
        return Ok(display[..n]);
      }
    }
    if n > 0 {
      CeilingUnique(n, b, j);
    }
    assert display[..Max0(n)] == display;
    return Ok(display);
  }

  /** A block that fails makes every longer run fail with the same error. */
  lemma {:induction false} FirstFailureDecides(progressionOf: string -> Result<seq<string>>,
                                               notes: seq<string>, draws: nat -> nat, j: nat, count: nat)
    requires j < count
    requires Blocks(progressionOf, notes, draws, j + 1).Err?
    ensures Blocks(progressionOf, notes, draws, count) == Blocks(progressionOf, notes, draws, j + 1)
    decreases count
  {
    if count > j + 1 {
      FirstFailureDecides(progressionOf, notes, draws, j, count - 1);
      assert Blocks(progressionOf, notes, draws, count - 1).Err?;
    }
  }

  /** Block j of a successful run is the whole progression of the j-th drawn root. */
  lemma {:induction false} BlockAt(progressionOf: string -> Result<seq<string>>, b: nat,
                                   notes: seq<string>, draws: nat -> nat, count: nat, j: nat)
    requires FixedLength(progressionOf, b) && j < count
    requires Blocks(progressionOf, notes, draws, count).Ok?
    ensures |notes| > 0 && progressionOf(BlockRoot(notes, draws, j)).Ok?
    ensures |Blocks(progressionOf, notes, draws, count).value| == count * b
    ensures (j + 1) * b <= count * b
    ensures Blocks(progressionOf, notes, draws, count).value[j * b..(j + 1) * b] ==
            progressionOf(BlockRoot(notes, draws, j)).value
    decreases count
  {
    var previous := Blocks(progressionOf, notes, draws, count - 1);
    assert previous.Ok?;
    var prefix := previous.value;
    var last := progressionOf(BlockRoot(notes, draws, count - 1)).value;
    assert Blocks(progressionOf, notes, draws, count).value == prefix + last;
    BlocksLength(progressionOf, b, notes, draws, count - 1);
    assert count * b == (count - 1) * b + b;
    MulMonotone(j + 1, count, b);
    if j < count - 1 {
      BlockAt(progressionOf, b, notes, draws, count - 1, j);
      MulMonotone(j + 1, count - 1, b);
      SliceOfConcat(prefix, last, j * b, (j + 1) * b);
    } else {
      assert j * b == |prefix|;
      assert (prefix + last)[|prefix|..|prefix| + |last|] == last;
    }
  }

  /** A window inside the first part of a concatenation is a window of that part. */
  lemma SliceOfConcat(xs: seq<string>, ys: seq<string>, lo: nat, hi: nat)
    requires lo <= hi <= |xs|
    ensures (xs + ys)[lo..hi] == xs[lo..hi]
  {
  }

  /** A run of count blocks succeeds exactly when there are roots to draw and every drawn root has a progression. */
  lemma {:induction false} BlocksSucceed(progressionOf: string -> Result<seq<string>>,
                                         notes: seq<string>, draws: nat -> nat, count: nat)
    ensures Blocks(progressionOf, notes, draws, count).Ok? <==>
            count == 0 ||
            (|notes| > 0 && forall j :: 0 <= j < count ==> progressionOf(BlockRoot(notes, draws, j)).Ok?)
    decreases count
  {
    if count > 0 {
      BlocksSucceed(progressionOf, notes, draws, count - 1);
      if |notes| > 0 {
        assert Choice(notes, draws(count - 1)) == Ok(BlockRoot(notes, draws, count - 1));
      }
    }
  }

  /**
   * A failed run fails on the empty choice when there are no roots, and
   * otherwise with the error of the first drawn root without a progression.
   */
  lemma {:induction false} BlocksFailure(progressionOf: string -> Result<seq<string>>,
                                         notes: seq<string>, draws: nat -> nat, count: nat)
    requires Blocks(progressionOf, notes, draws, count).Err?
    ensures count > 0
    ensures |notes| == 0 ==> Blocks(progressionOf, notes, draws, count).error == EmptyChoice
    ensures |notes| > 0 ==>
              exists j :: 0 <= j < count && progressionOf(BlockRoot(notes, draws, j)).Err? &&
                Blocks(progressionOf, notes, draws, count).error == progressionOf(BlockRoot(notes, draws, j)).error &&
                forall k :: 0 <= k < j ==> progressionOf(BlockRoot(notes, draws, k)).Ok?
    decreases count
  {
    if Blocks(progressionOf, notes, draws, count - 1).Err? {
      BlocksFailure(progressionOf, notes, draws, count - 1);
      if |notes| > 0 {
        var j :| 0 <= j < count - 1 && progressionOf(BlockRoot(notes, draws, j)).Err? &&
                 Blocks(progressionOf, notes, draws, count - 1).error == progressionOf(BlockRoot(notes, draws, j)).error &&
                 forall k :: 0 <= k < j ==> progressionOf(BlockRoot(notes, draws, k)).Ok?;
        assert Blocks(progressionOf, notes, draws, count) == Blocks(progressionOf, notes, draws, count - 1);
      }
    } else if |notes| > 0 {
      BlocksSucceed(progressionOf, notes, draws, count - 1);
      assert progressionOf(BlockRoot(notes, draws, count - 1)).Err?;
    }
  }

  /** Every progression the generator succeeds with holds only non-empty symbols. */
  ghost predicate ChordsNonEmpty(progressionOf: string -> Result<seq<string>>) {
    forall root :: progressionOf(root).Ok? ==> NonEmptySymbols(progressionOf(root).value)
  }

  /** If every progression holds only non-empty symbols, so do the blocks built from them. */
  lemma {:induction false} BlocksNonEmpty(progressionOf: string -> Result<seq<string>>,
                                          notes: seq<string>, draws: nat -> nat, count: nat)
    requires ChordsNonEmpty(progressionOf)
    requires Blocks(progressionOf, notes, draws, count).Ok?
    ensures NonEmptySymbols(Blocks(progressionOf, notes, draws, count).value)
    decreases count
  {
    if count > 0 {
      assert Blocks(progressionOf, notes, draws, count - 1).Ok?;
      BlocksNonEmpty(progressionOf, notes, draws, count - 1);
    }
  }

  /**
   * The chords from position j * b up to the next block or to n are the
   * progression of the j-th drawn root, a root taken from `notes`; the last
   * block is cut at n, not dropped. A pattern-mode display is
   * CutBlocks(PatternOf(mode), BlockSize(mode), notes, draws, n).
   */
  lemma CutBlocksAt(progressionOf: string -> Result<seq<string>>, b: nat,
                    notes: seq<string>, draws: nat -> nat, n: int, j: nat)
    requires b > 0 && FixedLength(progressionOf, b)
    requires CutBlocks(progressionOf, b, notes, draws, n).Ok?
    requires j * b < n
    ensures |notes| > 0 && BlockRoot(notes, draws, j) in notes
    ensures var root, display := BlockRoot(notes, draws, j), CutBlocks(progressionOf, b, notes, draws, n).value;
      var end := Min((j + 1) * b, n);
      progressionOf(root).Ok? && j * b <= end <= |display| && end - j * b <= b &&
      display[j * b..end] == progressionOf(root).value[..end - j * b]
  {
    var count := BlockCount(n, b);
    assert Blocks(progressionOf, notes, draws, count).Ok?;
    var blocks := Blocks(progressionOf, notes, draws, count).value;
    BelowCeiling(n, b, j);
    BlockAt(progressionOf, b, notes, draws, count, j);
    BlockCountCovers(n, b);
    assert CutBlocks(progressionOf, b, notes, draws, n).value == blocks[..n];
    SliceOfCut(blocks, n, j * b, (j + 1) * b);
  }

  /** Within the first n elements, a window [lo, hi) cut at n is a prefix of the uncut window. */
  lemma SliceOfCut(xs: seq<string>, n: nat, lo: nat, hi: nat)
    requires lo < n <= |xs| && lo <= hi <= |xs|
    ensures lo <= Min(hi, n) <= n && Min(hi, n) - lo <= hi - lo
    ensures xs[..n][lo..Min(hi, n)] == xs[lo..hi][..Min(hi, n) - lo]
  {
  }

  /**
   * A pattern-mode display exists exactly when n is not positive, or there
   * are roots to draw and every root drawn for the needed blocks is a name of
   * the flat table.
   */
  lemma PatternDisplaySucceeds(mode: Mode, notes: seq<string>, draws: nat -> nat, n: int)
    requires mode != RandomMode
    ensures PatternDisplay(mode, notes, draws, n).Ok? <==>
            n <= 0 ||
            (|notes| > 0 && forall j :: 0 <= j < BlockCount(n, BlockSize(mode)) ==> BlockRoot(notes, draws, j) in Notes)
  {
    var count := BlockCount(n, BlockSize(mode));
    PatternFixedLength(mode);
    BlockCountCovers(n, BlockSize(mode));
    BlocksSucceed(PatternOf(mode), notes, draws, count);
    if |notes| > 0 {
      forall j | 0 <= j < count
        ensures PatternOf(mode)(BlockRoot(notes, draws, j)).Ok? <==> BlockRoot(notes, draws, j) in Notes
      {
        PatternOfApplies(mode, BlockRoot(notes, draws, j));
      }
    }
  }

  /** The generator of a pattern mode succeeds exactly on the names of the flat table. */
  lemma PatternOfApplies(mode: Mode, root: string)
    requires mode != RandomMode
    ensures PatternOf(mode)(root).Ok? <==> root in Notes
  {
    assert PatternOf(mode)(root) == Pattern(mode, root);
  }

  /**
   * A failed pattern-mode display needs n > 0 and fails on the empty choice,
   * or with ValueError for the first drawn root missing from the flat table.
   */
  lemma PatternDisplayFailure(mode: Mode, notes: seq<string>, draws: nat -> nat, n: int)
    requires mode != RandomMode
    requires PatternDisplay(mode, notes, draws, n).Err?
    ensures n > 0
    ensures |notes| == 0 ==> PatternDisplay(mode, notes, draws, n).error == EmptyChoice
    ensures |notes| > 0 ==>
              exists j :: 0 <= j < BlockCount(n, BlockSize(mode)) && BlockRoot(notes, draws, j) !in Notes &&
                PatternDisplay(mode, notes, draws, n).error == NoteNotInTable(BlockRoot(notes, draws, j))
  {
    PatternFixedLength(mode);
    var count := BlockCount(n, BlockSize(mode));
    BlocksFailure(PatternOf(mode), notes, draws, count);
    if |notes| > 0 {
      var j :| 0 <= j < count && PatternOf(mode)(BlockRoot(notes, draws, j)).Err? &&
               Blocks(PatternOf(mode), notes, draws, count).error == PatternOf(mode)(BlockRoot(notes, draws, j)).error &&
               forall k :: 0 <= k < j ==> PatternOf(mode)(BlockRoot(notes, draws, k)).Ok?;
      assert PatternOf(mode)(BlockRoot(notes, draws, j)) == Pattern(mode, BlockRoot(notes, draws, j));
    }
  }

  /** Every chord of a pattern's progression is a non-empty symbol. */
  lemma PatternChordsNonEmpty(mode: Mode, root: string)
    requires mode != RandomMode && Pattern(mode, root).Ok?
    ensures NonEmptySymbols(Pattern(mode, root).value)
  {
    var scale := ScaleDegrees(root).value;
    var chords := if mode == TwoFiveOneMode then TwoFiveOneOn(scale) else DiatonicCycleOn(scale);
    assert Pattern(mode, root).value == chords;
    assert forall k :: 0 <= k < |chords| ==> |chords[k]| > 0;
  }

  lemma PatternOfChordsNonEmpty(mode: Mode)
    requires mode != RandomMode
    ensures ChordsNonEmpty(PatternOf(mode))
  {
    forall root | PatternOf(mode)(root).Ok? ensures NonEmptySymbols(PatternOf(mode)(root).value) {
      PatternChordsNonEmpty(mode, root);
    }
  }

  /** Cutting blocks of non-empty symbols leaves non-empty symbols. */
  lemma CutBlocksNonEmpty(progressionOf: string -> Result<seq<string>>, b: nat,
                          notes: seq<string>, draws: nat -> nat, n: int)
    requires b > 0 && FixedLength(progressionOf, b) && ChordsNonEmpty(progressionOf)
    requires CutBlocks(progressionOf, b, notes, draws, n).Ok?
    ensures NonEmptySymbols(CutBlocks(progressionOf, b, notes, draws, n).value)
  {
    var count := BlockCount(n, b);
    assert Blocks(progressionOf, notes, draws, count).Ok?;
    var blocks := Blocks(progressionOf, notes, draws, count).value;
    BlocksNonEmpty(progressionOf, notes, draws, count);
    BlocksLength(progressionOf, b, notes, draws, count);
    BlockCountCovers(n, b);
    var display := CutBlocks(progressionOf, b, notes, draws, n).value;
    assert display == blocks[..Max0(n)];
    forall i | 0 <= i < |display| ensures |display[i]| > 0 {
      assert display[i] == blocks[i];
    }
  }

  /** A pattern-mode display holds only non-empty symbols, so its layout cannot fail. */
  lemma PatternDisplayNonEmpty(mode: Mode, notes: seq<string>, draws: nat -> nat, n: int)
    requires mode != RandomMode && PatternDisplay(mode, notes, draws, n).Ok?
    ensures NonEmptySymbols(PatternDisplay(mode, notes, draws, n).value)
  {
    PatternFixedLength(mode);
    PatternOfChordsNonEmpty(mode);
    CutBlocksNonEmpty(PatternOf(mode), BlockSize(mode), notes, draws, n);
  }

  // ---------------------------------------------------------------------
  // Random mode
  // ---------------------------------------------------------------------

  /**
   * The i-th random chord: a root from draw 2i, a quality name from draw
   * 2i + 1, and the quality's suffix; a name without a suffix is a KeyError.
   */
  function RandomSymbol(notes: seq<string>, chordTypes: seq<string>, draws: nat -> nat, i: nat): (r: Result<string>)
    ensures r.Ok? ==> exists note, name :: note in notes && name in chordTypes && name in ChordTypes &&
                                          r.value == note + ChordTypes[name]
  {
    match Choice(notes, draws(2 * i))
    case Err(e) => Err(e)
    case Ok(note) =>
      match Choice(chordTypes, draws(2 * i + 1))
      case Err(e) => Err(e)
      case Ok(name) =>
        if name in ChordTypes then Ok(note + ChordTypes[name]) else Err(UnknownChordType(name))
  }

  /** The first `count` random chords; the first failing one decides the error. */
  function RandomSymbols(notes: seq<string>, chordTypes: seq<string>, draws: nat -> nat, count: nat): (r: Result<seq<string>>)
    ensures r.Ok? ==> |r.value| == count
    decreases count
  {
    if count == 0 then Ok([])
    else
      match RandomSymbols(notes, chordTypes, draws, count - 1)
      case Err(e) => Err(e)
      case Ok(prefix) =>
        match RandomSymbol(notes, chordTypes, draws, count - 1)
        case Err(e) => Err(e)
        case Ok(symbol) => Ok(prefix + [symbol])
  }

  /** The random loop: one chord per measure, `range` of a negative count being empty. */
  method BuildRandomDisplay(notes: seq<string>, chordTypes: seq<string>, draws: nat -> nat, n: int)
    returns (r: Result<seq<string>>)
    ensures r == RandomSymbols(notes, chordTypes, draws, Max0(n))
  {
    var display: seq<string> := [];
    for i := 0 to Max0(n)
      invariant RandomSymbols(notes, chordTypes, draws, i) == Ok(display)
    {
      var note := Choice(notes, draws(2 * i));
      if note.Err? {
        RandomFailureDecides(notes, chordTypes, draws, i, Max0(n));
        return Err(note.error);
      }
      var name := Choice(chordTypes, draws(2 * i + 1));
      if name.Err? {
        RandomFailureDecides(notes, chordTypes, draws, i, Max0(n));
        return Err(name.error);
      }
      if name.value !in ChordTypes {
        RandomFailureDecides(notes, chordTypes, draws, i, Max0(n));
        return Err(UnknownChordType(name.value));
      }
      display := display + [note.value + ChordTypes[name.value]];
    }
    return Ok(display);
  }

  /** A random chord that fails makes every longer run fail with its error. */
  lemma {:induction false} RandomFailureDecides(notes: seq<string>, chordTypes: seq<string>, draws: nat -> nat, i: nat, count: nat)
    requires i < count
    requires RandomSymbols(notes, chordTypes, draws, i).Ok?
    requires RandomSymbol(notes, chordTypes, draws, i).Err?
    ensures RandomSymbols(notes, chordTypes, draws, count) == Err(RandomSymbol(notes, chordTypes, draws, i).error)
    decreases count
  {
    if count > i + 1 {
      RandomFailureDecides(notes, chordTypes, draws, i, count - 1);
    }
  }

  /** The i-th chord of a successful random run is the i-th random chord. */
  lemma {:induction false} RandomSymbolsAt(notes: seq<string>, chordTypes: seq<string>, draws: nat -> nat, count: nat, i: nat)
    requires RandomSymbols(notes, chordTypes, draws, count).Ok? && i < count
    ensures RandomSymbol(notes, chordTypes, draws, i).Ok?
    ensures RandomSymbols(notes, chordTypes, draws, count).value[i] == RandomSymbol(notes, chordTypes, draws, i).value
    decreases count
  {
    assert RandomSymbols(notes, chordTypes, draws, count - 1).Ok?;
    if i < count - 1 {
      RandomSymbolsAt(notes, chordTypes, draws, count - 1, i);
    }
  }

  /** A random run succeeds exactly when each of its chords does. */
  lemma {:induction false} RandomSymbolsSucceed(notes: seq<string>, chordTypes: seq<string>, draws: nat -> nat, count: nat)
    ensures RandomSymbols(notes, chordTypes, draws, count).Ok? <==>
            forall i :: 0 <= i < count ==> RandomSymbol(notes, chordTypes, draws, i).Ok?
    decreases count
  {
    if count > 0 {
      RandomSymbolsSucceed(notes, chordTypes, draws, count - 1);
    }
  }

  /**
   * A random chord exists exactly when both lists are non-empty and the drawn
   * quality name has a suffix; an empty list is the empty-choice error.
   */
  lemma RandomSymbolSucceeds(notes: seq<string>, chordTypes: seq<string>, draws: nat -> nat, i: nat)
    ensures RandomSymbol(notes, chordTypes, draws, i).Ok? <==>
            |notes| > 0 && |chordTypes| > 0 && chordTypes[draws(2 * i + 1) % |chordTypes|] in ChordTypes
    ensures |notes| == 0 || |chordTypes| == 0 ==> RandomSymbol(notes, chordTypes, draws, i) == Err(EmptyChoice)
    ensures |notes| > 0 && |chordTypes| > 0 && chordTypes[draws(2 * i + 1) % |chordTypes|] !in ChordTypes ==>
              RandomSymbol(notes, chordTypes, draws, i) == Err(UnknownChordType(chordTypes[draws(2 * i + 1) % |chordTypes|]))
  {
  }

  // ---------------------------------------------------------------------
  // Layout
  // ---------------------------------------------------------------------

  /** The bass root of a chord symbol: its first character, and the second one when that is 'b' or '#'. */
  function BassRoot(chord: string): (r: string)
    requires |chord| > 0
    ensures 0 < |r| <= 2 && r <= chord
  {
    if |chord| > 1 && (chord[1] == 'b' || chord[1] == '#') then chord[..2] else chord[..1]
  }

  /** The event of measure i: its bass root in octave 2, starting at i measures, sounding 95% of one. */
  function EventAt(chord: string, i: nat, secondsPerMeasure: real): (event: NoteEvent)
    requires |chord| > 0
    ensures 2 <= |event.note| <= 3 && event.note[|event.note| - 1] == '2'
    ensures event.note[..|event.note| - 1] <= chord
    ensures event.time == i as real * secondsPerMeasure && event.duration == secondsPerMeasure * 0.95
    ensures event.instrument == "bass"
  {
    NoteEvent(BassRoot(chord) + "2", i as real * secondsPerMeasure, secondsPerMeasure * 0.95, "bass")
  }

  predicate NonEmptySymbols(display: seq<string>) {
    forall i :: 0 <= i < |display| ==> |display[i]| > 0
  }

  /** The layout of a display sequence; an empty symbol is an IndexError at its first character. */
  function Layout(display: seq<string>, secondsPerMeasure: real): (r: Result<seq<NoteEvent>>)
    ensures r.Err? <==> !NonEmptySymbols(display)
    ensures r.Err? ==> r.error == EmptyChordSymbol
    ensures r.Ok? ==> |r.value| == |display|
  {
    if NonEmptySymbols(display) then
      Ok(seq(|display|, i requires 0 <= i < |display| => EventAt(display[i], i, secondsPerMeasure)))
    else
      Err(EmptyChordSymbol)
  }

  /** The layout loop, one event per symbol in order. */
  method LayoutEvents(display: seq<string>, secondsPerMeasure: real) returns (r: Result<seq<NoteEvent>>)
    ensures r == Layout(display, secondsPerMeasure)
  {
    var events: seq<NoteEvent> := [];
    for i := 0 to |display|
      invariant |events| == i
      invariant forall k :: 0 <= k < i ==> |display[k]| > 0 && events[k] == EventAt(display[k], k, secondsPerMeasure)
    {
      var chord := display[i];
      if |chord| == 0 {
        return Err(EmptyChordSymbol);
      }
      var rootNote := chord[..1];
      if |chord| > 1 && (chord[1] == 'b' || chord[1] == '#') {
        rootNote := rootNote + [chord[1]];
      }
      assert rootNote == BassRoot(chord);
      var midiNote := rootNote + "2";
      events := events + [NoteEvent(midiNote, i as real * secondsPerMeasure, secondsPerMeasure * 0.95, "bass")];
    }
    assert NonEmptySymbols(display);
    assert events == Layout(display, secondsPerMeasure).value;
    return Ok(events);
  }

  /** Event i of a layout is the event of symbol i at measure i. */
  lemma LayoutAt(display: seq<string>, secondsPerMeasure: real, i: nat)
    requires Layout(display, secondsPerMeasure).Ok? && i < |display|
    ensures |display[i]| > 0
    ensures Layout(display, secondsPerMeasure).value[i] == EventAt(display[i], i, secondsPerMeasure)
  {
  }

  /**
   * With a positive measure length the events sit on a grid of one measure
   * from time 0, and each ends before the next begins.
   */
  lemma EventsDoNotOverlap(display: seq<string>, secondsPerMeasure: real, i: nat)
    requires Layout(display, secondsPerMeasure).Ok? && secondsPerMeasure > 0.0
    requires i + 1 < |display|
    ensures var events := Layout(display, secondsPerMeasure).value;
      events[0].time == 0.0 &&
      events[i + 1].time == events[i].time + secondsPerMeasure &&
      events[i].time < events[i].time + events[i].duration < events[i + 1].time
  {
    LayoutAt(display, secondsPerMeasure, 0);
    LayoutAt(display, secondsPerMeasure, i);
    LayoutAt(display, secondsPerMeasure, i + 1);
    assert (i + 1) as real * secondsPerMeasure == i as real * secondsPerMeasure + secondsPerMeasure;
  }

  /** Appending a quality suffix to a name of either table keeps the name as the bass root. */
  lemma BassRootOfSymbol(note: string, suffix: string)
    requires note in Notes || note in NotesSharp
    requires suffix in ChordTypes.Values
    ensures |note + suffix| > 0 && BassRoot(note + suffix) == note
  {
    SpellingShape();
    SuffixesStartPlain();
    var name :| name in ChordTypes && ChordTypes[name] == suffix;
    var symbol := note + suffix;
    assert symbol[..|note|] == note;
    if |note| == 1 && |suffix| > 0 {
      assert symbol[1] == suffix[0];
    }
  }

  /** The bass of a chord on a pitch class sounds that pitch class. */
  lemma BassPlaysChordRoot(symbol: string, pc: nat, suffix: string)
    requires suffix in ChordTypes.Values && ChordOn(symbol, pc, suffix)
    ensures |symbol| > 0 && PitchClass(BassRoot(symbol)) == Some(pc)
  {
    var note := symbol[..|symbol| - |suffix|];
    ChordOnSplits(symbol, pc, suffix);
    BassRootOfSymbol(note, suffix);
  }

  /** A chord on a pitch class is a table name for that pitch class followed by the suffix. */
  lemma ChordOnSplits(symbol: string, pc: nat, suffix: string)
    requires ChordOn(symbol, pc, suffix)
    ensures var note := symbol[..|symbol| - |suffix|];
      symbol == note + suffix && PitchClass(note) == Some(pc) && (note in Notes || note in NotesSharp)
  {
    assert symbol == symbol[..|symbol| - |suffix|] + symbol[|symbol| - |suffix|..];
  }

  // ---------------------------------------------------------------------
  // The whole generation
  // ---------------------------------------------------------------------

  /** The display symbols for a progression type. */
  function Display(progressionType: string, notes: seq<string>, chordTypes: seq<string>,
                   draws: nat -> nat, n: int): (r: Result<seq<string>>)
    ensures r.Ok? ==> |r.value| == Max0(n)
  {
    var mode := ModeOf(progressionType);
    if mode == RandomMode then RandomSymbols(notes, chordTypes, draws, Max0(n))
    else PatternDisplay(mode, notes, draws, n)
  }

  /** `generate_chord_sequence`: the events and the display symbols, or the first error raised. */
  function ChordSequence(n: int, progressionType: string, notes: seq<string>, chordTypes: seq<string>,
                         secondsPerMeasure: real, draws: nat -> nat): (r: Result<(seq<NoteEvent>, seq<string>)>)
    ensures r.Ok? ==> |r.value.0| == |r.value.1| == Max0(n)
  {
    match Display(progressionType, notes, chordTypes, draws, n)
    case Err(e) => Err(e)
    case Ok(display) =>
      match Layout(display, secondsPerMeasure)
      case Err(e) => Err(e)
      case Ok(events) => Ok((events, display))
  }

  /** The body of `generate_chord_sequence`: build the display symbols, then lay them out. */
  method GenerateChordSequence(n: int, progressionType: string, notes: seq<string>, chordTypes: seq<string>,
                               secondsPerMeasure: real, draws: nat -> nat)
    returns (r: Result<(seq<NoteEvent>, seq<string>)>)
    ensures r == ChordSequence(n, progressionType, notes, chordTypes, secondsPerMeasure, draws)
  {
    var display: Result<seq<string>>;
    if progressionType == "II-V-I" {
      PatternFixedLength(TwoFiveOneMode);
      display := BuildPatternDisplay(PatternOf(TwoFiveOneMode), 4, notes, draws, n);
    } else if progressionType == "Diatonic Cycle" {
      PatternFixedLength(DiatonicCycleMode);
      display := BuildPatternDisplay(PatternOf(DiatonicCycleMode), 8, notes, draws, n);
    } else {
      display := BuildRandomDisplay(notes, chordTypes, draws, n);
    }
    if display.Err? {
      return Err(display.error);
    }
    var events := LayoutEvents(display.value, secondsPerMeasure);
    if events.Err? {
      return Err(events.error);
    }
    return Ok((events.value, display.value));
  }

  /** Event i of a generated sequence is the event of display symbol i at measure i. */
  lemma ChordSequenceEvents(n: int, progressionType: string, notes: seq<string>, chordTypes: seq<string>,
                            secondsPerMeasure: real, draws: nat -> nat, i: nat)
    requires ChordSequence(n, progressionType, notes, chordTypes, secondsPerMeasure, draws).Ok?
    requires i < Max0(n)
    ensures var (events, display) := ChordSequence(n, progressionType, notes, chordTypes, secondsPerMeasure, draws).value;
      |display[i]| > 0 && events[i] == EventAt(display[i], i, secondsPerMeasure)
  {
    var display := Display(progressionType, notes, chordTypes, draws, n).value;
    LayoutAt(display, secondsPerMeasure, i);
  }

  /**
   * With no roots to choose from, any positive number of chords fails on the
   * empty choice, in every mode.
   */
  lemma NoRootsFails(n: int, progressionType: string, chordTypes: seq<string>,
                     secondsPerMeasure: real, draws: nat -> nat)
    requires n > 0
    ensures ChordSequence(n, progressionType, [], chordTypes, secondsPerMeasure, draws) == Err(EmptyChoice)
  {
    var mode := ModeOf(progressionType);
    if mode == RandomMode {
      RandomFailureDecides([], chordTypes, draws, 0, n);
    } else {
      PatternFixedLength(mode);
      BlockCountCovers(n, BlockSize(mode));
      FirstFailureDecides(PatternOf(mode), [], draws, 0, BlockCount(n, BlockSize(mode)));
    }
  }

  /** In random mode, roots but no chord types fail on the empty choice. */
  lemma NoChordTypesFails(n: int, progressionType: string, notes: seq<string>,
                          secondsPerMeasure: real, draws: nat -> nat)
    requires n > 0 && |notes| > 0 && ModeOf(progressionType) == RandomMode
    ensures ChordSequence(n, progressionType, notes, [], secondsPerMeasure, draws) == Err(EmptyChoice)
  {
    RandomFailureDecides(notes, [], draws, 0, n);
  }

  /**
   * In random mode, a drawn quality name that has no suffix is a KeyError
   * for that name, once the chords before it were built.
   */
  lemma UnknownChordTypeFails(n: int, progressionType: string, notes: seq<string>, chordTypes: seq<string>,
                              secondsPerMeasure: real, draws: nat -> nat, i: nat)
    requires ModeOf(progressionType) == RandomMode && i < n
    requires |notes| > 0 && |chordTypes| > 0
    requires RandomSymbols(notes, chordTypes, draws, i).Ok?
    requires chordTypes[draws(2 * i + 1) % |chordTypes|] !in ChordTypes
    ensures ChordSequence(n, progressionType, notes, chordTypes, secondsPerMeasure, draws) ==
            Err(UnknownChordType(chordTypes[draws(2 * i + 1) % |chordTypes|]))
  {
    RandomSymbolSucceeds(notes, chordTypes, draws, i);
    RandomFailureDecides(notes, chordTypes, draws, i, n);
  }

  /**
   * Roots taken from the flat table and, in random mode, quality names taken
   * from the chord types, as the application offers them, never fail,
   * whatever is drawn; the pattern modes never read the quality names.
   */
  lemma SelectionFromTablesSucceeds(n: int, progressionType: string, notes: seq<string>, chordTypes: seq<string>,
                                    secondsPerMeasure: real, draws: nat -> nat)
    requires |notes| > 0 && forall k :: 0 <= k < |notes| ==> notes[k] in Notes
    requires ModeOf(progressionType) == RandomMode ==>
               |chordTypes| > 0 && forall k :: 0 <= k < |chordTypes| ==> chordTypes[k] in ChordTypes
    ensures ChordSequence(n, progressionType, notes, chordTypes, secondsPerMeasure, draws).Ok?
  {
    var mode := ModeOf(progressionType);
    if mode == RandomMode {
      forall i | 0 <= i < Max0(n) ensures RandomSymbol(notes, chordTypes, draws, i).Ok? {
        RandomSymbolSucceeds(notes, chordTypes, draws, i);
      }
      RandomSymbolsSucceed(notes, chordTypes, draws, Max0(n));
      var display := RandomSymbols(notes, chordTypes, draws, Max0(n)).value;
      forall i | 0 <= i < |display| ensures |display[i]| > 0 {
        RandomSymbolsAt(notes, chordTypes, draws, Max0(n), i);
        assert notes[draws(2 * i) % |notes|] in Notes;
        RandomSymbolHasRoot(notes, chordTypes, draws, i);
      }
    } else {
      PatternDisplaySucceeds(mode, notes, draws, n);
      PatternDisplayNonEmpty(mode, notes, draws, n);
    }
  }

  /** A random chord starts with its drawn root, so a non-empty root gives a non-empty chord. */
  lemma RandomSymbolHasRoot(notes: seq<string>, chordTypes: seq<string>, draws: nat -> nat, i: nat)
    requires RandomSymbol(notes, chordTypes, draws, i).Ok?
    ensures |notes| > 0
    ensures notes[draws(2 * i) % |notes|] <= RandomSymbol(notes, chordTypes, draws, i).value
  {
  }

  /** The session of the random-mode example: eight chords over C, F and G, major or minor, two-second measures. */
  function RandomSession(draws: nat -> nat): Result<(seq<NoteEvent>, seq<string>)> {
    ChordSequence(8, "Random", ["C", "F", "G"], ["Major", "Minor"], 2.0, draws)
  }

  /** Measure i of the example session: its timing, its chord and its bass note. */
  predicate SessionMeasure(event: NoteEvent, chord: string, i: nat) {
    event.time == i as real * 2.0 && event.duration == 1.9 &&
    |chord| > 0 && chord[..1] in ["C", "F", "G"] && (chord == chord[..1] || chord == chord[..1] + "m") &&
    event.note == chord[..1] + "2"
  }

  /**
   * The random-mode example: whatever is drawn, the session has eight events
   * two seconds apart, each lasting 1.9 seconds, each chord being one of the
   * roots alone or followed by "m", and each bass note that root in octave 2.
   */
  lemma RandomSessionExample(draws: nat -> nat)
    ensures RandomSession(draws).Ok?
    ensures |RandomSession(draws).value.0| == 8 && |RandomSession(draws).value.1| == 8
    ensures forall i :: 0 <= i < 8 ==>
              SessionMeasure(RandomSession(draws).value.0[i], RandomSession(draws).value.1[i], i)
  {
    SessionSelectionsFromTables();
    SelectionFromTablesSucceeds(8, "Random", ["C", "F", "G"], ["Major", "Minor"], 2.0, draws);
    forall i | 0 <= i < 8
      ensures SessionMeasure(RandomSession(draws).value.0[i], RandomSession(draws).value.1[i], i)
    {
      RandomSessionMeasure(draws, i);
    }
  }

  lemma SessionSelectionsFromTables()
    ensures forall k :: 0 <= k < 3 ==> ["C", "F", "G"][k] in Notes
    ensures forall k :: 0 <= k < 2 ==> ["Major", "Minor"][k] in ChordTypes
  {
    assert Notes[3] == "C" && Notes[8] == "F" && Notes[10] == "G";
  }



  lemma RandomSessionMeasure(draws: nat -> nat, i: nat)
    requires i < 8 && RandomSession(draws).Ok?
    ensures |RandomSession(draws).value.0| == 8 && |RandomSession(draws).value.1| == 8
    ensures SessionMeasure(RandomSession(draws).value.0[i], RandomSession(draws).value.1[i], i)
  {
    var notes, chordTypes := ["C", "F", "G"], ["Major", "Minor"];
    ChordSequenceEvents(8, "Random", notes, chordTypes, 2.0, draws, i);
    RandomSessionChords(draws);
    SessionChord(draws, i);
  }

  /** The chords of the example session are its random chords. */
  lemma RandomSessionChords(draws: nat -> nat)
    requires RandomSession(draws).Ok?
    ensures RandomSymbols(["C", "F", "G"], ["Major", "Minor"], draws, 8).Ok?
    ensures RandomSession(draws).value.1 == RandomSymbols(["C", "F", "G"], ["Major", "Minor"], draws, 8).value
  {
    assert ModeOf("Random") == RandomMode;
  }

  /** Chord i of the example session is a root among C, F and G, alone or followed by "m". */
  lemma SessionChord(draws: nat -> nat, i: nat)
    requires i < 8 && RandomSymbols(["C", "F", "G"], ["Major", "Minor"], draws, 8).Ok?
    ensures var chord := RandomSymbols(["C", "F", "G"], ["Major", "Minor"], draws, 8).value[i];
      |chord| > 0 && chord[..1] in ["C", "F", "G"] && (chord == chord[..1] || chord == chord[..1] + "m") &&
      BassRoot(chord) == chord[..1]
  {
    RandomSymbolsAt(["C", "F", "G"], ["Major", "Minor"], draws, 8, i);
    SessionSymbol(draws, i);
  }

  lemma SessionSymbol(draws: nat -> nat, i: nat)
    ensures var r := RandomSymbol(["C", "F", "G"], ["Major", "Minor"], draws, i);
      r.Ok? && |r.value| > 0 && r.value[..1] in ["C", "F", "G"] &&
      (r.value == r.value[..1] || r.value == r.value[..1] + "m") && BassRoot(r.value) == r.value[..1]
  {
    var notes, chordTypes := ["C", "F", "G"], ["Major", "Minor"];
    var note := notes[draws(2 * i) % 3];
    var name := chordTypes[draws(2 * i + 1) % 2];
    var k, m := draws(2 * i) % 3, draws(2 * i + 1) % 2;
    assert note == notes[k] && name == chordTypes[m];
    assert ChordTypes["Major"] == "" && ChordTypes["Minor"] == "m";
    assert RandomSymbol(notes, chordTypes, draws, i) == Ok(note + ChordTypes[name]);
    OneLetterRoot(note, ChordTypes[name]);
  }

  /** A one-letter root followed by "" or "m" keeps the letter as its root and bass. */
  lemma OneLetterRoot(note: string, suffix: string)
    requires |note| == 1 && (suffix == "" || suffix == "m")
    ensures var chord := note + suffix;
      |chord| > 0 && chord[..1] == note && (chord == note || chord == note + "m") && BassRoot(chord) == note
  {
    var chord := note + suffix;
    assert chord[..1] == note;
  }

  // ---------------------------------------------------------------------
  // Metronome
  // ---------------------------------------------------------------------

  /**
   * `generate_metronome_sequence`: one click per beat of every measure, click
   * i at i beats; a negative beat total yields no clicks.
   */
  method GenerateMetronomeSequence(numMeasures: int, beatsPerMeasure: int, secondsPerBeat: real)
    returns (clicks: seq<real>)
    ensures |clicks| == Max0(numMeasures * beatsPerMeasure)
    ensures forall i :: 0 <= i < |clicks| ==> clicks[i] == i as real * secondsPerBeat
    ensures secondsPerBeat > 0.0 ==> forall i, j :: 0 <= i < j < |clicks| ==> clicks[i] < clicks[j]
  {
    clicks := [];
    var totalBeats := numMeasures * beatsPerMeasure;
    for i := 0 to Max0(totalBeats)
      invariant |clicks| == i
      invariant forall k :: 0 <= k < i ==> clicks[k] == k as real * secondsPerBeat
    {
      clicks := clicks + [i as real * secondsPerBeat];
    }
    if secondsPerBeat > 0.0 {
      forall i, j | 0 <= i < j < |clicks| ensures clicks[i] < clicks[j] {
        LaterBeatLaterTime(i, j, secondsPerBeat);
      }
    }
  }

  /** With a positive beat, a later beat index is a later time. */
  lemma LaterBeatLaterTime(i: nat, j: nat, step: real)
    requires i < j && step > 0.0
    ensures i as real * step < j as real * step
  {
    assert (j as real - i as real) * step > 0.0;
  }
}
