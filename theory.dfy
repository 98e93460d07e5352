/**
 * The note and scale resolver: two parallel spelling tables for the twelve
 * pitch classes, the set of roots whose scales are spelled with sharps, the
 * chord-quality suffixes, major-scale degrees and the combined display name.
 */
module Theory {
  import opened Results

  /** The two spellings of one pitch class; a natural repeats its name. */
  datatype NotePair = NotePair(flat: string, sharp: string)

  /** The twelve pitch classes, starting from A. */
  const NotePairs: seq<NotePair> := [
    NotePair("A", "A"), NotePair("Bb", "A#"), NotePair("B", "B"), NotePair("C", "C"),
    NotePair("Db", "C#"), NotePair("D", "D"), NotePair("Eb", "D#"), NotePair("E", "E"),
    NotePair("F", "F"), NotePair("Gb", "F#"), NotePair("G", "G"), NotePair("Ab", "G#")
  ]

  /** The flat-based spelling table, the first spelling of every pair. */
  const Notes: seq<string> := ["A", "Bb", "B", "C", "Db", "D", "Eb", "E", "F", "Gb", "G", "Ab"]

  /** The sharp-based spelling table, the second spelling of every pair. */
  const NotesSharp: seq<string> := ["A", "A#", "B", "C", "C#", "D", "D#", "E", "F", "F#", "G", "G#"]

  /** The two spelling tables are the columns of the pair table, position by position. */
  lemma TablesArePairColumns()
    ensures |Notes| == |NotesSharp| == |NotePairs|
    ensures forall i :: 0 <= i < |NotePairs| ==> NotePairs[i] == NotePair(Notes[i], NotesSharp[i])
  {
  }

  /** Roots whose major scale is spelled from the sharp table. */
  const SharpRoots: set<string> := {"B", "E", "A", "D", "G"}

  /** Chord-quality names and the suffix each adds to a root. */
  const ChordTypes: map<string, string> := map[
    "Major" := "", "Minor" := "m", "Major 7" := "maj7", "Minor 7" := "m7",
    "Dominant 7" := "7", "Minor 7 flat 5" := "m7b5", "Diminished" := "dim",
    "Augmented" := "aug", "Sus4" := "sus4", "Sus2" := "sus2"
  ]

  /** Semitone offsets of the seven major-scale degrees from the root. */
  const MajorIntervals: seq<nat> := [0, 2, 4, 5, 7, 9, 11]

  predicate Distinct(xs: seq<string>) {
    forall i, j :: 0 <= i < j < |xs| ==> xs[i] != xs[j]
  }

  /** A natural note is spelled with its letter alone. */
  predicate IsNatural(note: string) {
    |note| == 1
  }

  /** Python's `list.index`: the first position holding `x`, or None when there is none. */
  function IndexOf(xs: seq<string>, x: string): (r: Option<nat>)
    ensures r.None? <==> x !in xs
    ensures r.Some? ==> r.value < |xs| && xs[r.value] == x && x !in xs[..r.value]
  {
    assert xs[0..] == xs;
    IndexFrom(xs, x, 0)
  }

  /** The scan behind IndexOf, from position `from` onwards. */
  function IndexFrom(xs: seq<string>, x: string, from: nat): (r: Option<nat>)
    requires from <= |xs|
    decreases |xs| - from
    ensures r.None? <==> x !in xs[from..]
    ensures r.Some? ==> from <= r.value < |xs| && xs[r.value] == x && x !in xs[from..r.value]
  {
    if from == |xs| then None
    else if xs[from] == x then Some(from)
    else
      var r := IndexFrom(xs, x, from + 1);
      assert xs[from..] == [xs[from]] + xs[from + 1..];
      assert r.Some? ==> xs[from..r.value] == [xs[from]] + xs[from + 1..r.value];
      r
  }

  lemma IndexOfDistinct(xs: seq<string>, i: nat)
    requires Distinct(xs) && i < |xs|
    ensures IndexOf(xs, xs[i]) == Some(i)
  {
    assert xs[i] in xs;
  }

  /** The table a root's scale is spelled from: the sharp one exactly for the sharp-preferring roots. */
  function SpellingTable(root: string): (table: seq<string>)
    ensures table == Notes || table == NotesSharp
    ensures table == NotesSharp <==> root in SharpRoots
  {
    assert Notes[1] != NotesSharp[1];
    if root in SharpRoots then NotesSharp else Notes
  }

  /**
   * The spelling tables' invariants: both have twelve entries without
   * repeats, they agree exactly at the naturals, a name in both tables sits at
   * the same position in each, and every sharp-preferring root is a natural.
   */
  lemma TableInvariants()
    ensures |Notes| == 12 && |NotesSharp| == 12
    ensures Distinct(Notes) && Distinct(NotesSharp)
    ensures forall i :: 0 <= i < 12 ==> (Notes[i] == NotesSharp[i] <==> IsNatural(Notes[i]))
    ensures forall i, j :: 0 <= i < 12 && 0 <= j < 12 && Notes[i] == NotesSharp[j] ==> i == j
    ensures forall n :: n in SharpRoots ==> n in Notes && n in NotesSharp && IsNatural(n)
  {
  }

  /**
   * Every spelling is a letter from A to G, followed in the flat table by at
   * most a 'b' and in the sharp table by at most a '#'.
   */
  lemma SpellingShape()
    ensures forall i :: 0 <= i < |Notes| ==>
              1 <= |Notes[i]| <= 2 && 'A' <= Notes[i][0] <= 'G' && (|Notes[i]| == 2 ==> Notes[i][1] == 'b')
    ensures forall i :: 0 <= i < |NotesSharp| ==>
              1 <= |NotesSharp[i]| <= 2 && 'A' <= NotesSharp[i][0] <= 'G' &&
              (|NotesSharp[i]| == 2 ==> NotesSharp[i][1] == '#')
  {
  }

  /** No quality suffix starts with an accidental sign. */
  lemma SuffixesStartPlain()
    ensures forall name :: name in ChordTypes ==>
              ChordTypes[name] == "" || (ChordTypes[name][0] != 'b' && ChordTypes[name][0] != '#')
  {
  }

  /**
   * The position of a note name in the tables (A is 0), looked up in the flat
   * table first and in the sharp table second, as the display lookup does.
   */
  function PitchClass(note: string): (r: Option<nat>)
    ensures r.Some? <==> note in Notes || note in NotesSharp
    ensures r.Some? ==> r.value < 12 && (Notes[r.value] == note || NotesSharp[r.value] == note)
  {
    TableInvariants();
    match IndexOf(Notes, note)
    case Some(i) => Some(i)
    case None => IndexOf(NotesSharp, note)
  }

  /** Every entry of either table names its own position. */
  lemma PitchClassOfTableEntry(notes: seq<string>, m: nat)
    requires notes == Notes || notes == NotesSharp
    requires m < 12
    ensures PitchClass(notes[m]) == Some(m)
  {
    PitchClassOfEntry(m);
  }

  lemma PitchClassOfEntry(m: nat)
    requires m < 12
    ensures PitchClass(Notes[m]) == Some(m)
    ensures PitchClass(NotesSharp[m]) == Some(m)
  {
    TableInvariants();
    IndexOfDistinct(Notes, m);
    IndexOfDistinct(NotesSharp, m);
    if NotesSharp[m] in Notes {
      var j := IndexOf(Notes, NotesSharp[m]).value;
      assert Notes[j] == NotesSharp[m];
    }
  }

  /**
   * The major scale read off a spelling table from position `noteIndex`:
   * degree k is the entry MajorIntervals[k] places further on, wrapping
   * around the end of the table.
   */
  function MajorScaleFrom(notes: seq<string>, noteIndex: nat): (r: seq<string>)
    requires noteIndex < |notes|
    ensures |r| == |MajorIntervals| && r[0] == notes[noteIndex]
    ensures forall k :: 0 <= k < |r| ==> r[k] in notes
  {
    seq(|MajorIntervals|, k requires 0 <= k < |MajorIntervals| =>
      notes[(noteIndex + MajorIntervals[k]) % |notes|])
  }

  lemma MajorScaleFromAt(notes: seq<string>, noteIndex: nat, k: nat)
    requires noteIndex < |notes| && k < |MajorIntervals|
    ensures MajorScaleFrom(notes, noteIndex)[k] == notes[(noteIndex + MajorIntervals[k]) % |notes|]
  {
  }

  /**
   * `get_scale_degrees`: the major scale of `root`, spelled from the sharp
   * table when the root is sharp-preferring and from the flat table otherwise.
   * A root missing from the chosen table raises ValueError.
   */
  function ScaleDegrees(root: string): (r: Result<seq<string>>)
    ensures r.Err? <==> root !in SpellingTable(root)
    ensures r.Err? ==> r.error == NoteNotInTable(root)
    ensures r.Ok? ==> |r.value| == 7 && r.value[0] == root
  {
    var notes := SpellingTable(root);
    match IndexOf(notes, root)
    case None => Err(NoteNotInTable(root))
    case Some(noteIndex) => Ok(MajorScaleFrom(notes, noteIndex))
  }

  /** The body of `get_scale_degrees`: choose the table, find the root, walk the intervals. */
  method GetScaleDegrees(root: string) returns (r: Result<seq<string>>)
    ensures r == ScaleDegrees(root)
  {
    var notes := if root in SharpRoots then NotesSharp else Notes;
    var found := IndexOf(notes, root);
    if found.None? {
      return Err(NoteNotInTable(root));
    }
    var scaleNotes := WalkIntervals(notes, found.value);
    return Ok(scaleNotes);
  }

  /** The loop of `get_scale_degrees`, appending one table entry per interval. */
  method WalkIntervals(notes: seq<string>, noteIndex: nat) returns (scaleNotes: seq<string>)
    requires noteIndex < |notes|
    ensures scaleNotes == MajorScaleFrom(notes, noteIndex)
  {
    var intervals := MajorIntervals;
    scaleNotes := [];
    for k := 0 to |intervals|
      invariant |scaleNotes| == k
      invariant forall j :: 0 <= j < k ==> scaleNotes[j] == notes[(noteIndex + intervals[j]) % |notes|]
    {
      var scaleIndex := (noteIndex + intervals[k]) % |notes|;
      scaleNotes := scaleNotes + [notes[scaleIndex]];
    }
  }

  /**
   * A scale exists exactly for the names of the flat table: sharp-preferring
   * roots are found in the sharp table, every other root must be in the flat
   * one, so a sharp spelling such as F# is refused.
   */
  lemma ScaleDefinedExactlyOnFlatNames(root: string)
    ensures ScaleDegrees(root).Ok? <==> root in Notes
  {
    TableInvariants();
    if root in NotesSharp && root !in SharpRoots && root in Notes {
      assert root in SpellingTable(root);
    }
  }

  /** All seven degrees are spelled from the root's one table. */
  lemma ScaleSpelledFromOneTable(root: string)
    requires ScaleDegrees(root).Ok?
    ensures forall k :: 0 <= k < 7 ==> ScaleDegrees(root).value[k] in SpellingTable(root)
  {
    var notes := SpellingTable(root);
    assert ScaleDegrees(root).value == MajorScaleFrom(notes, IndexOf(notes, root).value);
  }

  /** The pitch class `semitones` above pitch class `p`. */
  function Transpose(p: nat, semitones: nat): (r: nat)
    ensures r < 12
  {
    (p + semitones) % 12
  }

  /** Read off either table, degree k lies MajorIntervals[k] semitones above position i. */
  lemma TableScaleIntervals(notes: seq<string>, i: nat, k: nat)
    requires notes == Notes || notes == NotesSharp
    requires i < 12 && k < 7
    ensures PitchClass(MajorScaleFrom(notes, i)[k]) == Some(Transpose(i, MajorIntervals[k]))
  {
    MajorScaleFromAt(notes, i, k);
    PitchClassOfTableEntry(notes, (i + MajorIntervals[k]) % 12);
  }

  /** Degree k of a scale lies MajorIntervals[k] semitones above the root. */
  lemma ScaleIntervals(root: string, k: nat)
    requires ScaleDegrees(root).Ok? && k < 7
    ensures PitchClass(root).Some?
    ensures PitchClass(ScaleDegrees(root).value[k]) ==
              Some(Transpose(PitchClass(root).value, MajorIntervals[k]))
  {
    var notes := SpellingTable(root);
    var i := IndexOf(notes, root).value;
    assert ScaleDegrees(root).value == MajorScaleFrom(notes, i);
    TableScaleIntervals(notes, i, k);
    PitchClassOfTableEntry(notes, i);
  }

  /** Transposing one pitch class by two different offsets below 12 gives two pitch classes. */
  lemma TransposeInjective(p: nat, a: nat, b: nat)
    requires a < 12 && b < 12 && a != b
    ensures Transpose(p, a) != Transpose(p, b)
  {
  }

  /** The seven degrees of a scale are seven different notes. */
  lemma ScaleDistinct(root: string)
    requires ScaleDegrees(root).Ok?
    ensures Distinct(ScaleDegrees(root).value)
  {
    TableInvariants();
    var notes := SpellingTable(root);
    assert ScaleDegrees(root).value == MajorScaleFrom(notes, IndexOf(notes, root).value);
    MajorScaleFromDistinct(notes, IndexOf(notes, root).value);
  }

  /** Seven different offsets into a twelve-entry table without repeats pick seven different entries. */
  lemma MajorScaleFromDistinct(notes: seq<string>, i: nat)
    requires Distinct(notes) && |notes| == 12 && i < 12
    ensures Distinct(MajorScaleFrom(notes, i))
  {
    var s := MajorScaleFrom(notes, i);
    forall a, b | 0 <= a < b < 7 ensures s[a] != s[b] {
      MajorScaleFromAt(notes, i, a);
      MajorScaleFromAt(notes, i, b);
      TransposeInjective(i, MajorIntervals[a], MajorIntervals[b]);
      assert Transpose(i, MajorIntervals[a]) == (i + MajorIntervals[a]) % |notes|;
      assert Transpose(i, MajorIntervals[b]) == (i + MajorIntervals[b]) % |notes|;
    }
  }

  /** The scale of a root found at position i of its table is read off from position i. */
  lemma ScaleAtPosition(root: string, i: nat)
    requires Distinct(SpellingTable(root)) && i < |SpellingTable(root)|
    requires SpellingTable(root)[i] == root
    ensures ScaleDegrees(root) == Ok(MajorScaleFrom(SpellingTable(root), i))
  {
    IndexOfDistinct(SpellingTable(root), i);
  }

  /** Reading `expected` off a table from position i, checked entry by entry. */
  lemma TablesAreWalkedFrom(notes: seq<string>, i: nat, expected: seq<string>)
    requires i < |notes| && |expected| == 7
    requires forall k :: 0 <= k < 7 ==> expected[k] == notes[(i + MajorIntervals[k]) % |notes|]
    ensures MajorScaleFrom(notes, i) == expected
  {
  }

  /** A root found at position i of its table has the scale read off from there. */
  lemma ScaleRead(root: string, i: nat, expected: seq<string>)
    requires IndexOf(SpellingTable(root), root) == Some(i)
    requires MajorScaleFrom(SpellingTable(root), i) == expected
    ensures ScaleDegrees(root) == Ok(expected)
  {
  }

  /** Each name of a table is found at its own position. */
  lemma TablePosition(notes: seq<string>, i: nat)
    requires notes == Notes || notes == NotesSharp
    requires i < 12
    ensures IndexOf(notes, notes[i]) == Some(i)
  {
    TableInvariants();
    IndexOfDistinct(notes, i);
  }

  lemma FlatPositionOfC() ensures SpellingTable("C") == Notes && IndexOf(Notes, "C") == Some(3) {
    assert "C" !in SharpRoots && Notes[3] == "C";
    TablePosition(Notes, 3);
  }
  lemma SharpPositionOfG() ensures SpellingTable("G") == NotesSharp && IndexOf(NotesSharp, "G") == Some(10) {
    assert "G" in SharpRoots && NotesSharp[10] == "G";
    TablePosition(NotesSharp, 10);
  }
  lemma FlatPositionOfF() ensures SpellingTable("F") == Notes && IndexOf(Notes, "F") == Some(8) {
    assert "F" !in SharpRoots && Notes[8] == "F";
    TablePosition(Notes, 8);
  }

  lemma FlatWalkFromC() ensures MajorScaleFrom(Notes, 3) == ["C", "D", "E", "F", "G", "A", "B"] {
    TablesAreWalkedFrom(Notes, 3, ["C", "D", "E", "F", "G", "A", "B"]);
  }
  lemma SharpWalkFromG() ensures MajorScaleFrom(NotesSharp, 10) == ["G", "A", "B", "C", "D", "E", "F#"] {
    TablesAreWalkedFrom(NotesSharp, 10, ["G", "A", "B", "C", "D", "E", "F#"]);
  }
  lemma FlatWalkFromF() ensures MajorScaleFrom(Notes, 8) == ["F", "G", "A", "Bb", "C", "D", "E"] {
    TablesAreWalkedFrom(Notes, 8, ["F", "G", "A", "Bb", "C", "D", "E"]);
  }

  /** C major uses no accidentals (the flat table). */
  lemma ScaleOfC()
    ensures ScaleDegrees("C") == Ok(["C", "D", "E", "F", "G", "A", "B"])
  {
    FlatPositionOfC();
    FlatWalkFromC();
    ScaleRead("C", 3, ["C", "D", "E", "F", "G", "A", "B"]);
  }

  /** G is sharp-preferring, so its seventh degree is spelled F#. */
  lemma ScaleOfG()
    ensures ScaleDegrees("G") == Ok(["G", "A", "B", "C", "D", "E", "F#"])
  {
    SharpPositionOfG();
    SharpWalkFromG();
    ScaleRead("G", 10, ["G", "A", "B", "C", "D", "E", "F#"]);
  }

  /** F is not sharp-preferring, so its fourth degree is spelled Bb. */
  lemma ScaleOfF()
    ensures ScaleDegrees("F") == Ok(["F", "G", "A", "Bb", "C", "D", "E"])
  {
    FlatPositionOfF();
    FlatWalkFromF();
    ScaleRead("F", 8, ["F", "G", "A", "Bb", "C", "D", "E"]);
  }

  /** F# is not sharp-preferring, and the flat table does not hold it. */
  lemma ScaleOfFSharpFails()
    ensures ScaleDegrees("F#") == Err(NoteNotInTable("F#"))
  {
    FSharpIsNoFlatName();
    ScaleDefinedExactlyOnFlatNames("F#");
  }

  lemma FSharpIsNoFlatName() ensures "F#" !in Notes {
    assert forall i :: 0 <= i < |Notes| ==> |Notes[i]| == 1 || Notes[i][1] == 'b' by {
      SpellingShape();
    }
  }

  /**
   * `get_note_display`: the "sharp/flat" label of a pitch class that has two
   * spellings, whichever of them is given; any other input, a natural or a
   * name in neither table, comes back unchanged.
   */
  function NoteDisplay(note: string): (r: string)
    ensures PitchClass(note).None? ==> r == note
    ensures r != note ==>
              PitchClass(note).Some? &&
              r == NotesSharp[PitchClass(note).value] + "/" + Notes[PitchClass(note).value]
  {
    match PitchClass(note)
    case None => note
    case Some(idx) =>
      var flatNote := Notes[idx];
      var sharpNote := NotesSharp[idx];
      if flatNote != sharpNote then sharpNote + "/" + flatNote else note
  }

  /** Both spellings of a pitch class with an accidental display as "sharp/flat". */
  lemma DisplayOfAccidental(i: nat)
    requires i < 12 && Notes[i] != NotesSharp[i]
    ensures NoteDisplay(Notes[i]) == NotesSharp[i] + "/" + Notes[i]
    ensures NoteDisplay(NotesSharp[i]) == NotesSharp[i] + "/" + Notes[i]
  {
    PitchClassOfEntry(i);
  }

  /** A natural displays as itself. */
  lemma DisplayOfNatural(i: nat)
    requires i < 12 && IsNatural(Notes[i])
    ensures NoteDisplay(Notes[i]) == Notes[i]
  {
    TableInvariants();
    PitchClassOfEntry(i);
  }

  /** Gb and F# are one pitch class, displayed under both names. */
  lemma DisplayOfGFlatAndFSharp()
    ensures NoteDisplay("Gb") == "F#/Gb" && NoteDisplay("F#") == "F#/Gb"
  {
    assert Notes[9] == "Gb" && NotesSharp[9] == "F#" && "F#" + "/" + "Gb" == "F#/Gb";
    DisplayOfAccidental(9);
  }

  /** C and F are naturals and display as themselves. */
  lemma DisplayOfCAndF()
    ensures NoteDisplay("C") == "C" && NoteDisplay("F") == "F"
  {
    assert Notes[3] == "C" && Notes[8] == "F";
    DisplayOfNatural(3);
    DisplayOfNatural(8);
  }

  /** A name in neither table comes back unchanged. */
  lemma DisplayOfUnknownName(note: string)
    requires note !in Notes && note !in NotesSharp
    ensures NoteDisplay(note) == note
  {
  }
}
