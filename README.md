# Meatball music engine — a Dafny model

This project models the music-theory engine of the meatball ear-training
application. The engine has three parts.

- **The note and scale resolver** (`meatball/music/theory.py`). It holds two
  parallel twelve-entry spelling tables, one flat-based and one sharp-based.
  It also holds the five roots whose scales are spelled with sharps, and the
  ten chord-quality suffixes. From these it computes the seven degrees of a
  major scale and the combined "sharp/flat" display name of a note.
- **The progression generator** (`meatball/music/progressions.py`). It builds
  the II-V-I and the eight-chord diatonic cycle in the key of a root.
- **The sequence builder** (`meatball/music/sequence.py`). It works in one of
  two kinds of mode:
  - pattern modes append whole progressions for randomly drawn roots until
    there are enough chords, then cut the result to length;
  - random mode draws a root and a chord quality for each measure.

  The chord symbols are then laid out as one timed bass event per measure.
  The sequence builder also produces the metronome click times.

Each file is one Dafny module:

- `results.dfy`: `Results`, holding Option, Result and the engine's errors;
- `theory.dfy`: `Theory`;
- `progressions.dfy`: `Progressions`;
- `sequence.dfy`: `Sequence`.

Python exceptions become `Err` values:

- `list.index` misses become `NoteNotInTable`;
- `random.choice([])` becomes `EmptyChoice`;
- a missing `CHORD_TYPES` key becomes `UnknownChordType`;
- `chord[0]` on an empty symbol becomes `EmptyChordSymbol`.

Randomness is a parameter, `draws: nat -> nat`. The k-th call of
`random.choice(xs)` returns `xs[draws(k) % |xs|]`:

- pattern block j uses draw j;
- random chord i uses draw 2i for its root and draw 2i+1 for its quality.

Every property about generated sequences holds for every `draws`.

The `for` and `while` loops of the source are Dafny methods; the list
comprehensions that build the two spelling tables are literal constants, tied
to the pair table by `TablesArePairColumns`. Four of the methods are proved equal to
a specification function, and the properties are proved as lemmas about that
function:

- `WalkIntervals` equals `MajorScaleFrom`;
- `BuildPatternDisplay` equals `CutBlocks`;
- `BuildRandomDisplay` equals `RandomSymbols`;
- `LayoutEvents` equals `Layout`.

Two methods have no loop of their own. `GetScaleDegrees` is proved equal to
`ScaleDegrees`, and `GenerateChordSequence` to `ChordSequence`; each calls
the loop methods above.

The metronome loop `GenerateMetronomeSequence` has no specification function.
Its `ensures` states directly the number of clicks, the time of each click
and their order.

## Model

| member | source | states |
|---|---|---|
| Theory.TablesArePairColumns | meatball/music/theory.py:6-22 | the flat and sharp tables are, position by position, the two columns of the twelve note pairs |
| Theory.TableInvariants | meatball/music/theory.py:6-23 | both tables have 12 entries and no repeats; they agree exactly at the naturals; a name found in both sits at the same position; every sharp-preferring root is a natural present in both tables |
| Theory.SpellingShape | meatball/music/theory.py:6-22 | every spelling is one letter from A to G, followed by at most 'b' in the flat table and at most '#' in the sharp table |
| Theory.SpellingTable | meatball/music/theory.py:48 | the table a root's scale is spelled from is one of the two tables, and it is the sharp table if and only if the root is sharp-preferring |
| Theory.IndexOf | meatball/music/theory.py:52 | `list.index`: None exactly when the name is absent; otherwise the first position holding it |
| Theory.PitchClass | meatball/music/theory.py:71-77 | a position below 12 exists exactly for names in either table, and the table entry at that position is the name |
| Theory.MajorScaleFrom | meatball/music/theory.py:51-57 | seven degrees, the first being the table entry at the start index, every degree an entry of the same table |
| Theory.ScaleDegrees | meatball/music/theory.py:38-59 | fails with ValueError for the root exactly when the root is missing from its chosen table; otherwise seven degrees starting at the root |
| Theory.GetScaleDegrees | meatball/music/theory.py:48-59 | the imperative body computes exactly ScaleDegrees, error case included |
| Theory.WalkIntervals | meatball/music/theory.py:53-57 | the interval loop appends exactly the major-scale walk of the table from the root's index |
| Theory.ScaleDefinedExactlyOnFlatNames | meatball/music/theory.py:48-52 | a scale exists if and only if the root is a name of the flat table, so sharp spellings such as F# are refused |
| Theory.ScaleSpelledFromOneTable | meatball/music/theory.py:48-57 | all seven degrees are spelled from the root's one table |
| Theory.ScaleIntervals | meatball/music/theory.py:51-57 | degree k lies 0, 2, 4, 5, 7, 9 or 11 semitones above the root's pitch class, modulo 12 |
| Theory.ScaleDistinct | meatball/music/theory.py:51-57 | the seven degrees are pairwise different notes |
| Theory.ScaleAtPosition | meatball/music/theory.py:52-57 | a root at position i of its table has the scale read from position i |
| Theory.ScaleOfC | tests/music/test_theory.py:9 | the scale of C is C D E F G A B |
| Theory.ScaleOfG | tests/music/test_theory.py:12 | the scale of G is G A B C D E F# |
| Theory.ScaleOfF | tests/music/test_theory.py:15 | the scale of F is F G A Bb C D E |
| Theory.ScaleOfFSharpFails | meatball/music/theory.py:48-52 | F# is not sharp-preferring and not in the flat table, so its scale raises ValueError |
| Theory.NoteDisplay | meatball/music/theory.py:61-83 | a name in neither table comes back unchanged; any changed result is "sharp/flat" of the name's pitch class |
| Theory.DisplayOfAccidental | meatball/music/theory.py:79-82 | either spelling of a pitch class with two spellings displays as "sharp/flat" |
| Theory.DisplayOfNatural | meatball/music/theory.py:81-83 | a natural displays as itself |
| Theory.DisplayOfGFlatAndFSharp | tests/music/test_theory.py:20-21 | Gb and F# both display as "F#/Gb" |
| Theory.DisplayOfCAndF | tests/music/test_theory.py:24-25 | C and F display as themselves |
| Theory.DisplayOfUnknownName | meatball/music/theory.py:76-77 | every name in neither table is returned as is |
| Progressions.TwoFiveOne | meatball/music/progressions.py:6-26 | fails exactly when the root's scale fails, with the same ValueError; otherwise four chords, the last two equal |
| Progressions.TwoFiveOneOn | meatball/music/progressions.py:18-26 | over any seven-degree scale, four non-empty chord symbols, the I chord held twice |
| Progressions.TwoFiveOneOnDegrees | meatball/music/progressions.py:18-26 | the chords are degree II + "m7", degree V + "7", and degree I + "maj7" twice |
| Progressions.TwoFiveOneShape | meatball/music/progressions.py:15-26 | by pitch class: a minor seventh 2 semitones above the root, a dominant seventh 7 above it, and the major seventh on the root twice |
| Progressions.DiatonicCycle | meatball/music/progressions.py:28-63 | fails exactly when the root's scale fails, with the same error; otherwise eight chords, the first, seventh and eighth equal |
| Progressions.DiatonicCycleOn | meatball/music/progressions.py:39-63 | over any seven-degree scale, eight non-empty chord symbols |
| Progressions.DiatonicCycleOnDegrees | meatball/music/progressions.py:39-61 | chords on degrees I, IV, III, VI, II, V, I, I with qualities maj7, maj7, m7, m7, m7, 7, maj7, maj7 |
| Progressions.DiatonicCycleShape | meatball/music/progressions.py:37-61 | by pitch class above the root: 0 maj7, 5 maj7, 4 m7, 9 m7, 2 m7, 7 dominant 7, then 0 maj7 twice |
| Progressions.CycleEndsWithTwoFiveOne | meatball/music/progressions.py:28-63 | the cycle exists exactly when the II-V-I does, and its last four chords are the II-V-I of the same key |
| Progressions.TwoFiveOneOnTestScales | tests/music/test_progressions.py:9-22 | the II-V-I over the degrees of C is Dm7 G7 Cmaj7 Cmaj7, and over those of F it is Gm7 C7 Fmaj7 Fmaj7 |
| Progressions.TwoFiveOneOfC | tests/music/test_progressions.py:9-14 | the II-V-I of C is Dm7 G7 Cmaj7 Cmaj7 |
| Progressions.TwoFiveOneOfF | tests/music/test_progressions.py:17-22 | the II-V-I of F is Gm7 C7 Fmaj7 Fmaj7 |
| Progressions.DiatonicCycleOfC | tests/music/test_progressions.py:27-36 | the cycle of C is Cmaj7 Fmaj7 Em7 Am7 Dm7 G7 Cmaj7 Cmaj7 |
| Sequence.ModeOf | meatball/music/sequence.py:30-48 | "II-V-I" and "Diatonic Cycle" select the two pattern modes, each if and only if; every other name selects random chords |
| Sequence.Choice | meatball/music/sequence.py:51-52 | `random.choice`: IndexError exactly on an empty list; otherwise an element of the list |
| Sequence.Pattern | meatball/music/sequence.py:33 | a pattern mode's progression exists exactly for roots in the flat table; on failure it raises ValueError for the root; otherwise it has 4 or 8 chords |
| Sequence.BlockRoot | meatball/music/sequence.py:32 | the root drawn for block j (`random.choice(selected_notes)` in either pattern branch, also line 41) is one of the selected roots |
| Sequence.Blocks | meatball/music/sequence.py:31-34 | the draw, generate and extend steps of either pattern loop (also lines 40-43) before the cut; a failure needs at least one block, and a successful non-empty run needs roots to draw |
| Sequence.BlocksLength | meatball/music/sequence.py:30-35 | count successful progressions of b chords each hold count × b chords |
| Sequence.CutBlocks | meatball/music/sequence.py:30-37 | a successful pattern display has exactly max(n, 0) chords |
| Sequence.PatternDisplay | meatball/music/sequence.py:30-46 | the display of the two pattern branches: on success exactly max(n, 0) chords |
| Sequence.BuildPatternDisplay | meatball/music/sequence.py:30-46 | the while loop (draw, extend, cut past n and stop) computes exactly the first max(n, 0) chords of the ⌈n/b⌉ whole progressions, or the first error |
| Sequence.FirstFailureDecides | meatball/music/sequence.py:30-37 | once a block fails, every longer run fails with that same error |
| Sequence.BlocksSucceed | meatball/music/sequence.py:30-37 | a run of blocks succeeds if and only if it is empty, or there are roots and every drawn root has a progression |
| Sequence.BlocksFailure | meatball/music/sequence.py:30-37 | a failed run fails with EmptyChoice when there are no roots; otherwise it fails with the error of the first drawn root that has no progression |
| Sequence.CutBlocksAt | meatball/music/sequence.py:30-37 | block j of the display is a prefix of the progression of the j-th drawn root, which is one of the given roots; only the last block can be cut short |
| Sequence.PatternDisplaySucceeds | meatball/music/sequence.py:30-46 | a pattern display succeeds if and only if n ≤ 0, or there are roots and every drawn root is in the flat table |
| Sequence.PatternDisplayFailure | meatball/music/sequence.py:30-46 | a failed pattern display needs n > 0 and fails with EmptyChoice, or with ValueError for a drawn root missing from the flat table |
| Sequence.PatternDisplayNonEmpty | meatball/music/sequence.py:30-46 | every chord symbol of a pattern display is non-empty, so its layout cannot fail |
| Sequence.RandomSymbol | meatball/music/sequence.py:50-53 | a random chord is some given root followed by the suffix of some given quality name that has a suffix |
| Sequence.RandomSymbols | meatball/music/sequence.py:50-54 | a successful run of count random chords has count chords |
| Sequence.BuildRandomDisplay | meatball/music/sequence.py:48-54 | the for loop over max(n, 0) measures computes exactly RandomSymbols, error cases included |
| Sequence.RandomFailureDecides | meatball/music/sequence.py:50-54 | a random chord that fails makes every longer run fail with its error |
| Sequence.RandomSymbolsAt | meatball/music/sequence.py:50-54 | chord i of a successful run is the i-th random chord |
| Sequence.RandomSymbolsSucceed | meatball/music/sequence.py:50-54 | a random run succeeds if and only if each of its chords does |
| Sequence.RandomSymbolSucceeds | meatball/music/sequence.py:51-53 | a random chord exists if and only if both lists are non-empty and the drawn quality name has a suffix; empty lists raise IndexError; an unknown name raises KeyError for that name |
| Sequence.BassRoot | meatball/music/sequence.py:59-61 | the bass root is a non-empty prefix of the symbol, at most two characters long |
| Sequence.EventAt | meatball/music/sequence.py:59-70 | the event of one symbol: a note of two or three characters ending in '2' whose rest is a prefix of the symbol, at time i × measure, lasting 0.95 × measure, on the bass instrument |
| Sequence.Layout | meatball/music/sequence.py:56-70 | fails with IndexError exactly when some symbol is empty; otherwise one event per symbol |
| Sequence.LayoutEvents | meatball/music/sequence.py:56-70 | the layout loop computes exactly Layout |
| Sequence.LayoutAt | meatball/music/sequence.py:64-70 | event i is the bass root of symbol i in octave 2, at time i × measure, lasting 0.95 × measure, on the bass instrument |
| Sequence.EventsDoNotOverlap | meatball/music/sequence.py:66-68 | with a positive measure length, events start at 0, one measure apart, and each ends before the next begins |
| Sequence.BassRootOfSymbol | meatball/music/sequence.py:59-61 | for a table name followed by a quality suffix, the extracted bass root is exactly that name |
| Sequence.BassPlaysChordRoot | meatball/music/sequence.py:59-64 | the bass note of a chord on a pitch class sounds that pitch class |
| Sequence.Display | meatball/music/sequence.py:30-54 | a successful display has exactly max(n, 0) chords in every mode |
| Sequence.ChordSequence | meatball/music/sequence.py:8-72 | a successful generation returns two aligned lists, each of max(n, 0) elements |
| Sequence.GenerateChordSequence | meatball/music/sequence.py:8-72 | the imperative body (branch on the type, build the display, lay it out) computes exactly ChordSequence |
| Sequence.ChordSequenceEvents | meatball/music/sequence.py:56-72 | event i of a generated sequence is the event of display symbol i at measure i |
| Sequence.NoRootsFails | meatball/music/sequence.py:32-51 | with no roots and a positive count, every mode raises IndexError from the empty choice |
| Sequence.NoChordTypesFails | meatball/music/sequence.py:52 | in random mode, roots without chord types raise IndexError |
| Sequence.UnknownChordTypeFails | meatball/music/sequence.py:53 | in random mode, a drawn quality name without a suffix raises KeyError for that name once the chords before it were built |
| Sequence.SelectionFromTablesSucceeds | meatball/music/sequence.py:8-72 | roots from the flat table never fail, whatever the mode and the draws; in random mode this also needs quality names from the chord-type table, while the pattern modes ignore the quality names, even an empty list |
| Sequence.RandomSessionExample | tests/music/test_sequence.py:6-38 | eight chords over C, F, G (Major or Minor) with two-second measures: eight events at 2i seconds lasting 1.9, each chord a root alone or plus "m", each bass note that root in octave 2 |
| Sequence.GenerateMetronomeSequence | meatball/music/sequence.py:74-95 | max(measures × beats, 0) clicks, click i at i × beat, strictly increasing when the beat is positive |

## Left out

- Randomness: Python's generator and its uniform distribution are not modelled. Every draw is an arbitrary natural number from the `draws` parameter, and the properties hold for all of them.
- Floating point: times and durations are exact `real`s. IEEE rounding of `i * seconds_per_measure` and `seconds_per_measure * 0.95` is not modelled.
- Event dictionaries: each dictionary is a `NoteEvent` datatype with the same four fields.
- The two pattern branches of `generate_chord_sequence` are one loop, `BuildPatternDisplay`, parameterised by the progression generator and its length. `GenerateChordSequence` calls it with the II-V-I generator and 4, or with the cycle generator and 8.
- Sequence.GenerateMetronomeSequence: the metronome returns bare click times, with no accent on the first beat of a measure. The test at tests/music/test_sequence.py:55-63 expects dictionaries with G5/E5 accent notes, which the code does not produce; the model follows the code.
- Input validation: the code does not reject a non-positive chord count or measure length. A count of zero or less yields empty lists, and the model does the same.
- Empty selections: the code does not check for empty note or chord-type selections. They surface as IndexError from `random.choice`, modelled as `EmptyChoice`.
- Chord names in random mode: the code appends the suffix to the chosen note name itself, not to its display name, and the model does the same.
- Type names: the code's names are "II-V-I" and "Diatonic Cycle", and any other string means random mode.
- The user interface (`streamlit_app.py`, `meatball/ui/`), the browser audio players (`player.js`) and packaging (`setup.py`) are not part of this model. The interface offers only the flat-table names as roots (streamlit_app.py:74-82) and only the keys of the chord-type table (streamlit_app.py:85-88); `Sequence.SelectionFromTablesSucceeds` states that a non-empty selection of such roots (and, in random mode, a non-empty selection of chord types) never fails. The interface also lets every box be unticked; an empty selection then raises IndexError, as `Sequence.NoRootsFails` and `Sequence.NoChordTypesFails` state.
