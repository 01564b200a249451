# Harmonic engine of wabisonorance, in Dafny

This project models the harmonic-theory engine of the wabisonorance synthesizer plugin,
`source/NotesKeys.hpp` and `source/NotesKeys.cpp`, and proves properties of the model.
The engine has six parts.

- **Pitches.** The twelve pitch classes (`note`) and pitches (`note_info`, a pitch class in an
  octave). A pitch converts to and from its MIDI note number (`to_midi`, `from_midi`).
  Equality, ordering, `get_interval` and `operator+` all go through that note number.
- **Chord types.** The 93 chord types (`chord`) and their semitone offsets from the root
  (`get_intervals(chord)`).
- **Inversions.** The five inversions (`inversion`) and the four hand-written rotation tables
  `invert_dyad` .. `invert_quint`. `invert` dispatches to them on the chord size, and
  `can_invert` says whether a chord type has enough notes for an inversion.
- **Scales and keys.** The 16 scales (`scale`), their offsets (`get_intervals(scale)`,
  `get_scale_size`) and the pitch-class queries of `key_info`.
- **Chords.** `chord_info` (root, chord type, inversion): the notes it plays
  (`get_midi_notes`, `get_notes`), `has`, `has_same_notes`, equality, the three-level
  `operator<`, and the key test `chord_fits_key`.
- **The chord catalog.** A global map from each root C0 .. B7 to every (chord type,
  inversion) on it. `init_chords` builds it once. `get_chords(root, include_inversions)`
  and `get_chords(key, include_inversions)` query it.

Files, one module each:

| file | module | models |
|---|---|---|
| results.dfy | `Results` | the errors the engine throws (`Result`/`Error`) |
| notes.dfy | `Notes` | `note`, `note_info`, `get_notes`, `operator+` |
| sequences.dfy | `Sequences` | strictly ascending offset lists |
| chord_types.dfy | `ChordTypes` | `chord`, `get_intervals(chord)`, `get_chords()` |
| inversions.dfy | `Inversions` | `inversion`, `get_inversions`, `invert_*`, `invert`, `can_invert` |
| scales.dfy | `Scales` | `scale`, `get_intervals(scale)`, `get_scale_size`, `key_info` pitch queries |
| chords.dfy | `Chords` | `chord_info`, `key_info` chord queries, `chord_fits_key` |
| catalog.dfy | `Catalog` | the `chords` map, `init_chords`, both `get_chords` overloads |

Modelling choices:

- Pure code is modelled as functions: the tables, `to_midi`, the comparisons and `invert`.
  Code that builds vectors in loops is modelled as methods with loops, each proved equal to
  a specification function: `get_notes`, `get_chords()`, `get_inversions`,
  `get_midi_notes`, `chord_fits_key`, `init_chords` and both `get_chords` queries.
- Pitch classes, chord types and inversions are integer subset types. The C++ code casts
  loop indices to them. Scales are a datatype.
- The catalog is the class `Catalog.ChordCatalog`. It has a map field keyed by note number,
  because the `std::map` compares `note_info` keys by note number. It also has the
  `initialized` flag that stands for the `std::once_flag`.
- `std::map` iterates its keys in ascending order. The model does the same: the key query
  repeatedly visits the least key it has not yet visited.
- `invert` throws for a chord of more than five offsets; the model returns
  `Err(InvalidChordSize(n))`. `chords.at(root)` throws for a root outside the catalog; the
  model returns `Err(CatalogMiss(key))`.

Two details of the code that are easy to misread:

- `init_chords` does not prune with `can_invert`. It stores all five inversions of every chord
  type, 465 entries per root (`source/NotesKeys.cpp:19-29`). An inversion that a chord type
  does not have wraps around modulo the chord size. It therefore repeats the notes of a
  smaller inversion (`Catalog.UnprunedInversionRepeats`).
- The blues scale has six offsets, so scales have five, six or seven notes
  (`source/NotesKeys.hpp:794`).

## Model

| member | source | states |
|---|---|---|
| Notes.ToMidi | source/NotesKeys.hpp:94-96 | `to_midi`; its meaning is stated by `ToMidiFromMidi`, `FromMidiToMidi`, `ToMidiNonNegative` and `ToMidiInjective` |
| Notes.FromMidi | source/NotesKeys.hpp:98-101 | a non-negative note number gives a pitch in octave -1 or above |
| Notes.ToMidiFromMidi | source/NotesKeys.hpp:94-101 | `to_midi(from_midi(m)) == m` for every note number `m >= 0` |
| Notes.FromMidiToMidi | source/NotesKeys.hpp:94-101 | `from_midi(to_midi(p)) == p` for every pitch in octave -1 or above |
| Notes.ToMidiNonNegative | source/NotesKeys.hpp:94-96 | a pitch's note number is non-negative exactly when its octave is -1 or above |
| Notes.ToMidiInjective | source/NotesKeys.hpp:94-96 | two pitches with the same note number are the same pitch |
| Notes.Equal | source/NotesKeys.hpp:108-110 | `note_info ==` compares note numbers; see `EqualIsStructural` |
| Notes.Less | source/NotesKeys.hpp:116-118 | `note_info <` compares note numbers; see `LessIsOctaveThenPitchClass` and `LessIsStrictTotalOrder` |
| Notes.Interval | source/NotesKeys.hpp:129-131 | `get_interval` is the signed note-number distance; see `Add` and `IntervalRoundTrip` |
| Notes.EqualIsStructural | source/NotesKeys.hpp:108-110 | `note_info ==` (same note number) holds exactly when pitch class and octave are equal |
| Notes.LessIsOctaveThenPitchClass | source/NotesKeys.hpp:116-118 | `note_info <` orders by octave, then by pitch class |
| Notes.LessIsStrictTotalOrder | source/NotesKeys.hpp:108-118 | `note_info <` is irreflexive, asymmetric and transitive, and pitches it cannot order are `==` |
| Notes.Add | source/NotesKeys.hpp:138-140 | `n + i` has note number `to_midi(n) + i`, so `n.get_interval(n + i) == i` |
| Notes.IntervalRoundTrip | source/NotesKeys.hpp:129-140 | `a.get_interval(b) == -b.get_interval(a)` and `a + a.get_interval(b) == b` |
| Notes.GetNotes | source/NotesKeys.hpp:72-78 | the twelve pitch classes in enum order |
| ChordTypes.Intervals | source/NotesKeys.hpp:353-451 | each of the 93 chord types has 1 to 5 offsets by family, starting at 0, strictly ascending, the highest at most 24 |
| ChordTypes.IntervalsShape | source/NotesKeys.hpp:353-451 | every offset of every chord type lies in 0 .. 24, and the offsets are pairwise ordered |
| ChordTypes.GetChords | source/NotesKeys.hpp:245-251 | the 93 chord types in enum order |
| Inversions.GetInversions | source/NotesKeys.hpp:463-469 | the five inversions in enum order |
| Inversions.InvertDyad | source/NotesKeys.hpp:483-490 | the `invert_dyad` table; see `DyadIsRotation` |
| Inversions.InvertTriad | source/NotesKeys.hpp:492-500 | the `invert_triad` table; see `TriadIsRotation` |
| Inversions.InvertQuad | source/NotesKeys.hpp:502-511 | the `invert_quad` table; see `QuadIsRotation` |
| Inversions.InvertQuint | source/NotesKeys.hpp:513-523 | the `invert_quint` table; see `QuintIsRotation` |
| Inversions.Invert | source/NotesKeys.hpp:525-535 | fails exactly for more than five offsets, reporting the size; otherwise keeps the length; sizes 0 and 1 and root position come back unchanged |
| Inversions.RotatedSplit | source/NotesKeys.hpp:483-523 | the closed-form rotation by `m` is the tail from `m` followed by the head raised an octave |
| Inversions.DyadIsRotation | source/NotesKeys.hpp:483-490 | `invert_dyad` is the rotation by `inv mod 2` |
| Inversions.TriadIsRotation | source/NotesKeys.hpp:492-500 | `invert_triad` is the rotation by `inv mod 3` |
| Inversions.QuadIsRotation | source/NotesKeys.hpp:502-511 | `invert_quad` is the rotation by `inv mod 4` |
| Inversions.QuintIsRotation | source/NotesKeys.hpp:513-523 | `invert_quint` is the rotation by `inv mod 5` |
| Inversions.InvertIsRotation | source/NotesKeys.hpp:525-535 | for sizes 2 .. 5, `invert(x, inv)[j] == x[(j+m) % k] + 12 * ((j+m) / k)` with `m = inv mod k` |
| Inversions.InvertKeepsPitchClasses | source/NotesKeys.hpp:525-535 | the multiset of offsets mod 12 is the same before and after `invert` |
| Inversions.RotatedKeepsPitchClasses | source/NotesKeys.hpp:483-523 | every rotation keeps the multiset of offsets mod 12 |
| Inversions.InvertFirst | source/NotesKeys.hpp:525-535 | the first offset after `invert` is `x[inv mod k]` |
| Inversions.InvertBounds | source/NotesKeys.hpp:525-535 | offsets in `lo .. hi` stay in `lo .. hi + 12` after `invert` |
| Inversions.InvertWraps | source/NotesKeys.hpp:525-535 | inversion `inv` of a list of size `k` is inversion `inv mod k`, and `k > inv` exactly when it does not wrap |
| Inversions.CanInvert | source/NotesKeys.hpp:537-540 | `can_invert`: more offsets than the inversion ordinal; see `CanInvertMeansNoWrap` |
| Inversions.CanInvertMeansNoWrap | source/NotesKeys.hpp:537-540 | `can_invert` holds exactly when the inversion does not wrap, and then `x[inv]` comes first |
| Inversions.InvertPlaysRootClass | source/NotesKeys.hpp:525-535 | a list that starts on a whole octave still contains a whole octave after `invert` |
| Scales.ScaleIntervals | source/NotesKeys.hpp:777-798 | every scale has 5 to 7 offsets, starting at 0, strictly ascending, below 12 |
| Scales.ScaleSize | source/NotesKeys.hpp:800-802 | five notes exactly for the five pentatonic scales, six exactly for blues, otherwise seven |
| Scales.IntervalsWithinOctave | source/NotesKeys.hpp:777-798 | every scale offset lies in 0 .. 11 and no two are equal |
| Scales.KeyNotes | source/NotesKeys.hpp:808-818 | `key_notes(octave)` has one pitch per scale offset |
| Scales.KeyNotesPitchClasses | source/NotesKeys.hpp:808-827 | at any octave -1 or above, the key's pitch classes are the tonic plus each offset, mod 12 |
| Scales.KeyPitchClasses | source/NotesKeys.hpp:820-827 | `notes()`: the key's pitch classes at octave 4; see `KeyPitchClassAt`, `TonicInKey` and `KeyPitchClassesDistinct` |
| Scales.KeyPitchClassAt | source/NotesKeys.hpp:820-827 | pitch class `j` of `notes()` is the tonic plus offset `j`, mod 12 |
| Scales.ContainsPitchClass | source/NotesKeys.hpp:847-850 | `contains_note(note)`; see `TonicInKey` and `ContainsNoteIgnoresOctave` |
| Scales.ContainsNote | source/NotesKeys.hpp:842-845 | `contains_note(note_info)`, looked up at the pitch's own octave; see `ContainsNoteIgnoresOctave` |
| Scales.ContainsNoteIgnoresOctave | source/NotesKeys.hpp:842-850 | `contains_note(note_info{n, o})` equals `contains_note(n)` for every octave `o >= -1` |
| Scales.TonicInKey | source/NotesKeys.hpp:820-827 | the tonic is always in its key |
| Scales.KeyPitchClassesDistinct | source/NotesKeys.hpp:820-827 | a key's pitch classes are pairwise distinct |
| Scales.AMajorPitchClasses | source/NotesKeys.hpp:820-827 | A major is A, B, C#, D, E, F#, G# |
| Chords.Voicing | source/NotesKeys.hpp:549-550 | `invert` of a chord-type table never fails, keeps the size, and every voiced offset lies in 0 .. 36 |
| Chords.MidiNotes | source/NotesKeys.hpp:547-556 | one note per offset, each between the root's note number and three octaves above |
| Chords.GetMidiNotes | source/NotesKeys.hpp:547-556 | the loop pushes the root's note number plus each inverted offset, in order |
| Chords.ChordNotes | source/NotesKeys.hpp:571-580 | `get_notes` has one pitch per offset |
| Chords.ChordNotesAreMidiNotes | source/NotesKeys.hpp:571-580 | each pitch of `get_notes` has the note number `get_midi_notes` gives, and that number's pitch class |
| Chords.HasPitchClass | source/NotesKeys.hpp:582-587 | `has(note)`; see `PlaysRootPitchClass` |
| Chords.HasNote | source/NotesKeys.hpp:589-592 | `has(note_info)`; see `HasNoteIffMidi` and `RootPositionPlaysRoot` |
| Chords.HasSameNotes | source/NotesKeys.hpp:607-611 | `has_same_notes` as multiset equality of the played note numbers; see `SameNotesDifferentChords` |
| Chords.IsEqual | source/NotesKeys.hpp:613-619 | `is_equal` and `operator==`; see `IsEqualIsStructural` |
| Chords.HasNoteIffMidi | source/NotesKeys.hpp:589-592 | `has(note_info)` holds exactly when the pitch's note number is played |
| Chords.PlaysRootPitchClass | source/NotesKeys.hpp:582-587 | every chord, in every inversion, plays its root's pitch class |
| Chords.FirstNote | source/NotesKeys.hpp:547-556 | the first played note is the root plus offset `inv mod k` of the chord type |
| Chords.FirstNoteNotLowest | source/NotesKeys.hpp:547-556 | the first note need not be the lowest: C4 major add 9 in third inversion, which `can_invert` allows, plays 74 72 76 79 |
| Chords.RootPositionPlaysRoot | source/NotesKeys.hpp:547-556 | a root-position chord starts at its root and `has` the root |
| Chords.OctaveFourStaysInMidiRange | source/NotesKeys.hpp:547-556 | with a root in octave 4 every played note is in 0 .. 127 |
| Chords.HighRootLeavesMidiRange | source/NotesKeys.hpp:547-556 | B7 double octave, first inversion, plays 131 and 119 |
| Chords.CMajorVoicings | source/NotesKeys.hpp:547-556 | C4 major plays 60 64 67, 64 67 72 and 67 72 76 in its three inversions |
| Chords.IsEqualIsStructural | source/NotesKeys.hpp:613-619 | `chord_info ==` holds exactly when root, chord type and inversion are equal |
| Chords.SameNotesDifferentChords | source/NotesKeys.hpp:607-615 | min7(b5) and half-diminished 7th on one root have the same notes but are not equal |
| Chords.LexLess | source/NotesKeys.hpp:628 | `std::lexicographical_compare` on note-number lists; see `LexLessAsymmetric` and `LexLessTotal` |
| Chords.LexLessAsymmetric | source/NotesKeys.hpp:628 | `lexicographical_compare` never holds both ways |
| Chords.LexLessTotal | source/NotesKeys.hpp:628 | `lexicographical_compare` orders any two different note lists |
| Chords.Less | source/NotesKeys.hpp:621-634 | the three-level `operator<`; see `LessAsymmetric`, `LessTrichotomy`, `LessByRoot` and `LessNotTransitive` |
| Chords.LessAsymmetric | source/NotesKeys.hpp:621-634 | `chord_info <` is asymmetric and irreflexive |
| Chords.LessTrichotomy | source/NotesKeys.hpp:621-634 | `chord_info <` orders any two different chords one way or the other |
| Chords.LessByRoot | source/NotesKeys.hpp:621-624 | chords on different roots are ordered by their roots' note numbers |
| Chords.LessNotTransitive | source/NotesKeys.hpp:621-634 | `operator<` is cyclic on C4: b10 inv 1 < sus2 add 11 inv 3 < sus4 add 9 inv 3 < b10 inv 1, all inversions `can_invert` allows |
| Chords.ContainsAllChordNotes | source/NotesKeys.hpp:829-835 | `contains_all_chord_notes`; see `FitsIffAllChordNotes` |
| Chords.ContainsChordRoot | source/NotesKeys.hpp:837-840 | `contains_chord_root`; see `FitsIffAllChordNotes` |
| Chords.Fits | source/NotesKeys.hpp:866-882 | what `chord_fits_key` decides; see `ChordFitsKey`, `FitsIffAllChordNotes` and `FitsIffPitchClassesInScale` |
| Chords.ChordFitsKey | source/NotesKeys.hpp:866-882 | the loop with early returns is true exactly when the root's pitch class and every played pitch class are in the key |
| Chords.FitsIffAllChordNotes | source/NotesKeys.hpp:829-835 | `chord_fits_key` equals `contains_all_chord_notes`, because the root's class is always played |
| Chords.FitsIffPitchClassesInScale | source/NotesKeys.hpp:866-882 | a chord fits exactly when each played note, mod 12, is the tonic plus some scale offset, mod 12 |
| Chords.AMajorInAMajor | source/NotesKeys.hpp:866-882 | A major fits the key of A major |
| Chords.ASharpMajorNotInAMajor | source/NotesKeys.hpp:866-882 | A# major does not fit the key of A major |
| Catalog.CatalogBelowContents | source/NotesKeys.cpp:14-31 | after filling the roots below a note number, exactly those keys are present, each with its complete bucket |
| Catalog.RootPositions | source/NotesKeys.cpp:42-48 | the root-position filter keeps exactly the root-position chords and never grows the list |
| Catalog.KeyMatches | source/NotesKeys.cpp:53-62 | the key filter never grows the list |
| Catalog.KeyMatchesMembers | source/NotesKeys.cpp:53-62 | the key filter keeps exactly the chords that fit the key, and are in root position unless inversions are included |
| Catalog.KeyMatchesAppend | source/NotesKeys.cpp:53-62 | the key filter maps a concatenation to the concatenation of the filtered parts |
| Catalog.AscendingKeys | source/NotesKeys.cpp:10 | the `std::map` key order lists every key once |
| Catalog.AscendingKeysAscending | source/NotesKeys.cpp:10 | the `std::map` key order is strictly ascending |
| Catalog.AscendingKeysLeast | source/NotesKeys.cpp:53 | `std::map` iteration starts at the least key |
| Catalog.ChordCatalog.constructor | source/NotesKeys.cpp:9-10 | at program start the map is empty and not yet initialized |
| Catalog.ChordCatalog.InitChords | source/NotesKeys.cpp:12-34 | afterwards the catalog is complete; a second call changes nothing |
| Catalog.ChordCatalog.FillCatalog | source/NotesKeys.cpp:14-31 | the octave and pitch-class loops leave the complete catalog |
| Catalog.ChordCatalog.AddRoot | source/NotesKeys.cpp:16-30 | one root's pass sets its key to a bucket of every chord type in every inversion, and changes no other key |
| Catalog.ChordCatalog.ChordsForRoot | source/NotesKeys.cpp:36-49 | builds the catalog, then returns the root's whole bucket or its root-position subsequence; a root outside C0 .. B7 is an error |
| Catalog.ChordCatalog.KeepRootPositions | source/NotesKeys.cpp:42-48 | the loop returns the root-position subsequence of the bucket |
| Catalog.ChordCatalog.ChordsInKey | source/NotesKeys.cpp:51-65 | returns the filtered catalog entries in ascending key order; before `init_chords` returns nothing; changes nothing |
| Catalog.ChordCatalog.AppendMatches | source/NotesKeys.cpp:54-62 | the inner loop appends the bucket's chords that pass the filter, in order |
| Catalog.FullCatalogShape | source/NotesKeys.cpp:14-31 | the built catalog has the 96 keys 12 .. 107; each bucket has 465 chords whose root is the key |
| Catalog.RootKeyIffOctave | source/NotesKeys.cpp:14-16 | a root is in the catalog exactly when its octave is 0 .. 7 |
| Catalog.BucketLayout | source/NotesKeys.cpp:19-29 | chord type `c` in inversion `v` sits at position `5c + v`; the bucket holds exactly the chords on its root |
| Catalog.UnprunedInversionRepeats | source/NotesKeys.cpp:22-28 | an inversion that `can_invert` rejects plays the same notes as a smaller inversion |
| Catalog.RootPositionsOfPrefix | source/NotesKeys.cpp:42-48 | the root-position chords of a bucket's first `n` chord types are those types, in order |
| Catalog.RootQueryWithoutInversions | source/NotesKeys.cpp:36-49 | `get_chords(root, false)` is the 93 chord types in root position, in enum order |
| Catalog.RootQueryPlaysRoot | source/NotesKeys.cpp:36-49 | every chord of `get_chords(root, false)` is on that root and plays the root's note number |
| Catalog.KeyQueryWithoutInversions | source/NotesKeys.cpp:51-65 | the key query without inversions is the root-position subsequence of the query with them |
| Catalog.AscendingRange | source/NotesKeys.cpp:14-16 | the catalog keys in ascending order are 12, 13, .., 107 |
| Catalog.ConcatAscending | source/NotesKeys.cpp:53-54 | buckets visited in ascending key order give chords in ascending root order |
| Catalog.FullCatalogEntriesAscending | source/NotesKeys.cpp:53-54 | the built catalog, iterated in key order, lists its chords in ascending root order |
| Catalog.KeyMatchesKeepsOrder | source/NotesKeys.cpp:53-62 | the key filter keeps ascending root order |
| Catalog.KeyQueryRootsAscending | source/NotesKeys.cpp:51-65 | the key query lists its chords in ascending root order |
| Catalog.ConcatContains | source/NotesKeys.cpp:53-54 | a chord of a visited bucket is among the visited entries |
| Catalog.KeyQueryComplete | source/NotesKeys.cpp:51-65 | once built, the key query misses no chord on a root C0 .. B7 that passes the filter |

## Left out

- `note_info::get_frequency`: floating-point `pow`.
- `chord_info::randomize`: it depends on `rand()`. It also takes `rand() % 0` for the unison.
- `get_interval(note, int)`: it always throws "not yet implemented".
- `get_perfect_interval`, `get_AD_interval` and every `to_string`: string renderers with no logic beyond table lookup.
- `get_chords(note_info, key_info, bool)`: declared in `source/NotesKeys.hpp:885`, but no definition of it is part of this model.
- `std::call_once` thread safety: the once-flag is a sequential `initialized` flag. Concurrent first calls are not modelled.
- Negative note numbers: C++ truncating `%` and `/` make `from_midi` of a negative number an invalid `note`. `FromMidi` requires a non-negative note number, and the chord operations require a root in octave -1 or above.
- Pitch-class aliases (`Db` = `Csharp`, ...): they share values with the sharps and are not declared separately.
- 32-bit `int` overflow: `to_midi` computes `12 * (octave + 1)` in a C++ `int`, while the model's integers are unbounded. `Notes.ToMidiInjective` and the round trips therefore hold in the model even for octaves so extreme that the C++ arithmetic would overflow. Every note number the catalog produces is at most 143.
- Chords.Less: `chord_info::operator<` is not transitive. It is cyclic, so it is not a strict weak order (`Chords.LessNotTransitive`). Irreflexivity, asymmetry, trichotomy and ordering by root are proved instead.
- Catalog.ChordCatalog.ChordsForRoot: a root that is not in the catalog yields an error value where the C++ code throws `std::out_of_range`.
- Inversions.Invert: the `default:` branches of `invert_dyad` .. `invert_quint` throw, but they cannot be reached, because the inversion is reduced modulo the chord size first. The model has no such branch.
- MIDI range: chords with roots above octave 4 can play notes above 127 (`Chords.HighRootLeavesMidiRange`). Only the octave-4 bound is proved.
- The `chord` and `scale` `__COUNT` sentinels and their `throw` branches: the subset type and the datatype have no such value.
