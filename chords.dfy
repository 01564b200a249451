/** `chord_info` (root, chord type, inversion): the notes it plays, its equality and
    ordering, and the chord queries of `key_info` with `chord_fits_key`. */
module Chords {
  import opened Notes
  import opened ChordTypes
  import opened Inversions
  import opened Scales

  /** `chord_info`; a default-constructed one is C4 major in root position. */
  datatype ChordInfo = ChordInfo(root: NoteInfo, chordType: Chord, inv: Inversion)

  const DefaultChord: ChordInfo := ChordInfo(DefaultNote, Maj, RootPosition)

  /** The chord type's offsets after `invert`. The table never has more than five
      offsets, so `invert` cannot fail here; every voiced offset lies in 0 .. 36. */
  function Voicing(c: ChordInfo): (r: seq<int>)
    ensures |r| == |Intervals(c.chordType)|
    ensures forall j :: 0 <= j < |r| ==> 0 <= r[j] <= 36
  {
    IntervalsShape(c.chordType);
    InvertBounds(Intervals(c.chordType), c.inv, 0, 24);
    Invert(Intervals(c.chordType), c.inv).value
  }

  /** The note numbers a chord plays: the root's note number plus each voiced offset,
      so one note per offset, none below the root and none more than three octaves above it. */
  function MidiNotes(c: ChordInfo): (r: seq<int>)
    requires c.root.octave >= -1
    ensures |r| == |Intervals(c.chordType)|
    ensures forall j :: 0 <= j < |r| ==> ToMidi(c.root) <= r[j] <= ToMidi(c.root) + 36
  {
    var v := Voicing(c);
    seq(|v|, j requires 0 <= j < |v| => ToMidi(c.root) + v[j])
  }

  /** `chord_info::get_midi_notes`: pushes `(root + interval).to_midi()` for each
      inverted interval. */
  method GetMidiNotes(c: ChordInfo) returns (notes: seq<int>)
    requires c.root.octave >= -1
    ensures notes == MidiNotes(c)
  {
    var intervals := Intervals(c.chordType);
    intervals := Invert(intervals, c.inv).value;
    assert intervals == Voicing(c);
    notes := [];
    var i := 0;
    while i < |intervals|
      invariant 0 <= i <= |intervals|
      invariant |notes| == i
      invariant forall j :: 0 <= j < i ==> notes[j] == ToMidi(c.root) + intervals[j]
    {
      var n := Add(c.root, intervals[i]);
      notes := notes + [ToMidi(n)];
      i := i + 1;
    }
  }

  /** `chord_info::get_notes`: the played notes as pitches. */
  function ChordNotes(c: ChordInfo): (r: seq<NoteInfo>)
    requires c.root.octave >= -1
    ensures |r| == |Intervals(c.chordType)|
  {
    var m := MidiNotes(c);
    seq(|m|, j requires 0 <= j < |m| => FromMidi(m[j]))
  }

  /** `chord_info::has(note)`: some played note has pitch class `n`. */
  predicate HasPitchClass(c: ChordInfo, n: PitchClass)
    requires c.root.octave >= -1
  {
    n in PitchClassesOf(ChordNotes(c))
  }

  /** `chord_info::has(note_info)`: some played note equals `p` (same note number). */
  predicate HasNote(c: ChordInfo, p: NoteInfo)
    requires c.root.octave >= -1
  {
    exists j :: 0 <= j < |ChordNotes(c)| && Equal(ChordNotes(c)[j], p)
  }

  /** `chord_info::has_same_notes`: the two note-number lists are permutations of each other. */
  predicate HasSameNotes(a: ChordInfo, b: ChordInfo)
    requires a.root.octave >= -1 && b.root.octave >= -1
  {
    multiset(MidiNotes(a)) == multiset(MidiNotes(b))
  }

  /** `chord_info::is_equal` and `operator==`: equal roots (by note number), chord types and inversions. */
  predicate IsEqual(a: ChordInfo, b: ChordInfo) {
    Equal(a.root, b.root) && a.chordType == b.chordType && a.inv == b.inv
  }

  /** `std::lexicographical_compare` on note-number lists. */
  predicate LexLess(a: seq<int>, b: seq<int>) {
    if |b| == 0 then false
    else if |a| == 0 then true
    else if a[0] != b[0] then a[0] < b[0]
    else LexLess(a[1..], b[1..])
  }

  /** `chord_info::operator<`: by root; for equal roots by the played notes when they
      are not a permutation of each other; then by chord type; then by inversion. */
  predicate Less(a: ChordInfo, b: ChordInfo)
    requires a.root.octave >= -1 && b.root.octave >= -1
  {
    if !Equal(a.root, b.root) then Notes.Less(a.root, b.root)
    else if !HasSameNotes(a, b) then LexLess(MidiNotes(a), MidiNotes(b))
    else if a.chordType != b.chordType then a.chordType < b.chordType
    else a.inv < b.inv
  }

  /** `key_info::contains_all_chord_notes`: every played pitch class is in the key. */
  predicate ContainsAllChordNotes(k: KeyInfo, c: ChordInfo)
    requires c.root.octave >= -1
  {
    forall j :: 0 <= j < |ChordNotes(c)| ==> ContainsPitchClass(k, ChordNotes(c)[j].n)
  }

  /** `key_info::contains_chord_root`: the root's pitch class is in the key. */
  predicate ContainsChordRoot(k: KeyInfo, c: ChordInfo) {
    ContainsPitchClass(k, c.root.n)
  }

  /** What `chord_fits_key` decides: the root's pitch class and every played pitch
      class are in the key. */
  predicate Fits(c: ChordInfo, k: KeyInfo)
    requires c.root.octave >= -1
  {
    ContainsChordRoot(k, c) && ContainsAllChordNotes(k, c)
  }

  /** `chord_fits_key`: reject when the root is outside the key, then reject at the
      first played note whose pitch class is outside the key. */
  method ChordFitsKey(c: ChordInfo, k: KeyInfo) returns (fits: bool)
    requires c.root.octave >= -1
    ensures fits == Fits(c, k)
  {
    if !ContainsPitchClass(k, c.root.n) {
      return false;
    }
    var chordNotes := ChordNotes(c);
    var i := 0;
    while i < |chordNotes|
      invariant 0 <= i <= |chordNotes|
      invariant forall j :: 0 <= j < i ==> ContainsPitchClass(k, chordNotes[j].n)
    {
      if !ContainsPitchClass(k, chordNotes[i].n) {
        return false;
      }
      i := i + 1;
    }
    return true;
  }

  /** Each played pitch has the note number `get_midi_notes` gives and that number's pitch class. */
  lemma ChordNotesAreMidiNotes(c: ChordInfo)
    requires c.root.octave >= -1
    ensures forall j :: 0 <= j < |ChordNotes(c)| ==>
      ToMidi(ChordNotes(c)[j]) == MidiNotes(c)[j] && ChordNotes(c)[j].n == MidiNotes(c)[j] % 12
  {
  }

  /** `has(note_info)` asks whether the pitch's note number is among the played note numbers. */
  lemma HasNoteIffMidi(c: ChordInfo, p: NoteInfo)
    requires c.root.octave >= -1
    ensures HasNote(c, p) <==> ToMidi(p) in MidiNotes(c)
  {
    ChordNotesAreMidiNotes(c);
    if ToMidi(p) in MidiNotes(c) {
      var j :| 0 <= j < |MidiNotes(c)| && MidiNotes(c)[j] == ToMidi(p);
      assert Equal(ChordNotes(c)[j], p);
    }
  }

  /** A pitch class raised by whole octaves keeps its class. */
  lemma OctavesAboveKeepClass(n: PitchClass, octaves: int, offset: int)
    requires offset % 12 == 0
    ensures (n + 12 * octaves + offset) % 12 == n
  {
    ModAddOctaves(n, octaves + offset / 12);
  }

  /** Every chord, in every inversion, plays its root's pitch class. */
  lemma PlaysRootPitchClass(c: ChordInfo)
    requires c.root.octave >= -1
    ensures HasPitchClass(c, c.root.n)
  {
    var x := Intervals(c.chordType);
    var j := InvertPlaysRootClass(x, c.inv);
    var v := Voicing(c);
    assert v[j] % 12 == 0;
    OctavesAboveKeepClass(c.root.n, c.root.octave + 1, v[j]);
    assert MidiNotes(c)[j] % 12 == c.root.n;
    ChordNotesAreMidiNotes(c);
    assert PitchClassesOf(ChordNotes(c))[j] == c.root.n;
  }

  /** The first note is the root plus the offset that `invert` moved to the front. */
  lemma FirstNote(c: ChordInfo)
    requires c.root.octave >= -1
    ensures MidiNotes(c)[0] == ToMidi(c.root) + Intervals(c.chordType)[c.inv % |Intervals(c.chordType)|]
  {
    InvertFirst(Intervals(c.chordType), c.inv);
  }

  /** A chord in root position starts at its root, so it plays the root's own note number. */
  lemma RootPositionPlaysRoot(c: ChordInfo)
    requires c.root.octave >= -1 && c.inv == RootPosition
    ensures MidiNotes(c)[0] == ToMidi(c.root)
    ensures HasNote(c, c.root)
  {
    HasNoteIffMidi(c, c.root);
  }

  /** With a root in octave 4 (the default octave) every played note is a valid MIDI note. */
  lemma OctaveFourStaysInMidiRange(c: ChordInfo)
    requires c.root.octave == 4
    ensures forall j :: 0 <= j < |MidiNotes(c)| ==> 0 <= MidiNotes(c)[j] <= 127
  {
  }

  /** Higher roots can leave the MIDI range: B7 with two octaves inverted plays 131. */
  lemma HighRootLeavesMidiRange()
    ensures MidiNotes(ChordInfo(NoteInfo(B, 7), DoubleOctave, FirstInversion)) == [131, 119]
  {
    var c := ChordInfo(NoteInfo(B, 7), DoubleOctave, FirstInversion);
    assert Voicing(c) == [24, 12];
  }

  /** The first note of an inversion need not be its lowest: C4 major add 9 in third
      inversion, which `can_invert` allows, starts on the ninth (74) while the raised
      root (72) sounds below it. */
  lemma FirstNoteNotLowest()
    ensures CanInvert(MajAdd9, ThirdInversion)
    ensures MidiNotes(ChordInfo(NoteInfo(C, 4), MajAdd9, ThirdInversion)) == [74, 72, 76, 79]
  {
    assert Voicing(ChordInfo(NoteInfo(C, 4), MajAdd9, ThirdInversion)) == [14, 12, 16, 19];
  }

  /** C4 major in root position, first and second inversion. */
  lemma CMajorVoicings()
    ensures MidiNotes(ChordInfo(NoteInfo(C, 4), Maj, RootPosition)) == [60, 64, 67]
    ensures MidiNotes(ChordInfo(NoteInfo(C, 4), Maj, FirstInversion)) == [64, 67, 72]
    ensures MidiNotes(ChordInfo(NoteInfo(C, 4), Maj, SecondInversion)) == [67, 72, 76]
  {
    assert Voicing(ChordInfo(NoteInfo(C, 4), Maj, FirstInversion)) == [4, 7, 12];
    assert Voicing(ChordInfo(NoteInfo(C, 4), Maj, SecondInversion)) == [7, 12, 16];
  }

  /** Chord equality is structural equality of the three fields. */
  lemma IsEqualIsStructural(a: ChordInfo, b: ChordInfo)
    ensures IsEqual(a, b) <==> a == b
  {
    EqualIsStructural(a.root, b.root);
  }

  /** Sounding the same notes does not make two chords equal: min7(b5) and half-diminished 7th. */
  lemma SameNotesDifferentChords(root: NoteInfo)
    requires root.octave >= -1
    ensures HasSameNotes(ChordInfo(root, Min7b5, RootPosition), ChordInfo(root, HalfDim7, RootPosition))
    ensures !IsEqual(ChordInfo(root, Min7b5, RootPosition), ChordInfo(root, HalfDim7, RootPosition))
  {
  }

  /** Lexicographic order on note-number lists is a strict order ... */
  lemma {:induction false} LexLessAsymmetric(a: seq<int>, b: seq<int>)
    ensures LexLess(a, b) ==> !LexLess(b, a)
    decreases |a|
  {
    if |a| > 0 && |b| > 0 && a[0] == b[0] {
      LexLessAsymmetric(a[1..], b[1..]);
    }
  }

  /** ... that orders any two different lists. */
  lemma {:induction false} LexLessTotal(a: seq<int>, b: seq<int>)
    ensures a == b || LexLess(a, b) || LexLess(b, a)
    decreases |a|
  {
    if |a| > 0 && |b| > 0 && a[0] == b[0] {
      LexLessTotal(a[1..], b[1..]);
      if a[1..] == b[1..] {
        assert a == [a[0]] + a[1..] && b == [b[0]] + b[1..];
      }
    }
  }

  /** `operator<` on chords is asymmetric, hence irreflexive. */
  lemma LessAsymmetric(a: ChordInfo, b: ChordInfo)
    requires a.root.octave >= -1 && b.root.octave >= -1
    ensures Less(a, b) ==> !Less(b, a)
    ensures !Less(a, a)
  {
    LexLessAsymmetric(MidiNotes(a), MidiNotes(b));
  }

  /** Any two different chords are ordered one way or the other. */
  lemma LessTrichotomy(a: ChordInfo, b: ChordInfo)
    requires a.root.octave >= -1 && b.root.octave >= -1
    ensures a == b || Less(a, b) || Less(b, a)
  {
    LexLessTotal(MidiNotes(a), MidiNotes(b));
    EqualIsStructural(a.root, b.root);
  }

  /** Chords on different roots are ordered by their roots' note numbers. */
  lemma LessByRoot(a: ChordInfo, b: ChordInfo)
    requires a.root.octave >= -1 && b.root.octave >= -1
    requires ToMidi(a.root) != ToMidi(b.root)
    ensures Less(a, b) <==> ToMidi(a.root) < ToMidi(b.root)
  {
  }

  /** `operator<` is not transitive, so it is no strict weak order: on C4, b10 in first
      inversion < sus2 add 11 in third inversion (notes 75 .. against 77 ..), which < sus4
      add 9 in third inversion (same notes, smaller chord type), which < b10 in first
      inversion (74 .. against 75 ..). All three are inversions `can_invert` allows. */
  lemma LessNotTransitive()
    ensures CanInvert(Flat10, FirstInversion) && CanInvert(Sus2Add11, ThirdInversion) && CanInvert(Sus4Add9, ThirdInversion)
    ensures Less(ChordInfo(NoteInfo(C, 4), Flat10, FirstInversion), ChordInfo(NoteInfo(C, 4), Sus2Add11, ThirdInversion))
    ensures Less(ChordInfo(NoteInfo(C, 4), Sus2Add11, ThirdInversion), ChordInfo(NoteInfo(C, 4), Sus4Add9, ThirdInversion))
    ensures Less(ChordInfo(NoteInfo(C, 4), Sus4Add9, ThirdInversion), ChordInfo(NoteInfo(C, 4), Flat10, FirstInversion))
  {
    var b := ChordInfo(NoteInfo(C, 4), Sus2Add11, ThirdInversion);
    var c := ChordInfo(NoteInfo(C, 4), Sus4Add9, ThirdInversion);
    CycleNotes();
    assert multiset(MidiNotes(b)) == multiset(MidiNotes(c));
  }

  /** The notes of the three chords of `LessNotTransitive`. */
  lemma CycleNotes()
    ensures MidiNotes(ChordInfo(NoteInfo(C, 4), Flat10, FirstInversion)) == [75, 72]
    ensures MidiNotes(ChordInfo(NoteInfo(C, 4), Sus2Add11, ThirdInversion)) == [77, 72, 74, 79]
    ensures MidiNotes(ChordInfo(NoteInfo(C, 4), Sus4Add9, ThirdInversion)) == [74, 72, 77, 79]
  {
    assert Voicing(ChordInfo(NoteInfo(C, 4), Flat10, FirstInversion)) == [15, 12];
    assert Voicing(ChordInfo(NoteInfo(C, 4), Sus2Add11, ThirdInversion)) == [17, 12, 14, 19];
    assert Voicing(ChordInfo(NoteInfo(C, 4), Sus4Add9, ThirdInversion)) == [14, 12, 17, 19];
  }

  /** Since every chord plays its root's pitch class, the root test of
      `chord_fits_key` is implied by the note test. */
  lemma FitsIffAllChordNotes(c: ChordInfo, k: KeyInfo)
    requires c.root.octave >= -1
    ensures Fits(c, k) <==> ContainsAllChordNotes(k, c)
  {
    PlaysRootPitchClass(c);
    var j :| 0 <= j < |ChordNotes(c)| && PitchClassesOf(ChordNotes(c))[j] == c.root.n;
  }

  /** A chord fits a key exactly when each played note, mod 12, is the tonic plus some scale offset, mod 12. */
  lemma FitsIffPitchClassesInScale(c: ChordInfo, k: KeyInfo)
    requires c.root.octave >= -1
    ensures Fits(c, k) <==> forall j :: 0 <= j < |MidiNotes(c)| ==>
      exists i :: 0 <= i < |ScaleIntervals(k.scaleType)| &&
        MidiNotes(c)[j] % 12 == (k.root + ScaleIntervals(k.scaleType)[i]) % 12
  {
    FitsIffAllChordNotes(c, k);
    ChordNotesAreMidiNotes(c);
    KeyNotesPitchClasses(k, 4);
  }

  /** A major fits the key of A major ... */
  lemma AMajorInAMajor()
    ensures Fits(ChordInfo(NoteInfo(A, 4), Maj, RootPosition), KeyInfo(A, Major))
  {
    var c := ChordInfo(NoteInfo(A, 4), Maj, RootPosition);
    var k := KeyInfo(A, Major);
    assert ChordNotes(c) == [NoteInfo(A, 4), NoteInfo(Csharp, 5), NoteInfo(E, 5)] by {
      assert Voicing(c) == [0, 4, 7];
      assert MidiNotes(c) == [69, 73, 76];
    }
    assert ContainsChordRoot(k, c) by {
      AMajorPitchClasses();
    }
    assert ContainsAllChordNotes(k, c) by {
      AMajorPitchClasses();
    }
  }

  /** ... and A# major does not, since A# is not in A major. */
  lemma ASharpMajorNotInAMajor()
    ensures !Fits(ChordInfo(NoteInfo(Asharp, 4), Maj, RootPosition), KeyInfo(A, Major))
  {
    AMajorPitchClasses();
    assert !ContainsPitchClass(KeyInfo(A, Major), Asharp);
  }
}
