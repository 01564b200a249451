/** Pitch model: the twelve pitch classes (`note`) and a pitch class in an octave
    (`note_info`), with the linear note number (`to_midi`) as its identity. */
module Notes {

  /** `enum class note : uint8_t`; the sharp/flat aliases (Csharp = Db = 1, ...) share a value. */
  type PitchClass = n: int | 0 <= n < 12

  const PitchClassCount: nat := 12

  const C: PitchClass := 0
  const Csharp: PitchClass := 1
  const D: PitchClass := 2
  const Dsharp: PitchClass := 3
  const E: PitchClass := 4
  const F: PitchClass := 5
  const Fsharp: PitchClass := 6
  const G: PitchClass := 7
  const Gsharp: PitchClass := 8
  const A: PitchClass := 9
  const Asharp: PitchClass := 10
  const B: PitchClass := 11

  /** `note_info`: a pitch class and an octave; a default-constructed one is C4. */
  datatype NoteInfo = NoteInfo(n: PitchClass, octave: int)

  const DefaultNote: NoteInfo := NoteInfo(C, 4)

  /** `note_info::to_midi`: octave 4 pitch class C is note number 60. */
  function ToMidi(p: NoteInfo): int {
    p.n + 12 * (p.octave + 1)
  }

  /** `note_info::from_midi` (also the `explicit note_info(int)` constructor and
      `operator=(int)`): pitch class `midi % 12`, octave `midi / 12 - 1`.
      For a non-negative note number C++'s truncating `%` and `/` agree with Dafny's. */
  function FromMidi(midi: int): (p: NoteInfo)
    requires midi >= 0
    ensures p.octave >= -1
  {
    NoteInfo(midi % 12, midi / 12 - 1)
  }

  /** `from_midi` then `to_midi` gives back the note number. */
  lemma ToMidiFromMidi(midi: int)
    requires midi >= 0
    ensures ToMidi(FromMidi(midi)) == midi
  {
  }

  /** Pitches below C-1 have negative note numbers; every other pitch has a non-negative one. */
  lemma ToMidiNonNegative(p: NoteInfo)
    ensures ToMidi(p) >= 0 <==> p.octave >= -1
  {
  }

  /** The note number determines the pitch: no two (pitch class, octave) pairs collide. */
  lemma ToMidiInjective(a: NoteInfo, b: NoteInfo)
    requires ToMidi(a) == ToMidi(b)
    ensures a == b
  {
  }

  /** Converting a pitch to its note number and back gives the pitch again. */
  lemma FromMidiToMidi(p: NoteInfo)
    requires p.octave >= -1
    ensures FromMidi(ToMidi(p)) == p
  {
    ToMidiInjective(FromMidi(ToMidi(p)), p);
  }

  /** `note_info::operator==(const note_info&)`: same note number. */
  predicate Equal(a: NoteInfo, b: NoteInfo) {
    ToMidi(a) == ToMidi(b)
  }

  /** `note_info::operator<`: lower note number. */
  predicate Less(a: NoteInfo, b: NoteInfo) {
    ToMidi(a) < ToMidi(b)
  }

  /** Equality through the note number is structural equality of the pair. */
  lemma EqualIsStructural(a: NoteInfo, b: NoteInfo)
    ensures Equal(a, b) <==> a == b
  {
    if Equal(a, b) {
      ToMidiInjective(a, b);
    }
  }

  /** Ordering by note number is ordering by octave, then by pitch class. */
  lemma LessIsOctaveThenPitchClass(a: NoteInfo, b: NoteInfo)
    ensures Less(a, b) <==> a.octave < b.octave || (a.octave == b.octave && a.n < b.n)
  {
  }

  /** `Less` is a strict total order whose incomparable elements are the `Equal` ones. */
  lemma LessIsStrictTotalOrder(a: NoteInfo, b: NoteInfo, c: NoteInfo)
    ensures !Less(a, a)
    ensures Less(a, b) ==> !Less(b, a)
    ensures Less(a, b) && Less(b, c) ==> Less(a, c)
    ensures Less(a, b) || Less(b, a) || Equal(a, b)
  {
  }

  /** `note_info::get_interval`: signed semitone distance from this pitch to `other`. */
  function Interval(from: NoteInfo, to: NoteInfo): int {
    ToMidi(to) - ToMidi(from)
  }

  /** `operator+(const note_info&, int)`: the pitch `interval` semitones higher. */
  function Add(p: NoteInfo, interval: int): (r: NoteInfo)
    requires ToMidi(p) + interval >= 0
    ensures ToMidi(r) == ToMidi(p) + interval
    ensures Interval(p, r) == interval
  {
    ToMidiFromMidi(ToMidi(p) + interval);
    FromMidi(ToMidi(p) + interval)
  }

  /** The interval is antisymmetric, and adding the interval from `a` to `b` to `a` reaches `b`. */
  lemma IntervalRoundTrip(a: NoteInfo, b: NoteInfo)
    requires b.octave >= -1
    ensures Interval(a, b) == -Interval(b, a)
    ensures Add(a, Interval(a, b)) == b
  {
    ToMidiInjective(Add(a, Interval(a, b)), b);
  }

  /** Free function `get_notes()`: every pitch class, in enum order. */
  method GetNotes() returns (notes: seq<PitchClass>)
    ensures |notes| == PitchClassCount
    ensures forall i :: 0 <= i < |notes| ==> notes[i] == i
  {
    notes := [];
    var i := 0;
    while i < PitchClassCount
      invariant 0 <= i <= PitchClassCount
      invariant |notes| == i
      invariant forall j :: 0 <= j < i ==> notes[j] == j
    {
      notes := notes + [i];
      i := i + 1;
    }
  }
}
