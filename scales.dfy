/** Scale/key model: `enum class scale`, `get_intervals(scale)` (the overload for scales), `get_scale_size`,
    and the pitch-class queries of `key_info` that do not involve a chord. */
module Scales {
  import opened Notes
  import opened Sequences

  /** `enum class scale`, in enum order. */
  datatype Scale =
    | Major | Minor | Dorian | Phrygian | Lydian | Mixolydian | Locrian
    | HarmonicMinor | MelodicMinor | Persian
    | Hirajoshi | Insen | Iwato | Yo | Yonanuki | Blues

  /** `get_intervals(scale)` (the overload for scales): five to seven ascending offsets within one octave,
      starting at the tonic. */
  function ScaleIntervals(s: Scale): (r: seq<int>)
    ensures 5 <= |r| <= 7
    ensures r[0] == 0 && r[|r| - 1] < 12
    ensures Ascending(r)
  {
    match s
    case Major         => [0, 2, 4, 5, 7, 9, 11]
    case Minor         => [0, 2, 3, 5, 7, 8, 10]
    case Dorian        => [0, 2, 3, 5, 7, 9, 10]
    case Phrygian      => [0, 1, 3, 5, 7, 8, 10]
    case Lydian        => [0, 2, 4, 6, 7, 9, 11]
    case Mixolydian    => [0, 2, 4, 5, 7, 9, 10]
    case Locrian       => [0, 1, 3, 5, 6, 8, 10]
    case HarmonicMinor => [0, 2, 3, 5, 7, 8, 11]
    case MelodicMinor  => [0, 2, 3, 5, 7, 9, 11]
    case Persian       => [0, 1, 4, 5, 6, 8, 11]
    case Hirajoshi     => [0, 4, 6, 7, 11]
    case Insen         => [0, 1, 5, 7, 10]
    case Iwato         => [0, 1, 5, 6, 10]
    case Yo            => [0, 3, 5, 7, 10]
    case Yonanuki      => [0, 2, 3, 7, 8]
    case Blues         => [0, 3, 5, 6, 7, 10]
  }

  /** `get_scale_size`: the pentatonic scales have five notes, the blues scale six,
      the diatonic and heptatonic ones seven. */
  function ScaleSize(s: Scale): (n: nat)
    ensures n == 5 <==> s in {Hirajoshi, Insen, Iwato, Yo, Yonanuki}
    ensures n == 6 <==> s == Blues
    ensures 5 <= n <= 7
  {
    |ScaleIntervals(s)|
  }

  /** Every offset of a scale lies in 0 .. 11, and no two are equal. */
  lemma IntervalsWithinOctave(s: Scale)
    ensures forall i, j :: 0 <= i < j < |ScaleIntervals(s)| ==> ScaleIntervals(s)[i] < ScaleIntervals(s)[j]
    ensures forall i :: 0 <= i < |ScaleIntervals(s)| ==> 0 <= ScaleIntervals(s)[i] < 12
  {
    AscendingBetweenEnds(ScaleIntervals(s));
  }

  /** `key_info`: a tonic pitch class and a scale; a default-constructed key is C major. */
  datatype KeyInfo = KeyInfo(root: PitchClass, scaleType: Scale)

  const DefaultKey: KeyInfo := KeyInfo(C, Major)

  /** `key_info::key_notes(octave)`: the tonic at `octave` plus each scale offset. */
  function KeyNotes(k: KeyInfo, octave: int): (r: seq<NoteInfo>)
    requires octave >= -1
    ensures |r| == |ScaleIntervals(k.scaleType)|
  {
    var tonic := NoteInfo(k.root, octave);
    var iv := ScaleIntervals(k.scaleType);
    IntervalsWithinOctave(k.scaleType);
    seq(|iv|, j requires 0 <= j < |iv| => FromMidi(ToMidi(tonic) + iv[j]))
  }

  /** The pitch classes of a list of pitches (what `find` against a `note` compares). */
  function PitchClassesOf(ns: seq<NoteInfo>): (r: seq<PitchClass>)
    ensures |r| == |ns|
  {
    seq(|ns|, i requires 0 <= i < |ns| => ns[i].n)
  }

  /** `key_info::notes()`: the pitch classes of the key, taken at the default octave 4. */
  function KeyPitchClasses(k: KeyInfo): seq<PitchClass> {
    PitchClassesOf(KeyNotes(k, 4))
  }

  /** `key_info::contains_note(const note&)`. */
  predicate ContainsPitchClass(k: KeyInfo, n: PitchClass) {
    n in KeyPitchClasses(k)
  }

  /** `key_info::contains_note(const note_info&)`: looks the pitch class up among the
      key's notes built at the pitch's own octave. */
  predicate ContainsNote(k: KeyInfo, p: NoteInfo)
    requires p.octave >= -1
  {
    p.n in PitchClassesOf(KeyNotes(k, p.octave))
  }

  /** Adding whole octaves does not change the pitch class. */
  lemma ModAddOctaves(a: int, octaves: int)
    ensures (a + 12 * octaves) % 12 == a % 12
  {
  }

  /** Whatever the octave, the key's pitch classes are the tonic plus each offset, mod 12. */
  lemma KeyNotesPitchClasses(k: KeyInfo, octave: int)
    requires octave >= -1
    ensures forall j :: 0 <= j < |ScaleIntervals(k.scaleType)| ==>
      PitchClassesOf(KeyNotes(k, octave))[j] == (k.root + ScaleIntervals(k.scaleType)[j]) % 12
  {
    var iv := ScaleIntervals(k.scaleType);
    forall j | 0 <= j < |iv|
      ensures PitchClassesOf(KeyNotes(k, octave))[j] == (k.root + iv[j]) % 12
    {
      ModAddOctaves(k.root + iv[j], octave + 1);
    }
  }

  /** Looking a pitch up at its own octave gives the same answer as looking its pitch
      class up at octave 4. */
  lemma ContainsNoteIgnoresOctave(k: KeyInfo, n: PitchClass, octave: int)
    requires octave >= -1
    ensures ContainsNote(k, NoteInfo(n, octave)) <==> ContainsPitchClass(k, n)
  {
    KeyNotesPitchClasses(k, octave);
    KeyNotesPitchClasses(k, 4);
    assert PitchClassesOf(KeyNotes(k, octave)) == KeyPitchClasses(k);
  }

  /** The tonic is always in its key. */
  lemma TonicInKey(k: KeyInfo)
    ensures ContainsPitchClass(k, k.root)
  {
    assert ScaleIntervals(k.scaleType)[0] == 0;
    assert KeyNotes(k, 4)[0] == FromMidi(k.root + 60);
    assert KeyPitchClasses(k)[0] == k.root;
  }

  /** A key has as many distinct pitch classes as its scale has offsets. */
  lemma KeyPitchClassesDistinct(k: KeyInfo)
    ensures forall i, j :: 0 <= i < j < |KeyPitchClasses(k)| ==> KeyPitchClasses(k)[i] != KeyPitchClasses(k)[j]
  {
    var iv := ScaleIntervals(k.scaleType);
    KeyNotesPitchClasses(k, 4);
    IntervalsWithinOctave(k.scaleType);
    forall i, j | 0 <= i < j < |iv|
      ensures KeyPitchClasses(k)[i] != KeyPitchClasses(k)[j]
    {
      assert 0 <= iv[i] < iv[j] < 12;
      DistinctWithinOctave(k.root, iv[i], iv[j]);
    }
  }

  /** Two different offsets below 12 from the same tonic land on different pitch classes. */
  lemma DistinctWithinOctave(root: PitchClass, a: int, b: int)
    requires 0 <= a < b < 12
    ensures (root + a) % 12 != (root + b) % 12
  {
  }

  /** One pitch class of a key: the tonic plus the scale's offset, mod 12. */
  lemma KeyPitchClassAt(k: KeyInfo, j: nat)
    requires j < |ScaleIntervals(k.scaleType)|
    ensures KeyPitchClasses(k)[j] == (k.root + ScaleIntervals(k.scaleType)[j]) % 12
  {
    ModAddOctaves(k.root + ScaleIntervals(k.scaleType)[j], 5);
  }

  /** A major is A, B, C#, D, E, F#, G#. */
  lemma AMajorPitchClasses()
    ensures |KeyPitchClasses(KeyInfo(A, Major))| == 7
    ensures KeyPitchClasses(KeyInfo(A, Major))[0] == A
    ensures KeyPitchClasses(KeyInfo(A, Major))[1] == B
    ensures KeyPitchClasses(KeyInfo(A, Major))[2] == Csharp
    ensures KeyPitchClasses(KeyInfo(A, Major))[3] == D
    ensures KeyPitchClasses(KeyInfo(A, Major))[4] == E
    ensures KeyPitchClasses(KeyInfo(A, Major))[5] == Fsharp
    ensures KeyPitchClasses(KeyInfo(A, Major))[6] == Gsharp
  {
    var k := KeyInfo(A, Major);
    assert ScaleIntervals(Major) == [0, 2, 4, 5, 7, 9, 11];
    KeyPitchClassAt(k, 0);
    KeyPitchClassAt(k, 1);
    KeyPitchClassAt(k, 2);
    KeyPitchClassAt(k, 3);
    KeyPitchClassAt(k, 4);
    KeyPitchClassAt(k, 5);
    KeyPitchClassAt(k, 6);
  }
}
