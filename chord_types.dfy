/** Chord interval catalog: `enum class chord` (93 chord types, `_unison` .. `_dom13`)
    and `get_intervals(chord)`, the semitone offsets of each type above its root. */
module ChordTypes {
  import opened Sequences

  const ChordCount: nat := 93

  /** `enum class chord`: the value of an enumerator is its position, as
      `static_cast<chord>(c_idx)` in the catalog builder and `<` on chord types rely on. */
  type Chord = c: int | 0 <= c < ChordCount

  const Unison: Chord := 0  // chord::_unison
  const Flat2: Chord := 1  // chord::_b2
  const Second: Chord := 2  // chord::_2
  const Flat3: Chord := 3  // chord::_b3
  const Third: Chord := 4  // chord::_3
  const Fourth: Chord := 5  // chord::_4
  const Flat5: Chord := 6  // chord::_b5
  const Fifth: Chord := 7  // chord::_5
  const Flat6: Chord := 8  // chord::_b6
  const Sixth: Chord := 9  // chord::_6
  const Flat7: Chord := 10  // chord::_b7
  const Seventh: Chord := 11  // chord::_7
  const Octave: Chord := 12  // chord::_8va
  const Flat9: Chord := 13  // chord::_b9
  const Ninth: Chord := 14  // chord::_9
  const Flat10: Chord := 15  // chord::_b10
  const Tenth: Chord := 16  // chord::_10
  const Eleventh: Chord := 17  // chord::_11
  const Flat12: Chord := 18  // chord::_b12
  const Twelfth: Chord := 19  // chord::_12
  const Flat13: Chord := 20  // chord::_b13
  const Thirteenth: Chord := 21  // chord::_13
  const Flat14: Chord := 22  // chord::_b14
  const Fourteenth: Chord := 23  // chord::_14
  const DoubleOctave: Chord := 24  // chord::_15ma
  const Maj: Chord := 25  // chord::_maj
  const Min: Chord := 26  // chord::_min
  const Sus2: Chord := 27  // chord::_sus2
  const Sus4: Chord := 28  // chord::_sus4
  const Dim: Chord := 29  // chord::_dim
  const Aug: Chord := 30  // chord::_aug
  const Maj7: Chord := 31  // chord::_maj7
  const Min7: Chord := 32  // chord::_min7
  const Dom7: Chord := 33  // chord::_dom7
  const Min7b5: Chord := 34  // chord::_min7_b5
  const HalfDim7: Chord := 35  // chord::_half_dim7
  const Dim7: Chord := 36  // chord::_dim7
  const FullDim7: Chord := 37  // chord::_full_dim7
  const MinMaj7: Chord := 38  // chord::_min_maj7
  const Maj7Sus2: Chord := 39  // chord::_maj7_sus2
  const Maj7Sus4: Chord := 40  // chord::_maj7_sus4
  const Min7Sus2: Chord := 41  // chord::_min7_sus2
  const Min7Sus4: Chord := 42  // chord::_min7_sus4
  const Maj6: Chord := 43  // chord::_maj6
  const Min6: Chord := 44  // chord::_min6
  const MajAddb9: Chord := 45  // chord::_maj_add_b9
  const MajAdd9: Chord := 46  // chord::_maj_add_9
  const MajAddSharp9: Chord := 47  // chord::_maj_add_sharp9
  const MajAddb10: Chord := 48  // chord::_maj_add_b10
  const MajAdd11: Chord := 49  // chord::_maj_add_11
  const MajAddSharp11: Chord := 50  // chord::_maj_add_sharp11
  const MajAddb12: Chord := 51  // chord::_maj_add_b12
  const MajAdd13: Chord := 52  // chord::_maj_add_13
  const MajAddSharp13: Chord := 53  // chord::_maj_add_sharp13
  const MajAddb14: Chord := 54  // chord::_maj_add_b14
  const MinAddb9: Chord := 55  // chord::_min_add_b9
  const MinAdd9: Chord := 56  // chord::_min_add_9
  const MinAddSharp9: Chord := 57  // chord::_min_add_sharp9
  const MinAddb10: Chord := 58  // chord::_min_add_b10
  const MinAdd11: Chord := 59  // chord::_min_add_11
  const MinAddSharp11: Chord := 60  // chord::_min_add_sharp11
  const MinAddb12: Chord := 61  // chord::_min_add_b12
  const MinAdd13: Chord := 62  // chord::_min_add_13
  const MinAddSharp13: Chord := 63  // chord::_min_add_sharp13
  const MinAddb14: Chord := 64  // chord::_min_add_b14
  const Sus2Add9: Chord := 65  // chord::_sus2_add_9
  const Sus2AddSharp9: Chord := 66  // chord::_sus2_add_sharp9
  const Sus2Addb10: Chord := 67  // chord::_sus2_add_b10
  const Sus2Add11: Chord := 68  // chord::_sus2_add_11
  const Sus2AddSharp11: Chord := 69  // chord::_sus2_add_sharp11
  const Sus2Addb12: Chord := 70  // chord::_sus2_add_b12
  const Sus2Add13: Chord := 71  // chord::_sus2_add_13
  const Sus2AddSharp13: Chord := 72  // chord::_sus2_add_sharp13
  const Sus2Addb14: Chord := 73  // chord::_sus2_add_b14
  const Sus4Add9: Chord := 74  // chord::_sus4_add_9
  const Sus4AddSharp9: Chord := 75  // chord::_sus4_add_sharp9
  const Sus4Addb10: Chord := 76  // chord::_sus4_add_b10
  const Sus4Add11: Chord := 77  // chord::_sus4_add_11
  const Sus4AddSharp11: Chord := 78  // chord::_sus4_add_sharp11
  const Sus4Addb12: Chord := 79  // chord::_sus4_add_b12
  const Sus4Add13: Chord := 80  // chord::_sus4_add_13
  const Sus4AddSharp13: Chord := 81  // chord::_sus4_add_sharp13
  const Sus4Addb14: Chord := 82  // chord::_sus4_add_b14
  const Maj9: Chord := 83  // chord::_maj9
  const Min9: Chord := 84  // chord::_min9
  const Dom9: Chord := 85  // chord::_dom9
  const Min9b5: Chord := 86  // chord::_min9_b5
  const Maj11: Chord := 87  // chord::_maj11
  const Min11: Chord := 88  // chord::_min11
  const Maj13: Chord := 89  // chord::_maj13
  const Min13: Chord := 90  // chord::_min13
  const Dom11: Chord := 91  // chord::_dom11
  const Dom13: Chord := 92  // chord::_dom13

  /** Number of offsets of the chord type at enum position `c`: the unison has one,
      the 24 intervals two, the 6 triads three, the sevenths, sixths and added-tone
      chords four, and the ten ninth, eleventh and thirteenth chords five. */
  function SizeAt(c: Chord): nat {
    if c == Unison then 1
    else if c <= DoubleOctave then 2
    else if c <= Aug then 3
    else if c <= Sus4Addb14 then 4
    else 5
  }

  /** `get_intervals(chord)`: the offsets of each chord type, one family of the
      enum at a time. Each list starts at the root, ascends strictly, has the size of
      its family and ends at most two octaves above the root. */
  function Intervals(c: Chord): (r: seq<int>)
    ensures |r| == SizeAt(c)
    ensures r[0] == 0
    ensures Ascending(r)
    ensures r[|r| - 1] <= 24
  {
    if c <= DoubleOctave then DyadOffsets(c)
    else if c <= Aug then TriadOffsets(c)
    else if c <= Min6 then SeventhOffsets(c)
    else if c <= MinAddb14 then AddedToneOffsets(c)
    else if c <= Sus4Addb14 then SuspendedAddedOffsets(c)
    else ExtendedOffsets(c)
  }

  /** The entries of `get_intervals` for the unison and the 24 intervals. */
  function DyadOffsets(c: Chord): (r: seq<int>)
    requires c <= DoubleOctave
    ensures |r| == SizeAt(c)
    ensures r[0] == 0
    ensures Ascending(r)
    ensures r[|r| - 1] <= 24
  {
    match c
    case 0 => [0]                     // Unison
    case 1 => [0, 1]                  // Flat2
    case 2 => [0, 2]                  // Second
    case 3 => [0, 3]                  // Flat3
    case 4 => [0, 4]                  // Third
    case 5 => [0, 5]                  // Fourth
    case 6 => [0, 6]                  // Flat5
    case 7 => [0, 7]                  // Fifth
    case 8 => [0, 8]                  // Flat6
    case 9 => [0, 9]                  // Sixth
    case 10 => [0, 10]                // Flat7
    case 11 => [0, 11]                // Seventh
    case 12 => [0, 12]                // Octave
    case 13 => [0, 13]                // Flat9
    case 14 => [0, 14]                // Ninth
    case 15 => [0, 15]                // Flat10
    case 16 => [0, 16]                // Tenth
    case 17 => [0, 17]                // Eleventh
    case 18 => [0, 18]                // Flat12
    case 19 => [0, 19]                // Twelfth
    case 20 => [0, 20]                // Flat13
    case 21 => [0, 21]                // Thirteenth
    case 22 => [0, 22]                // Flat14
    case 23 => [0, 23]                // Fourteenth
    case _ => [0, 24]                 // DoubleOctave (24)
  }

  /** The entries of `get_intervals` for the six triads. */
  function TriadOffsets(c: Chord): (r: seq<int>)
    requires Maj <= c <= Aug
    ensures |r| == SizeAt(c)
    ensures r[0] == 0
    ensures Ascending(r)
    ensures r[|r| - 1] <= 24
  {
    match c
    case 25 => [0, 4, 7]              // Maj
    case 26 => [0, 3, 7]              // Min
    case 27 => [0, 2, 7]              // Sus2
    case 28 => [0, 5, 7]              // Sus4
    case 29 => [0, 3, 6]              // Dim
    case _ => [0, 4, 8]               // Aug (30)
  }

  /** The entries of `get_intervals` for the seventh and sixth chords. */
  function SeventhOffsets(c: Chord): (r: seq<int>)
    requires Maj7 <= c <= Min6
    ensures |r| == SizeAt(c)
    ensures r[0] == 0
    ensures Ascending(r)
    ensures r[|r| - 1] <= 24
  {
    match c
    case 31 => [0, 4, 7, 11]          // Maj7
    case 32 => [0, 3, 7, 10]          // Min7
    case 33 => [0, 4, 7, 10]          // Dom7
    case 34 => [0, 3, 6, 10]          // Min7b5
    case 35 => [0, 3, 6, 10]          // HalfDim7
    case 36 => [0, 3, 6, 9]           // Dim7
    case 37 => [0, 3, 6, 9]           // FullDim7
    case 38 => [0, 3, 7, 11]          // MinMaj7
    case 39 => [0, 2, 7, 11]          // Maj7Sus2
    case 40 => [0, 5, 7, 11]          // Maj7Sus4
    case 41 => [0, 2, 7, 10]          // Min7Sus2
    case 42 => [0, 5, 7, 10]          // Min7Sus4
    case 43 => [0, 4, 7, 9]           // Maj6
    case _ => [0, 3, 7, 9]            // Min6 (44)
  }

  /** The entries of `get_intervals` for the major and minor triads with one added tone. */
  function AddedToneOffsets(c: Chord): (r: seq<int>)
    requires MajAddb9 <= c <= MinAddb14
    ensures |r| == SizeAt(c)
    ensures r[0] == 0
    ensures Ascending(r)
    ensures r[|r| - 1] <= 24
  {
    match c
    case 45 => [0, 4, 7, 13]          // MajAddb9
    case 46 => [0, 4, 7, 14]          // MajAdd9
    case 47 => [0, 4, 7, 15]          // MajAddSharp9
    case 48 => [0, 4, 7, 15]          // MajAddb10
    case 49 => [0, 4, 7, 17]          // MajAdd11
    case 50 => [0, 4, 7, 18]          // MajAddSharp11
    case 51 => [0, 4, 7, 18]          // MajAddb12
    case 52 => [0, 4, 7, 21]          // MajAdd13
    case 53 => [0, 4, 7, 22]          // MajAddSharp13
    case 54 => [0, 4, 7, 22]          // MajAddb14
    case 55 => [0, 3, 7, 13]          // MinAddb9
    case 56 => [0, 3, 7, 14]          // MinAdd9
    case 57 => [0, 3, 7, 15]          // MinAddSharp9
    case 58 => [0, 3, 7, 15]          // MinAddb10
    case 59 => [0, 3, 7, 17]          // MinAdd11
    case 60 => [0, 3, 7, 18]          // MinAddSharp11
    case 61 => [0, 3, 7, 18]          // MinAddb12
    case 62 => [0, 3, 7, 21]          // MinAdd13
    case 63 => [0, 3, 7, 22]          // MinAddSharp13
    case _ => [0, 3, 7, 22]           // MinAddb14 (64)
  }

  /** The entries of `get_intervals` for the suspended triads with one added tone. */
  function SuspendedAddedOffsets(c: Chord): (r: seq<int>)
    requires Sus2Add9 <= c <= Sus4Addb14
    ensures |r| == SizeAt(c)
    ensures r[0] == 0
    ensures Ascending(r)
    ensures r[|r| - 1] <= 24
  {
    match c
    case 65 => [0, 2, 7, 14]          // Sus2Add9
    case 66 => [0, 2, 7, 15]          // Sus2AddSharp9
    case 67 => [0, 2, 7, 15]          // Sus2Addb10
    case 68 => [0, 2, 7, 17]          // Sus2Add11
    case 69 => [0, 2, 7, 18]          // Sus2AddSharp11
    case 70 => [0, 2, 7, 18]          // Sus2Addb12
    case 71 => [0, 2, 7, 21]          // Sus2Add13
    case 72 => [0, 2, 7, 22]          // Sus2AddSharp13
    case 73 => [0, 2, 7, 22]          // Sus2Addb14
    case 74 => [0, 5, 7, 14]          // Sus4Add9
    case 75 => [0, 5, 7, 15]          // Sus4AddSharp9
    case 76 => [0, 5, 7, 15]          // Sus4Addb10
    case 77 => [0, 5, 7, 17]          // Sus4Add11
    case 78 => [0, 5, 7, 18]          // Sus4AddSharp11
    case 79 => [0, 5, 7, 18]          // Sus4Addb12
    case 80 => [0, 5, 7, 21]          // Sus4Add13
    case 81 => [0, 5, 7, 22]          // Sus4AddSharp13
    case _ => [0, 5, 7, 22]           // Sus4Addb14 (82)
  }

  /** The entries of `get_intervals` for the ninth, eleventh and thirteenth chords. */
  function ExtendedOffsets(c: Chord): (r: seq<int>)
    requires Maj9 <= c
    ensures |r| == SizeAt(c)
    ensures r[0] == 0
    ensures Ascending(r)
    ensures r[|r| - 1] <= 24
  {
    match c
    case 83 => [0, 4, 7, 11, 14]      // Maj9
    case 84 => [0, 3, 7, 10, 14]      // Min9
    case 85 => [0, 4, 7, 10, 14]      // Dom9
    case 86 => [0, 3, 6, 10, 14]      // Min9b5
    case 87 => [0, 4, 11, 14, 18]     // Maj11
    case 88 => [0, 3, 10, 14, 17]     // Min11
    case 89 => [0, 4, 11, 14, 21]     // Maj13
    case 90 => [0, 3, 10, 14, 21]     // Min13
    case 91 => [0, 4, 10, 14, 18]     // Dom11
    case _ => [0, 4, 10, 14, 21]      // Dom13 (92)
  }

  /** Every chord type's offsets are distinct, ascending and lie between the root (0)
      and two octaves above it (24). */
  lemma IntervalsShape(c: Chord)
    ensures forall i, j :: 0 <= i < j < |Intervals(c)| ==> Intervals(c)[i] < Intervals(c)[j]
    ensures forall i :: 0 <= i < |Intervals(c)| ==> 0 <= Intervals(c)[i] <= 24
  {
    AscendingBetweenEnds(Intervals(c));
  }

  /** Free function `get_chords()`: every chord type, in enum order. */
  method GetChords() returns (chords: seq<Chord>)
    ensures |chords| == ChordCount
    ensures forall i :: 0 <= i < |chords| ==> chords[i] == i
  {
    chords := [];
    var i := 0;
    while i < ChordCount
      invariant 0 <= i <= ChordCount
      invariant |chords| == i
      invariant forall j :: 0 <= j < i ==> chords[j] == j
    {
      chords := chords + [i];
      i := i + 1;
    }
  }
}
