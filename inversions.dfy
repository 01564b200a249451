/** Inversion engine: `enum class inversion`, the four hand-written rotation tables
    `invert_dyad` .. `invert_quint`, the size dispatch `invert`, and `can_invert`. */
module Inversions {
  import opened Results
  import opened ChordTypes

  const InversionCount: nat := 5

  /** `enum class inversion`: root position and the first to fourth inversions. */
  type Inversion = i: int | 0 <= i < InversionCount

  const RootPosition: Inversion := 0
  const FirstInversion: Inversion := 1
  const SecondInversion: Inversion := 2
  const ThirdInversion: Inversion := 3
  const FourthInversion: Inversion := 4

  /** Free function `get_inversions()`: every inversion, in enum order. */
  method GetInversions() returns (inversions: seq<Inversion>)
    ensures |inversions| == InversionCount
    ensures forall i :: 0 <= i < |inversions| ==> inversions[i] == i
  {
    inversions := [];
    var i := 0;
    while i < InversionCount
      invariant 0 <= i <= InversionCount
      invariant |inversions| == i
      invariant forall j :: 0 <= j < i ==> inversions[j] == j
    {
      inversions := inversions + [i];
      i := i + 1;
    }
  }

  /** `invert_dyad`. (The `default:` branches of the four tables throw, but the
      inversion amount is always below the chord size, so they are unreachable.) */
  function InvertDyad(chord: seq<int>, inv: Inversion): seq<int>
    requires |chord| == 2
  {
    if inv % 2 == 0 then chord
    else [chord[1], chord[0] + 12]
  }

  /** `invert_triad`. */
  function InvertTriad(chord: seq<int>, inv: Inversion): seq<int>
    requires |chord| == 3
  {
    var amount := inv % 3;
    if amount == 0 then chord
    else if amount == 1 then [chord[1], chord[2], chord[0] + 12]
    else [chord[2], chord[0] + 12, chord[1] + 12]
  }

  /** `invert_quad`. */
  function InvertQuad(chord: seq<int>, inv: Inversion): seq<int>
    requires |chord| == 4
  {
    var amount := inv % 4;
    if amount == 0 then chord
    else if amount == 1 then [chord[1], chord[2], chord[3], chord[0] + 12]
    else if amount == 2 then [chord[2], chord[3], chord[0] + 12, chord[1] + 12]
    else [chord[3], chord[0] + 12, chord[1] + 12, chord[2] + 12]
  }

  /** `invert_quint`. */
  function InvertQuint(chord: seq<int>, inv: Inversion): seq<int>
    requires |chord| == 5
  {
    var amount := inv % 5;
    if amount == 0 then chord
    else if amount == 1 then [chord[1], chord[2], chord[3], chord[4], chord[0] + 12]
    else if amount == 2 then [chord[2], chord[3], chord[4], chord[0] + 12, chord[1] + 12]
    else if amount == 3 then [chord[3], chord[4], chord[0] + 12, chord[1] + 12, chord[2] + 12]
    else [chord[4], chord[0] + 12, chord[1] + 12, chord[2] + 12, chord[3] + 12]
  }

  /** `invert`: dispatch on the chord size. Empty and single-note chords come back
      unchanged, more than five offsets is an error, and otherwise the voicing keeps
      its size; root position leaves any chord of at most five notes unchanged. */
  function Invert(chord: seq<int>, inv: Inversion): (r: Result<seq<int>>)
    ensures r.Ok? <==> |chord| <= 5
    ensures r.Err? ==> r.error == InvalidChordSize(|chord|)
    ensures r.Ok? ==> |r.value| == |chord|
    ensures |chord| <= 1 ==> r == Ok(chord)
    ensures |chord| <= 5 && inv == RootPosition ==> r == Ok(chord)
  {
    match |chord|
    case 0 => Ok(chord)
    case 1 => Ok(chord)
    case 2 => Ok(InvertDyad(chord, inv))
    case 3 => Ok(InvertTriad(chord, inv))
    case 4 => Ok(InvertQuad(chord, inv))
    case 5 => Ok(InvertQuint(chord, inv))
    case _ => Err(InvalidChordSize(|chord|))
  }

  /** The closed form of an inversion by `m` positions: rotate left by `m`, raising
      every note that wraps around by an octave. */
  function Rotated(x: seq<int>, m: nat): (r: seq<int>)
    requires m < |x|
  {
    seq(|x|, j requires 0 <= j < |x| => x[(j + m) % |x|] + 12 * ((j + m) / |x|))
  }

  /** `s` with every offset an octave higher. */
  function Raised(s: seq<int>): (r: seq<int>)
  {
    seq(|s|, i requires 0 <= i < |s| => s[i] + 12)
  }

  /** Quotient and remainder of a position that wraps around at most once. */
  lemma WrapDivMod(a: int, k: int)
    requires 0 < k && 0 <= a < 2 * k
    ensures a < k ==> a % k == a && a / k == 0
    ensures k <= a ==> a % k == a - k && a / k == 1
  {
  }

  /** The rotation is the tail from position `m` followed by the raised head. */
  lemma RotatedSplit(x: seq<int>, m: nat)
    requires m < |x|
    ensures Rotated(x, m) == x[m..] + Raised(x[..m])
  {
    var k := |x|;
    forall j | 0 <= j < k
      ensures Rotated(x, m)[j] == (x[m..] + Raised(x[..m]))[j]
    {
      WrapDivMod(j + m, k);
    }
  }

  /** `invert_dyad` is the rotation by `inv mod 2`. */
  lemma DyadIsRotation(x: seq<int>, inv: Inversion)
    requires |x| == 2
    ensures InvertDyad(x, inv) == Rotated(x, inv % 2)
  {
    var m := inv % 2;
    RotatedSplit(x, m);
    if m == 1 {
      assert x[1..] + Raised(x[..1]) == [x[1], x[0] + 12];
    }
  }

  /** `invert_triad` is the rotation by `inv mod 3`. */
  lemma TriadIsRotation(x: seq<int>, inv: Inversion)
    requires |x| == 3
    ensures InvertTriad(x, inv) == Rotated(x, inv % 3)
  {
    var m := inv % 3;
    RotatedSplit(x, m);
    if m == 1 {
      assert x[1..] + Raised(x[..1]) == [x[1], x[2], x[0] + 12];
    } else if m == 2 {
      assert x[2..] + Raised(x[..2]) == [x[2], x[0] + 12, x[1] + 12];
    }
  }

  /** `invert_quad` is the rotation by `inv mod 4`. */
  lemma QuadIsRotation(x: seq<int>, inv: Inversion)
    requires |x| == 4
    ensures InvertQuad(x, inv) == Rotated(x, inv % 4)
  {
    var m := inv % 4;
    RotatedSplit(x, m);
    if m == 1 {
      assert x[1..] + Raised(x[..1]) == [x[1], x[2], x[3], x[0] + 12];
    } else if m == 2 {
      assert x[2..] + Raised(x[..2]) == [x[2], x[3], x[0] + 12, x[1] + 12];
    } else if m == 3 {
      assert x[3..] + Raised(x[..3]) == [x[3], x[0] + 12, x[1] + 12, x[2] + 12];
    }
  }

  /** `invert_quint` is the rotation by `inv mod 5`. */
  lemma QuintIsRotation(x: seq<int>, inv: Inversion)
    requires |x| == 5
    ensures InvertQuint(x, inv) == Rotated(x, inv % 5)
  {
    var m := inv % 5;
    RotatedSplit(x, m);
    if m == 1 {
      assert x[1..] + Raised(x[..1]) == [x[1], x[2], x[3], x[4], x[0] + 12];
    } else if m == 2 {
      assert x[2..] + Raised(x[..2]) == [x[2], x[3], x[4], x[0] + 12, x[1] + 12];
    } else if m == 3 {
      assert x[3..] + Raised(x[..3]) == [x[3], x[4], x[0] + 12, x[1] + 12, x[2] + 12];
    } else if m == 4 {
      assert x[4..] + Raised(x[..4]) == [x[4], x[0] + 12, x[1] + 12, x[2] + 12, x[3] + 12];
    }
  }

  /** All four switch tables compute the same closed-form rotation by `inv mod k`. */
  lemma InvertIsRotation(x: seq<int>, inv: Inversion)
    requires 2 <= |x| <= 5
    ensures Invert(x, inv) == Ok(Rotated(x, inv % |x|))
  {
    if |x| == 2 {
      DyadIsRotation(x, inv);
    } else if |x| == 3 {
      TriadIsRotation(x, inv);
    } else if |x| == 4 {
      QuadIsRotation(x, inv);
    } else {
      QuintIsRotation(x, inv);
    }
  }

  /** Offsets reduced to pitch classes (`offset mod 12`). */
  function PitchClasses(s: seq<int>): (r: seq<int>)
    ensures |r| == |s|
  {
    seq(|s|, i requires 0 <= i < |s| => s[i] % 12)
  }

  lemma PitchClassesAppend(a: seq<int>, b: seq<int>)
    ensures PitchClasses(a + b) == PitchClasses(a) + PitchClasses(b)
  {
  }

  /** Re-voicing never changes which pitch classes a chord plays, nor how often:
      the multiset of offsets mod 12 is the same before and after `invert`. */
  lemma InvertKeepsPitchClasses(x: seq<int>, inv: Inversion)
    requires |x| <= 5
    ensures multiset(PitchClasses(Invert(x, inv).value)) == multiset(PitchClasses(x))
  {
    if 2 <= |x| {
      InvertIsRotation(x, inv);
      RotatedKeepsPitchClasses(x, inv % |x|);
    }
  }

  lemma RotatedKeepsPitchClasses(x: seq<int>, m: nat)
    requires m < |x|
    ensures multiset(PitchClasses(Rotated(x, m))) == multiset(PitchClasses(x))
  {
    RotatedSplit(x, m);
    assert PitchClasses(Raised(x[..m])) == PitchClasses(x[..m]);
    PitchClassesAppend(x[m..], Raised(x[..m]));
    PitchClassesAppend(x[..m], x[m..]);
    assert x[..m] + x[m..] == x;
  }

  /** The `(inv mod k)`-th original offset comes first. It need not be the lowest: an
      earlier offset raised by an octave can sound below it. */
  lemma InvertFirst(x: seq<int>, inv: Inversion)
    requires 1 <= |x| <= 5
    ensures Invert(x, inv).value[0] == x[inv % |x|]
  {
    if 2 <= |x| {
      InvertIsRotation(x, inv);
      RotatedSplit(x, inv % |x|);
    }
  }

  /** Offsets between `lo` and `hi` stay between `lo` and `hi + 12` after inversion. */
  lemma InvertBounds(x: seq<int>, inv: Inversion, lo: int, hi: int)
    requires |x| <= 5
    requires forall i :: 0 <= i < |x| ==> lo <= x[i] <= hi
    ensures forall i :: 0 <= i < |x| ==> lo <= Invert(x, inv).value[i] <= hi + 12
  {
    if 2 <= |x| {
      InvertIsRotation(x, inv);
      RotatedSplit(x, inv % |x|);
    }
  }

  /** `can_invert`: the chord type has more offsets than the inversion's ordinal. */
  predicate CanInvert(c: Chord, inv: Inversion) {
    |Intervals(c)| > inv
  }

  /** An inversion the chord type supports is realised as requested (the offset at
      position `inv` comes first); any other one wraps around to `inv mod k`,
      which is why building the catalog without `can_invert` only adds duplicates. */
  lemma CanInvertMeansNoWrap(c: Chord, inv: Inversion)
    ensures CanInvert(c, inv) <==> inv % |Intervals(c)| == inv
    ensures CanInvert(c, inv) ==> Invert(Intervals(c), inv).value[0] == Intervals(c)[inv]
    ensures Invert(Intervals(c), inv) == Invert(Intervals(c), inv % |Intervals(c)|)
  {
    InvertWraps(Intervals(c), inv);
  }

  /** Inversion `inv` of an offset list of length `k` is inversion `inv mod k`. */
  lemma InvertWraps(x: seq<int>, inv: Inversion)
    requires 1 <= |x| <= 5
    ensures |x| > inv <==> inv % |x| == inv
    ensures |x| > inv ==> Invert(x, inv).value[0] == x[inv]
    ensures Invert(x, inv) == Invert(x, inv % |x|)
  {
    InvertFirst(x, inv);
    var m: Inversion := inv % |x|;
    SmallMod(inv, |x|);
    if 2 <= |x| {
      InvertIsRotation(x, inv);
      InvertIsRotation(x, m);
    }
  }

  /** Reducing an inversion number modulo a chord size of at most five. */
  lemma SmallMod(inv: Inversion, k: int)
    requires 1 <= k <= 5
    ensures (inv % k) % k == inv % k
    ensures k > inv <==> inv % k == inv
  {
    if k == 1 {
    } else if k == 2 {
    } else if k == 3 {
    } else if k == 4 {
    } else {
    }
  }

  /** A chord whose first offset is a whole number of octaves still has such an
      offset after inversion: the root's pitch class is never lost. */
  lemma InvertPlaysRootClass(x: seq<int>, inv: Inversion) returns (j: nat)
    requires 1 <= |x| <= 5 && x[0] % 12 == 0
    ensures j < |x| && Invert(x, inv).value[j] % 12 == 0
  {
    var v := Invert(x, inv).value;
    InvertKeepsPitchClasses(x, inv);
    assert PitchClasses(x)[0] == 0;
    assert 0 in multiset(PitchClasses(v));
    var i :| 0 <= i < |v| && PitchClasses(v)[i] == 0;
    j := i;
  }
}
