/** Chord catalog (NotesKeys.cpp): the map from root to every (chord type, inversion)
    on that root, filled once by `init_chords`, and the two `get_chords` queries. */
module Catalog {
  import opened Results
  import opened Notes
  import opened ChordTypes
  import opened Inversions
  import opened Scales
  import opened Chords

  /** `init_chords` enumerates octaves 0 .. 7 ... */
  const OctaveCount: nat := 8
  /** ... that is, the roots C0 (note number 12) up to B7 (note number 107). */
  const LowestRootKey: int := 12
  const KeyLimit: int := LowestRootKey + 12 * OctaveCount
  /** Every chord type in every inversion: 93 * 5 entries per root. */
  const BucketSize: nat := ChordCount * InversionCount

  /** Is `key` the note number of a root that `init_chords` enumerates? */
  predicate IsRootKey(key: int) {
    LowestRootKey <= key < KeyLimit
  }

  /** The entry `init_chords` emits at position `i` of a root's bucket:
      chord type `i / 5` in inversion `i % 5`. */
  function Entry(root: NoteInfo, i: nat): ChordInfo
    requires i < BucketSize
  {
    ChordInfo(root, i / InversionCount, i % InversionCount)
  }

  /** The first `n` entries of a root's bucket. */
  function BucketPrefix(root: NoteInfo, n: nat): (r: seq<ChordInfo>)
    requires n <= BucketSize
    ensures |r| == n
  {
    seq(n, i requires 0 <= i < n => Entry(root, i))
  }

  /** A complete bucket, as `init_chords` leaves it: no `can_invert` pruning. */
  function Bucket(root: NoteInfo): seq<ChordInfo> {
    BucketPrefix(root, BucketSize)
  }

  /** The catalog once the roots below note number `hi` have been filled in, one root
      after another. */
  ghost function CatalogBelow(hi: int): map<int, seq<ChordInfo>>
    decreases hi - LowestRootKey
  {
    if hi <= LowestRootKey then map[]
    else CatalogBelow(hi - 1)[hi - 1 := Bucket(FromMidi(hi - 1))]
  }

  /** The roots below `hi` each have their complete bucket, and no other key is present. */
  lemma {:induction false} CatalogBelowContents(hi: int)
    ensures forall key :: key in CatalogBelow(hi) <==> LowestRootKey <= key < hi
    ensures forall key :: key in CatalogBelow(hi) ==> CatalogBelow(hi)[key] == Bucket(FromMidi(key))
    decreases hi - LowestRootKey
  {
    if hi > LowestRootKey {
      CatalogBelowContents(hi - 1);
    }
  }

  /** The catalog after `init_chords`. */
  ghost function FullCatalog(): map<int, seq<ChordInfo>> {
    CatalogBelow(KeyLimit)
  }

  /** Every chord in `s` has a root with a non-negative note number. */
  predicate Rooted(s: seq<ChordInfo>) {
    forall i :: 0 <= i < |s| ==> s[i].root.octave >= -1
  }

  /** The root-position filter of `get_chords(root, false)`, in order. */
  function RootPositions(s: seq<ChordInfo>): (r: seq<ChordInfo>)
    ensures forall c :: c in r <==> c in s && c.inv == RootPosition
    ensures |r| <= |s|
  {
    if s == [] then []
    else
      var last := s[|s| - 1];
      RootPositions(s[..|s| - 1]) + (if last.inv == RootPosition then [last] else [])
  }

  /** The filter of `get_chords(key, include_inversions)`, in order: chords that fit
      the key and, unless inversions are included, are in root position. */
  function KeyMatches(k: KeyInfo, includeInversions: bool, s: seq<ChordInfo>): (r: seq<ChordInfo>)
    ensures |r| <= |s|
  {
    if s == [] then []
    else
      var last := s[|s| - 1];
      KeyMatches(k, includeInversions, s[..|s| - 1]) + (if KeyKeeps(k, includeInversions, last) then [last] else [])
  }

  /** Whether `get_chords(key, include_inversions)` keeps chord `c`. */
  predicate KeyKeeps(k: KeyInfo, includeInversions: bool, c: ChordInfo) {
    c.root.octave >= -1 && Fits(c, k) && (includeInversions || c.inv == RootPosition)
  }

  /** The key query keeps exactly the chords that fit the key (and are in root position
      unless inversions are included). */
  lemma {:induction false} KeyMatchesMembers(k: KeyInfo, includeInversions: bool, s: seq<ChordInfo>)
    ensures forall c :: c in KeyMatches(k, includeInversions, s) <==> c in s && KeyKeeps(k, includeInversions, c)
    decreases |s|
  {
    if s != [] {
      var front := s[..|s| - 1];
      KeyMatchesMembers(k, includeInversions, front);
      assert s == front + [s[|s| - 1]];
    }
  }

  /** The buckets of `keys`, one after another. */
  ghost function Concat(m: map<int, seq<ChordInfo>>, keys: seq<int>): seq<ChordInfo>
    requires forall i :: 0 <= i < |keys| ==> keys[i] in m
  {
    if keys == [] then []
    else Concat(m, keys[..|keys| - 1]) + m[keys[|keys| - 1]]
  }

  /** The least element of a non-empty finite set of integers. */
  ghost function Least(s: set<int>): (least: int)
    requires s != {}
    ensures least in s && forall x :: x in s ==> least <= x
    decreases |s|
  {
    assert exists y :: y in s by {
      if forall y :: y !in s {
        assert false;
      }
    }
    var y :| y in s;
    var rest := s - {y};
    assert forall x :: x in s ==> x == y || x in rest;
    if rest == {} then y
    else
      var m := Least(rest);
      if y < m then y else m
  }

  /** The keys of a set in ascending order (the iteration order of `std::map`); the order
      is proved by `AscendingKeysAscending`. */
  ghost function AscendingKeys(s: set<int>): (r: seq<int>)
    ensures forall x :: x in r <==> x in s
    ensures |r| == |s|
    decreases |s|
  {
    if s == {} then []
    else [Least(s)] + AscendingKeys(s - {Least(s)})
  }

  /** `AscendingKeys` lists the keys in strictly ascending order. */
  lemma {:induction false} AscendingKeysAscending(s: set<int>)
    ensures forall i, j :: 0 <= i < j < |AscendingKeys(s)| ==> AscendingKeys(s)[i] < AscendingKeys(s)[j]
    decreases |s|
  {
    if s != {} {
      var least := Least(s);
      AscendingKeysAscending(s - {least});
      ConsAscending(least, AscendingKeys(s - {least}), s - {least});
    }
  }

  /** A key below every key of an ascending list can go in front of it. */
  lemma ConsAscending(least: int, rest: seq<int>, s: set<int>)
    requires forall x :: x in rest ==> x in s
    requires forall x :: x in s ==> least < x
    requires forall i, j :: 0 <= i < j < |rest| ==> rest[i] < rest[j]
    ensures forall i, j :: 0 <= i < j < |[least] + rest| ==> ([least] + rest)[i] < ([least] + rest)[j]
  {
    forall i, j | 0 <= i < j < |[least] + rest|
      ensures ([least] + rest)[i] < ([least] + rest)[j]
    {
      if i == 0 {
        assert rest[j - 1] in rest;
      } else {
        assert rest[i - 1] < rest[j - 1];
      }
    }
  }

  /** Every entry of a map, bucket after bucket in ascending key order. */
  ghost function Entries(m: map<int, seq<ChordInfo>>): seq<ChordInfo> {
    Concat(m, AscendingKeys(m.Keys))
  }

  /** The least key of a set comes first in ascending order. */
  lemma AscendingKeysLeast(s: set<int>, least: int)
    requires least in s && forall x :: x in s ==> least <= x
    ensures AscendingKeys(s) == [least] + AscendingKeys(s - {least})
  {
    assert Least(s) == least;
  }

  /** The global `chords` map together with the `std::once_flag` that guards its construction. */
  class ChordCatalog {
    /** `std::map<note_info, std::vector<chord_info>>`; `note_info::operator<`
        compares note numbers, so the map is keyed by the root's note number. */
    var chords: map<int, seq<ChordInfo>>
    /** Whether `std::call_once(chords_initialized, ...)` has run. */
    var initialized: bool

    /** Empty before `init_chords`, complete after it. */
    ghost predicate Valid()
      reads this
    {
      if initialized then chords == FullCatalog() else chords == map[]
    }

    /** The catalog at program start. */
    constructor ()
      ensures Valid() && !initialized
    {
      chords := map[];
      initialized := false;
    }

    /** `init_chords`: on the first call, for every octave 0 .. 7 and pitch class, an
        empty bucket filled with every chord type in every inversion; afterwards nothing. */
    method InitChords()
      requires Valid()
      modifies this
      ensures Valid() && initialized
      ensures old(initialized) ==> chords == old(chords)
    {
      if initialized {
        return;
      }
      FillCatalog();
      initialized := true;
    }

    /** The loops of `init_chords` over octaves 0 .. 7 and the twelve pitch classes. */
    method FillCatalog()
      requires chords == map[]
      modifies this
      ensures chords == FullCatalog()
      ensures initialized == old(initialized)
    {
      var octave := 0;
      while octave < OctaveCount
        invariant 0 <= octave <= OctaveCount
        invariant chords == CatalogBelow(LowestRootKey + 12 * octave)
        invariant initialized == old(initialized)
      {
        var note := 0;
        while note < PitchClassCount
          invariant 0 <= note <= PitchClassCount
          invariant chords == CatalogBelow(LowestRootKey + 12 * octave + note)
          invariant initialized == old(initialized)
        {
          var root := NoteInfo(note, octave);
          AddRoot(root);
          CatalogBelowGrows(root);
          note := note + 1;
        }
        octave := octave + 1;
      }
    }

    /** `get_chords(root, include_inversions)`: builds the catalog if need be, then
        the root's bucket (all of it, or its root-position chords in catalog order);
        `chords.at` fails for a root outside C0 .. B7. */
    method ChordsForRoot(root: NoteInfo, includeInversions: bool) returns (r: Result<seq<ChordInfo>>)
      requires Valid()
      modifies this
      ensures Valid() && initialized
      ensures old(initialized) ==> chords == old(chords)
      ensures IsRootKey(ToMidi(root)) ==>
        r == Ok(if includeInversions then Bucket(root) else RootPositions(Bucket(root)))
      ensures !IsRootKey(ToMidi(root)) ==> r == Err(CatalogMiss(ToMidi(root)))
    {
      InitChords();
      CatalogBelowContents(KeyLimit);
      var key := ToMidi(root);
      if key !in chords {
        return Err(CatalogMiss(key));
      }
      FromMidiToMidi(root);
      var bucket := chords[key];
      assert bucket == Bucket(root);
      if includeInversions {
        return Ok(bucket);
      }
      var result := KeepRootPositions(bucket);
      return Ok(result);
    }

    /** The filter loop of `get_chords(root, false)`: the root-position chords of a
        bucket, in order. */
    static method KeepRootPositions(bucket: seq<ChordInfo>) returns (result: seq<ChordInfo>)
      ensures result == RootPositions(bucket)
    {
      result := [];
      var i := 0;
      while i < |bucket|
        invariant 0 <= i <= |bucket|
        invariant result == RootPositions(bucket[..i])
      {
        assert bucket[..i + 1][..i] == bucket[..i];
        if bucket[i].inv == RootPosition {
          result := result + [bucket[i]];
        }
        i := i + 1;
      }
      assert bucket[..|bucket|] == bucket;
    }

    /** `get_chords(key, include_inversions)`: every catalog chord, bucket after bucket in
        ascending root order, that fits the key (and is in root position unless inversions
        are included). It reads the catalog as it is and does not build it. */
    method ChordsInKey(k: KeyInfo, includeInversions: bool) returns (r: seq<ChordInfo>)
      requires Valid()
      ensures r == KeyMatches(k, includeInversions, Entries(chords))
      ensures !initialized ==> r == []
    {
      BucketsRooted(chords);
      r := [];
      var remaining := chords.Keys;
      ghost var visited: seq<int> := [];
      while remaining != {}
        invariant remaining <= chords.Keys
        invariant visited + AscendingKeys(remaining) == AscendingKeys(chords.Keys)
        invariant forall i :: 0 <= i < |visited| ==> visited[i] in chords
        invariant r == KeyMatches(k, includeInversions, Concat(chords, visited))
        decreases |remaining|
      {
        var key :| key in remaining && forall other :: other in remaining ==> key <= other;
        VisitLeast(visited, remaining, key, AscendingKeys(chords.Keys));
        MatchesGrow(k, includeInversions, chords, visited, key);
        r := AppendMatches(k, includeInversions, chords[key], r);
        visited := visited + [key];
        remaining := remaining - {key};
      }
      assert visited + [] == visited;
      assert visited == AscendingKeys(chords.Keys);
    }

    /** The body of the outer loop of `get_chords(key, include_inversions)`: scan one
        bucket in order, appending each chord that passes the filter to `prefix`. */
    static method AppendMatches(k: KeyInfo, includeInversions: bool, bucket: seq<ChordInfo>, prefix: seq<ChordInfo>)
      returns (r: seq<ChordInfo>)
      requires Rooted(bucket)
      ensures r == prefix + KeyMatches(k, includeInversions, bucket)
    {
      r := prefix;
      var i := 0;
      while i < |bucket|
        invariant 0 <= i <= |bucket|
        invariant r == prefix + KeyMatches(k, includeInversions, bucket[..i])
      {
        var c := bucket[i];
        KeyMatchesGrows(k, includeInversions, bucket, i);
        var fits := ChordFitsKey(c, k);
        if fits && (includeInversions || c.inv == RootPosition) {
          r := r + [c];
        }
        i := i + 1;
      }
      assert bucket[..|bucket|] == bucket;
    }

    /** One pass of the two outer loops of `init_chords`: a fresh bucket for `root`,
        filled with every chord type in every inversion, in that order. */
    method AddRoot(root: NoteInfo)
      modifies this
      ensures chords == old(chords)[ToMidi(root) := Bucket(root)]
      ensures initialized == old(initialized)
    {
      var key := ToMidi(root);
      chords := chords[key := []];
      assert BucketPrefix(root, 0) == [];
      var c := 0;
      while c < ChordCount
        invariant 0 <= c <= ChordCount
        invariant chords == old(chords)[key := BucketPrefix(root, c * InversionCount)]
        invariant initialized == old(initialized)
      {
        var inv := 0;
        while inv < InversionCount
          invariant 0 <= inv <= InversionCount
          invariant chords == old(chords)[key := BucketPrefix(root, c * InversionCount + inv)]
          invariant initialized == old(initialized)
        {
          BucketPrefixGrows(root, c, inv);
          chords := chords[key := chords[key] + [ChordInfo(root, c, inv)]];
          inv := inv + 1;
        }
        assert c * InversionCount + InversionCount == (c + 1) * InversionCount;
        c := c + 1;
      }
    }
  }

  /** Visiting one more key appends its bucket. */
  lemma ConcatGrows(m: map<int, seq<ChordInfo>>, keys: seq<int>, key: int)
    requires forall i :: 0 <= i < |keys| ==> keys[i] in m
    requires key in m
    ensures Concat(m, keys + [key]) == Concat(m, keys) + m[key]
  {
    assert (keys + [key])[..|keys|] == keys;
  }

  /** Scanning one more chord extends the key filter by that chord or by nothing. */
  lemma KeyMatchesGrows(k: KeyInfo, includeInversions: bool, s: seq<ChordInfo>, i: nat)
    requires i < |s|
    ensures KeyMatches(k, includeInversions, s[..i + 1])
         == KeyMatches(k, includeInversions, s[..i]) + (if KeyKeeps(k, includeInversions, s[i]) then [s[i]] else [])
  {
    assert s[..i + 1][..i] == s[..i];
  }

  /** The key filter keeps the order of its input: filtering a concatenation
      concatenates the filtered parts. */
  lemma {:induction false} KeyMatchesAppend(k: KeyInfo, includeInversions: bool, a: seq<ChordInfo>, b: seq<ChordInfo>)
    ensures KeyMatches(k, includeInversions, a + b)
         == KeyMatches(k, includeInversions, a) + KeyMatches(k, includeInversions, b)
    decreases |b|
  {
    if b != [] {
      var b' := b[..|b| - 1];
      assert (a + b)[..|a + b| - 1] == a + b';
      KeyMatchesAppend(k, includeInversions, a, b');
    } else {
      assert a + b == a;
    }
  }

  /** Visiting one more key appends the matches of its bucket. */
  lemma MatchesGrow(k: KeyInfo, includeInversions: bool, m: map<int, seq<ChordInfo>>, keys: seq<int>, key: int)
    requires forall i :: 0 <= i < |keys| ==> keys[i] in m
    requires key in m
    ensures forall i :: 0 <= i < |keys + [key]| ==> (keys + [key])[i] in m
    ensures KeyMatches(k, includeInversions, Concat(m, keys + [key]))
         == KeyMatches(k, includeInversions, Concat(m, keys)) + KeyMatches(k, includeInversions, m[key])
  {
    ConcatGrows(m, keys, key);
    KeyMatchesAppend(k, includeInversions, Concat(m, keys), m[key]);
  }

  /** Taking the least remaining key moves it from the keys still to visit to the visited ones. */
  lemma VisitLeast(visited: seq<int>, remaining: set<int>, key: int, all: seq<int>)
    requires visited + AscendingKeys(remaining) == all
    requires key in remaining && forall other :: other in remaining ==> key <= other
    ensures (visited + [key]) + AscendingKeys(remaining - {key}) == all
  {
    AscendingKeysLeast(remaining, key);
  }

  /** Every chord in a catalog in a valid state has a root with a non-negative note number. */
  lemma BucketsRooted(m: map<int, seq<ChordInfo>>)
    requires m == map[] || m == FullCatalog()
    ensures forall key :: key in m ==> Rooted(m[key])
  {
    CatalogBelowContents(KeyLimit);
  }

  /** Appending chord type `c` in inversion `inv` extends the bucket by one entry. */
  lemma BucketPrefixGrows(root: NoteInfo, c: Chord, inv: Inversion)
    ensures BucketPrefix(root, c * InversionCount + inv) + [ChordInfo(root, c, inv)]
         == BucketPrefix(root, c * InversionCount + inv + 1)
  {
    assert Entry(root, c * InversionCount + inv) == ChordInfo(root, c, inv);
  }

  /** Adding a root's complete bucket extends the catalog to the next note number. */
  lemma CatalogBelowGrows(root: NoteInfo)
    requires root.octave >= 0
    ensures CatalogBelow(ToMidi(root))[ToMidi(root) := Bucket(root)] == CatalogBelow(ToMidi(root) + 1)
  {
    FromMidiToMidi(root);
  }

  // ---------------------------------------------------------------------------
  // What the catalog holds

  /** The integers `lo .. hi - 1`. */
  ghost function Range(lo: int, hi: int): (r: set<int>)
    ensures forall key :: key in r <==> lo <= key < hi
    decreases hi - lo
  {
    if hi <= lo then {} else {lo} + Range(lo + 1, hi)
  }

  lemma {:induction false} RangeSize(lo: int, hi: int)
    requires lo <= hi
    ensures |Range(lo, hi)| == hi - lo
    decreases hi - lo
  {
    if lo < hi {
      RangeSize(lo + 1, hi);
      assert lo !in Range(lo + 1, hi);
    }
  }

  /** The built catalog has one bucket per root C0 .. B7: 96 roots, each bucket keyed by its
      root's note number and holding 465 chords on that root. */
  lemma FullCatalogShape()
    ensures FullCatalog().Keys == Range(LowestRootKey, KeyLimit)
    ensures |FullCatalog()| == 96
    ensures forall key :: key in FullCatalog() <==> IsRootKey(key)
    ensures forall key :: key in FullCatalog() ==>
      |FullCatalog()[key]| == 465 &&
      forall i :: 0 <= i < |FullCatalog()[key]| ==> ToMidi(FullCatalog()[key][i].root) == key
  {
    CatalogBelowContents(KeyLimit);
    assert FullCatalog().Keys == Range(LowestRootKey, KeyLimit);
    RangeSize(LowestRootKey, KeyLimit);
    forall key | key in FullCatalog()
      ensures forall i :: 0 <= i < |FullCatalog()[key]| ==> ToMidi(FullCatalog()[key][i].root) == key
    {
      ToMidiFromMidi(key);
    }
  }

  /** A root is in the catalog exactly when its octave is 0 .. 7. */
  lemma RootKeyIffOctave(root: NoteInfo)
    ensures IsRootKey(ToMidi(root)) <==> 0 <= root.octave < OctaveCount
  {
  }

  /** A bucket lists, on its root, every chord type in every inversion, chord type by
      chord type: chord type `c` in inversion `v` sits at position `5 * c + v`. */
  lemma BucketLayout(root: NoteInfo)
    ensures |Bucket(root)| == ChordCount * InversionCount
    ensures forall c: Chord, v: Inversion :: Bucket(root)[c * InversionCount + v] == ChordInfo(root, c, v)
    ensures forall x: ChordInfo :: x in Bucket(root) <==> x.root == root
  {
    forall c: Chord, v: Inversion
      ensures Bucket(root)[c * InversionCount + v] == ChordInfo(root, c, v)
    {
      assert Entry(root, c * InversionCount + v) == ChordInfo(root, c, v);
    }
    forall x: ChordInfo | x.root == root
      ensures x in Bucket(root)
    {
      assert Bucket(root)[x.chordType * InversionCount + x.inv] == x;
    }
  }

  /** `init_chords` does not prune with `can_invert`: an inversion a chord type does not have
      plays exactly the notes of the smaller inversion it wraps around to. */
  lemma UnprunedInversionRepeats(root: NoteInfo, c: Chord, v: Inversion)
    requires root.octave >= -1
    requires !CanInvert(c, v)
    ensures v % |Intervals(c)| < v
    ensures MidiNotes(ChordInfo(root, c, v)) == MidiNotes(ChordInfo(root, c, v % |Intervals(c)|))
  {
    CanInvertMeansNoWrap(c, v);
  }

  /** The root-position chords of a bucket's first `n` chord types, in chord-type order. */
  lemma {:induction false} RootPositionsOfPrefix(root: NoteInfo, n: nat)
    requires n <= ChordCount
    ensures RootPositions(BucketPrefix(root, n * InversionCount))
         == seq(n, i requires 0 <= i < n => ChordInfo(root, i, RootPosition))
  {
    if n > 0 {
      var c: Chord := n - 1;
      RootPositionsOfPrefix(root, c);
      BucketBlock(root, c);
      RootPositionsAppend(BucketPrefix(root, c * InversionCount), [ChordInfo(root, c, 0)] + Inverted(root, c));
      RootPositionsOfBlock(root, c);
      assert seq(c, i requires 0 <= i < c => ChordInfo(root, i, RootPosition)) + [ChordInfo(root, c, RootPosition)]
          == seq(n, i requires 0 <= i < n => ChordInfo(root, i, RootPosition));
    } else {
      assert BucketPrefix(root, 0) == [];
    }
  }

  /** Chord type `c` contributes its five inversions, in order, to its root's bucket. */
  lemma BucketBlock(root: NoteInfo, c: Chord)
    ensures BucketPrefix(root, (c + 1) * InversionCount)
         == BucketPrefix(root, c * InversionCount)
          + ([ChordInfo(root, c, 0)] + Inverted(root, c))
  {
    var lo := c * InversionCount;
    BucketPrefixGrows(root, c, 0);
    BucketPrefixGrows(root, c, 1);
    BucketPrefixGrows(root, c, 2);
    BucketPrefixGrows(root, c, 3);
    BucketPrefixGrows(root, c, 4);
    assert BucketPrefix(root, lo + 5)
        == BucketPrefix(root, lo) + [ChordInfo(root, c, 0), ChordInfo(root, c, 1), ChordInfo(root, c, 2),
                                     ChordInfo(root, c, 3), ChordInfo(root, c, 4)];
  }

  /** Of one chord type's five inversions only the first is in root position. */
  lemma RootPositionsOfBlock(root: NoteInfo, c: Chord)
    ensures RootPositions([ChordInfo(root, c, 0)] + Inverted(root, c)) == [ChordInfo(root, c, RootPosition)]
  {
    var rest := Inverted(root, c);
    RootPositionsAppend([ChordInfo(root, c, 0)], rest);
    NoRootPositions(rest);
    assert RootPositions([ChordInfo(root, c, 0)]) == [ChordInfo(root, c, RootPosition)] by {
      assert [ChordInfo(root, c, 0)][..0] == [];
    }
  }

  /** A run of chords none of which is in root position is filtered out entirely. */
  lemma {:induction false} NoRootPositions(s: seq<ChordInfo>)
    requires forall i :: 0 <= i < |s| ==> s[i].inv != RootPosition
    ensures RootPositions(s) == []
  {
    if s != [] {
      NoRootPositions(s[..|s| - 1]);
    }
  }

  /** The four inversions other than root position of chord type `c` on `root`. */
  function Inverted(root: NoteInfo, c: Chord): seq<ChordInfo> {
    [ChordInfo(root, c, FirstInversion), ChordInfo(root, c, SecondInversion),
     ChordInfo(root, c, ThirdInversion), ChordInfo(root, c, FourthInversion)]
  }

  /** The root-position filter keeps the order of its input. */
  lemma {:induction false} RootPositionsAppend(a: seq<ChordInfo>, b: seq<ChordInfo>)
    ensures RootPositions(a + b) == RootPositions(a) + RootPositions(b)
    decreases |b|
  {
    if b != [] {
      var b' := b[..|b| - 1];
      assert (a + b)[..|a + b| - 1] == a + b';
      RootPositionsAppend(a, b');
    } else {
      assert a + b == a;
    }
  }

  /** `get_chords(root, false)` yields each of the 93 chord types once, in root position,
      in chord-type order. */
  lemma RootQueryWithoutInversions(root: NoteInfo)
    ensures RootPositions(Bucket(root)) == seq(ChordCount, i requires 0 <= i < ChordCount => ChordInfo(root, i, RootPosition))
    ensures |RootPositions(Bucket(root))| == 93
  {
    RootPositionsOfPrefix(root, ChordCount);
  }

  /** Every chord `get_chords(root, false)` yields plays the root itself as its first note. */
  lemma RootQueryPlaysRoot(root: NoteInfo, i: nat)
    requires root.octave >= -1
    requires i < |RootPositions(Bucket(root))|
    ensures RootPositions(Bucket(root))[i].root == root
    ensures MidiNotes(RootPositions(Bucket(root))[i])[0] == ToMidi(root)
    ensures HasNote(RootPositions(Bucket(root))[i], root)
  {
    RootQueryWithoutInversions(root);
    RootPositionPlaysRoot(RootPositions(Bucket(root))[i]);
  }

  /** Without inversions, the key query yields exactly the root-position chords of its
      result with inversions, in the same order. */
  lemma {:induction false} KeyQueryWithoutInversions(k: KeyInfo, s: seq<ChordInfo>)
    ensures KeyMatches(k, false, s) == RootPositions(KeyMatches(k, true, s))
    decreases |s|
  {
    if s != [] {
      var s' := s[..|s| - 1];
      var last := s[|s| - 1];
      KeyQueryWithoutInversions(k, s');
      var kept := if KeyKeeps(k, true, last) then [last] else [];
      assert KeyMatches(k, true, s) == KeyMatches(k, true, s') + kept;
      RootPositionsAppend(KeyMatches(k, true, s'), kept);
      assert RootPositions(kept) == if last.inv == RootPosition then kept else [];
    }
  }

  // ---------------------------------------------------------------------------
  // Iteration order of the key query

  /** Chords listed in non-decreasing order of their roots' note numbers. */
  predicate RootsAscending(s: seq<ChordInfo>) {
    forall i, j :: 0 <= i < j < |s| ==> ToMidi(s[i].root) <= ToMidi(s[j].root)
  }

  /** The roots C0 .. B7 in ascending order are the keys `12 .. 107` one by one. */
  lemma {:induction false} AscendingRange(lo: int, hi: int)
    requires lo <= hi
    ensures |AscendingKeys(Range(lo, hi))| == hi - lo
    ensures forall i :: 0 <= i < hi - lo ==> AscendingKeys(Range(lo, hi))[i] == lo + i
    decreases hi - lo
  {
    if lo < hi {
      RangeStep(lo, hi);
      AscendingRange(lo + 1, hi);
      CountingFrom(lo, AscendingKeys(Range(lo + 1, hi)));
    } else {
      assert Range(lo, hi) == {};
    }
  }

  /** Putting `lo` in front of `lo + 1, lo + 2, ...` counts up from `lo`. */
  lemma CountingFrom(lo: int, rest: seq<int>)
    requires forall i :: 0 <= i < |rest| ==> rest[i] == lo + 1 + i
    ensures forall i :: 0 <= i <= |rest| ==> ([lo] + rest)[i] == lo + i
  {
  }

  /** The least of `lo .. hi - 1` comes first. */
  lemma RangeStep(lo: int, hi: int)
    requires lo < hi
    ensures AscendingKeys(Range(lo, hi)) == [lo] + AscendingKeys(Range(lo + 1, hi))
  {
    AscendingKeysLeast(Range(lo, hi), lo);
    assert Range(lo, hi) - {lo} == Range(lo + 1, hi);
  }

  /** Buckets visited in ascending key order list their chords in ascending root order
      when every bucket holds chords on the root its key names. */
  lemma {:induction false} ConcatAscending(m: map<int, seq<ChordInfo>>, keys: seq<int>)
    requires forall i :: 0 <= i < |keys| ==> keys[i] in m
    requires forall key :: key in m ==> forall i :: 0 <= i < |m[key]| ==> ToMidi(m[key][i].root) == key
    requires forall i, j :: 0 <= i < j < |keys| ==> keys[i] < keys[j]
    ensures RootsAscending(Concat(m, keys))
    ensures keys != [] ==> forall i :: 0 <= i < |Concat(m, keys)| ==> ToMidi(Concat(m, keys)[i].root) <= keys[|keys| - 1]
    decreases |keys|
  {
    if keys != [] {
      var front := keys[..|keys| - 1];
      var key := keys[|keys| - 1];
      ConcatAscending(m, front);
      var a := Concat(m, front);
      var b := m[key];
      assert Concat(m, keys) == a + b;
      forall i | 0 <= i < |a|
        ensures ToMidi(a[i].root) <= key
      {
        assert front[|front| - 1] < key;
      }
    }
  }

  /** The key query lists its chords in ascending root order, as `std::map` iterates. */
  lemma KeyQueryRootsAscending(k: KeyInfo, includeInversions: bool)
    ensures RootsAscending(KeyMatches(k, includeInversions, Entries(FullCatalog())))
  {
    FullCatalogEntriesAscending();
    KeyMatchesKeepsOrder(k, includeInversions, Entries(FullCatalog()));
  }

  /** The built catalog, iterated in key order, lists its chords in ascending root order. */
  lemma FullCatalogEntriesAscending()
    ensures RootsAscending(Entries(FullCatalog()))
  {
    var m := FullCatalog();
    FullCatalogShape();
    var keys := AscendingKeys(m.Keys);
    AscendingRange(LowestRootKey, KeyLimit);
    ConcatAscending(m, keys);
  }

  /** The key filter keeps chords in their input order. */
  lemma {:induction false} KeyMatchesKeepsOrder(k: KeyInfo, includeInversions: bool, s: seq<ChordInfo>)
    requires RootsAscending(s)
    ensures RootsAscending(KeyMatches(k, includeInversions, s))
    decreases |s|
  {
    if s != [] {
      var s' := s[..|s| - 1];
      var last := s[|s| - 1];
      KeyMatchesKeepsOrder(k, includeInversions, s');
      var front := KeyMatches(k, includeInversions, s');
      KeyMatchesMembers(k, includeInversions, s');
      forall i | 0 <= i < |front|
        ensures ToMidi(front[i].root) <= ToMidi(last.root)
      {
        assert front[i] in s';
        var j :| 0 <= j < |s'| && s'[j] == front[i];
      }
    }
  }

  /** A chord of a visited bucket is among the visited entries. */
  lemma {:induction false} ConcatContains(m: map<int, seq<ChordInfo>>, keys: seq<int>, key: int, x: ChordInfo)
    requires forall i :: 0 <= i < |keys| ==> keys[i] in m
    requires key in keys && key in m && x in m[key]
    ensures x in Concat(m, keys)
    decreases |keys|
  {
    var front := keys[..|keys| - 1];
    if keys[|keys| - 1] != key {
      assert key in front;
      ConcatContains(m, front, key, x);
    }
  }

  /** Once the catalog is built, the key query misses no chord on a root C0 .. B7 that fits
      the key (in root position, unless inversions are included). */
  lemma KeyQueryComplete(k: KeyInfo, includeInversions: bool, c: ChordInfo)
    requires 0 <= c.root.octave < OctaveCount
    requires Fits(c, k) && (includeInversions || c.inv == RootPosition)
    ensures c in KeyMatches(k, includeInversions, Entries(FullCatalog()))
  {
    var m := FullCatalog();
    var key := ToMidi(c.root);
    FromMidiToMidi(c.root);
    CatalogBelowContents(KeyLimit);
    assert m[key] == Bucket(c.root);
    BucketLayout(c.root);
    ConcatContains(m, AscendingKeys(m.Keys), key, c);
    KeyMatchesMembers(k, includeInversions, Entries(m));
  }
}
