/**
 StringPiece: searches whose loops count down through zero in an unsigned 64-bit index, and a
 three-way comparison that squeezes a length difference into a 32-bit int.
 */
module StringPiece {
  /** Characters compare as unsigned bytes. */
  type Byte = x: int | 0 <= x < 256

  type Piece = seq<Byte>

  const NPOS: nat := 0xFFFF_FFFF_FFFF_FFFF

  /** The postfix decrement of a size_t. */
  function Dec(x: nat): nat {
    if x == 0 then NPOS else x - 1
  }

  // ---- searches ----

  predicate MatchAt(s: Piece, t: Piece, i: nat) {
    i + |t| <= |s| && s[i..i + |t|] == t
  }

  /** The character at i is one of t, or is none of t. */
  predicate Hit(s: Piece, t: Piece, wanted: bool, i: nat) {
    i < |s| && (s[i] in t <==> wanted)
  }

  /** r is the greatest index up to pos with the property, npos if there is none. */
  ghost predicate IsLast(r: nat, pos: nat, good: nat -> bool) {
    if r == NPOS then forall i: nat :: 0 <= i <= pos ==> !good(i)
    else good(r) && r <= pos && forall i: nat :: r < i <= pos ==> !good(i)
  }

  /** r is the least index from pos on with the property, npos if there is none. */
  ghost predicate IsFirst(r: nat, pos: nat, good: nat -> bool) {
    if r == NPOS then forall i: nat :: pos <= i ==> !good(i)
    else good(r) && pos <= r && forall i: nat :: pos <= i < r ==> !good(i)
  }

  method RFind(s: Piece, t: Piece, pos: nat) returns (r: nat)
    requires |s| < NPOS && pos <= NPOS
    ensures IsLast(r, pos, (i: nat) => MatchAt(s, t, i))
  {
    if |t| <= |s| {
      var p: nat := if |s| - |t| < pos then |s| - |t| else pos;
      var more := true;
      while more
        invariant more ==> p <= pos && p + |t| <= |s|
        invariant forall i: nat :: (more ==> p < i) && 0 <= i <= pos ==> !MatchAt(s, t, i)
        decreases more, p
      {
        if s[p..p + |t|] == t {
          return p;
        }
        more := p > 0;
        p := Dec(p);
      }
    }
    r := NPOS;
  }

  method RFindChar(s: Piece, c: Byte, pos: nat) returns (r: nat)
    requires |s| < NPOS && pos <= NPOS
    ensures IsLast(r, pos, (i: nat) => Hit(s, [c], true, i))
  {
    var size: nat := |s|;
    if size != 0 {
      size := Dec(size);
      if size > pos {
        size := pos;
      }
      size := size + 1;
      var more := size > 0;
      size := Dec(size);
      while more
        invariant more ==> size <= pos && size < |s|
        invariant forall i: nat :: (more ==> size < i) && 0 <= i <= pos ==> !Hit(s, [c], true, i)
        decreases more, size
      {
        if s[size] == c {
          return size;
        }
        more := size > 0;
        size := Dec(size);
      }
    }
    r := NPOS;
  }

  method FindLastOf(s: Piece, t: Piece, pos: nat) returns (r: nat)
    requires |s| < NPOS && pos <= NPOS
    ensures IsLast(r, pos, (i: nat) => Hit(s, t, true, i))
  {
    var index: nat := |s|;
    if index != 0 && |t| != 0 {
      index := Dec(index);
      if index > pos {
        index := pos;
      }
      var more := true;
      while more
        invariant more ==> index <= pos && index < |s|
        invariant forall i: nat :: (more ==> index < i) && 0 <= i <= pos ==> !Hit(s, t, true, i)
        decreases more, index
      {
        if s[index] in t {
          return index;
        }
        more := index != 0;
        index := Dec(index);
      }
    }
    r := NPOS;
  }

  /** The three-argument form. */
  method FindLastNotOf(s: Piece, t: Piece, pos: nat) returns (r: nat)
    requires |s| < NPOS && pos <= NPOS
    ensures IsLast(r, pos, (i: nat) => Hit(s, t, false, i))
  {
    var index: nat := |s|;
    if index != 0 {
      index := Dec(index);
      if index > pos {
        index := pos;
      }
      var more := true;
      while more
        invariant more ==> index <= pos && index < |s|
        invariant forall i: nat :: (more ==> index < i) && 0 <= i <= pos ==> !Hit(s, t, false, i)
        decreases more, index
      {
        if s[index] !in t {
          return index;
        }
        more := index != 0;
        index := Dec(index);
      }
    }
    r := NPOS;
  }

  /** std::search: the first match at or after `from`, the end of s if there is none. */
  function Search(s: Piece, t: Piece, from: nat): (r: nat)
    requires from <= |s|
    ensures from <= r <= |s| && (r < |s| ==> MatchAt(s, t, r))
    ensures forall i: nat :: from <= i < r ==> !MatchAt(s, t, i)
    decreases |s| - from
  {
    if from == |s| || MatchAt(s, t, from) then from else Search(s, t, from + 1)
  }

  method Find(s: Piece, t: Piece, pos: nat) returns (r: nat)
    requires |s| < NPOS && pos <= NPOS
    ensures IsFirst(r, pos, (i: nat) => MatchAt(s, t, i))
  {
    r := NPOS;
    if pos <= |s| && |t| <= |s| - pos {
      var p := Search(s, t, pos);
      if p != |s| || |t| == 0 {
        r := p;
      }
    }
  }

  method FindFirstOf(s: Piece, t: Piece, pos: nat) returns (r: nat)
    requires |s| < NPOS && pos <= NPOS
    ensures IsFirst(r, pos, (i: nat) => Hit(s, t, true, i))
  {
    var p: nat := pos;
    while |t| != 0 && p < |s|
      invariant pos <= p && forall i: nat :: pos <= i < p ==> !Hit(s, t, true, i)
    {
      if s[p] in t {
        return p;
      }
      p := p + 1;
    }
    r := NPOS;
  }

  // ---- comparison ----

  /** The sign of the first difference within equal lengths; 0 if there is none. */
  function TraitsCompare(a: Piece, b: Piece): int
    requires |a| == |b|
  {
    if a == [] then 0 else if a[0] != b[0] then a[0] as int - b[0] as int else TraitsCompare(a[1..], b[1..])
  }

  /** The conversion of a size_t to a 32-bit int. */
  function ToInt(n: int): int {
    var low := n % 0x1_0000_0000;
    if low < 0x8000_0000 then low else low - 0x1_0000_0000
  }

  function Compare(a: Piece, b: Piece): int {
    var len := if |a| < |b| then |a| else |b|;
    var r := TraitsCompare(a[..len], b[..len]);
    if r == 0 then ToInt((|a| - |b|) % 0x1_0000_0000_0000_0000) else r
  }

  /** Lexicographic order, by the place where the two differ. */
  ghost predicate Differ(a: Piece, b: Piece, k: nat) {
    && k <= |a| && k < |b| && a[..k] == b[..k]
    && (k == |a| || a[k] < b[k])
  }

  ghost predicate Precedes(a: Piece, b: Piece) {
    exists k: nat :: Differ(a, b, k)
  }

  /** The comparison has the sign of the lexicographic order. */
  ghost predicate Right(a: Piece, b: Piece) {
    && (Compare(a, b) < 0 <==> Precedes(a, b))
    && (Compare(a, b) == 0 <==> a == b)
    && (Compare(a, b) > 0 <==> Precedes(b, a))
  }

  predicate PrefixRelated(a: Piece, b: Piece) {
    a <= b || b <= a
  }

  /** The low 32 bits of a difference of lengths do not show its sign. */
  predicate SignLost(d: int) {
    var low := d % 0x1_0000_0000;
    || (d > 0 && (low == 0 || low >= 0x8000_0000))
    || (d < 0 && low < 0x8000_0000)
  }

  lemma ToIntTwice(d: int)
    ensures ToInt(d % 0x1_0000_0000_0000_0000) == ToInt(d)
  {
    var q := d / 0x1_0000_0000_0000_0000;
    assert d == 0x1_0000_0000_0000_0000 * q + d % 0x1_0000_0000_0000_0000;
    assert (d - 0x1_0000_0000 * (0x1_0000_0000 * q)) % 0x1_0000_0000 == d % 0x1_0000_0000;
  }

  /** Where the byte comparison stops: at a difference it reports, or nowhere. */
  lemma {:induction false} FirstDifference(a: Piece, b: Piece) returns (k: nat)
    requires |a| == |b|
    ensures k <= |a| && a[..k] == b[..k]
    ensures k == |a| ==> TraitsCompare(a, b) == 0 && a == b
    ensures k < |a| ==> a[k] != b[k] && TraitsCompare(a, b) == a[k] as int - b[k] as int
  {
    if a == [] || a[0] != b[0] {
      k := 0;
    } else {
      k := FirstDifference(a[1..], b[1..]);
      assert a[..k + 1] == [a[0]] + a[1..][..k] && b[..k + 1] == [b[0]] + b[1..][..k];
      k := k + 1;
    }
  }

  /** Two pieces that differ at k are ordered by what they hold there, and only so. */
  lemma OrderAt(a: Piece, b: Piece, k: nat)
    requires k < |a| && k < |b| && a[..k] == b[..k] && a[k] != b[k]
    ensures Precedes(a, b) <==> a[k] < b[k]
    ensures a != b && !PrefixRelated(a, b)
  {
    if a[k] < b[k] {
      assert Differ(a, b, k);
    } else {
      forall j: nat ensures !Differ(a, b, j) {
        if j < k && j < |a| && j < |b| {
          assert a[..k][j] == b[..k][j];
        } else if j > k && j <= |a| && j < |b| {
          assert a[..j][k] != b[..j][k];
        }
      }
    }
  }

  /** A proper prefix comes first. */
  lemma PrefixOrder(a: Piece, b: Piece)
    requires a <= b
    ensures Precedes(a, b) <==> |a| < |b|
    ensures !Precedes(b, a)
  {
    if |a| < |b| {
      assert Differ(a, b, |a|);
    }
    forall j: nat ensures !Differ(b, a, j) {
    }
  }

  lemma EqualUpTo(a: Piece, b: Piece, len: nat, k: nat)
    requires len <= |a| && len <= |b| && k <= len && a[..len][..k] == b[..len][..k]
    ensures a[..k] == b[..k]
  {
    assert a[..len][..k] == a[..k] && b[..len][..k] == b[..k];
  }

  /** Exactly when compare gives the right sign: unless a prefix's length difference loses its sign. */
  lemma CompareExact(a: Piece, b: Piece)
    ensures Right(a, b) <==> !(PrefixRelated(a, b) && SignLost(|a| - |b|))
  {
    var len := if |a| < |b| then |a| else |b|;
    var k := FirstDifference(a[..len], b[..len]);
    EqualUpTo(a, b, len, k);
    if k < len {
      OrderAt(a, b, k);
      OrderAt(b, a, k);
    } else {
      ToIntTwice(|a| - |b|);
      SamePrefix(a, b, len);
    }
  }

  lemma SamePrefix(a: Piece, b: Piece, len: nat)
    requires len == (if |a| < |b| then |a| else |b|) && a[..len] == b[..len]
    ensures PrefixRelated(a, b)
    ensures Precedes(a, b) <==> |a| < |b|
    ensures Precedes(b, a) <==> |b| < |a|
    ensures a == b <==> |a| == |b|
  {
    if |a| <= |b| {
      PrefixOrder(a, b);
    }
    if |b| <= |a| {
      PrefixOrder(b, a);
    }
  }

  lemma SignKept(d: int)
    requires -0x8000_0000 <= d < 0x8000_0000
    ensures !SignLost(d) && ToInt(d) == d
  {
  }

  /** compare is right on all pieces up to a size exactly when that size is below 2^31. */
  lemma CompareBound(n: nat)
    ensures (forall a: Piece, b: Piece :: |a| <= n && |b| <= n ==> Right(a, b)) <==> n < 0x8000_0000
  {
    if n < 0x8000_0000 {
      forall a: Piece, b: Piece | |a| <= n && |b| <= n ensures Right(a, b) {
        SignKept(|a| - |b|);
        CompareExact(a, b);
      }
    } else {
      var a: Piece := seq(0x8000_0000, _ => 0);
      CompareExact(a, []);
      assert |a| <= n && !Right(a, []);
    }
  }

  lemma PrecedesTransitive(a: Piece, b: Piece, c: Piece)
    requires Precedes(a, b) && Precedes(b, c)
    ensures Precedes(a, c)
  {
    var j: nat :| Differ(a, b, j);
    var k: nat :| Differ(b, c, k);
    var m: nat := if j < k then j else k;
    assert a[..m] == a[..j][..m] == b[..j][..m] == b[..m];
    assert b[..m] == b[..k][..m] == c[..k][..m] == c[..m];
    if j < k {
      assert b[..k][j] == c[..k][j];
    }
    if k < j {
      assert a[..j][k] == b[..j][k];
    }
    assert Differ(a, c, m);
  }

  /** Below 2^31 characters compare is a total order: antisymmetric, transitive, and zero on equals only. */
  lemma CompareTotalOrder(a: Piece, b: Piece, c: Piece)
    requires |a| < 0x8000_0000 && |b| < 0x8000_0000 && |c| < 0x8000_0000
    ensures Compare(a, b) < 0 <==> Compare(b, a) > 0
    ensures Compare(a, b) == 0 <==> a == b
    ensures Compare(a, b) <= 0 && Compare(b, c) <= 0 ==> Compare(a, c) <= 0
  {
    SignKept(|a| - |b|);
    SignKept(|b| - |a|);
    SignKept(|b| - |c|);
    SignKept(|a| - |c|);
    CompareExact(a, b);
    CompareExact(b, a);
    CompareExact(b, c);
    CompareExact(a, c);
    if Precedes(a, b) && Precedes(b, c) {
      PrecedesTransitive(a, b, c);
    }
  }
}
