/**
 VariantInt: base-128 variable-length integers, the unsigned LEB128 form (section 7.6 of DWARF 5):
 seven bits per byte, least significant group first, the top bit set on every byte but the last.
 */
module Varint {
  import opened Arithmetic
  type Byte = b: int | 0 <= b < 256

  function Pow2(k: nat): nat
    ensures Pow2(k) > 0
  {
    if k == 0 then 1 else 2 * Pow2(k - 1)
  }

  // ---- the bit operators of the code, bit by bit ----

  function BitAnd(a: nat, b: nat): nat
    decreases a
  {
    if a == 0 || b == 0 then 0
    else (if a % 2 == 1 && b % 2 == 1 then 1 else 0) + 2 * BitAnd(a / 2, b / 2)
  }

  function BitOr(a: nat, b: nat): nat
    decreases a
  {
    if a == 0 then b
    else if b == 0 then a
    else (if a % 2 == 1 || b % 2 == 1 then 1 else 0) + 2 * BitOr(a / 2, b / 2)
  }

  const WORD: nat := 0x1_0000_0000_0000_0000

  function ShiftLeft64(a: nat, k: nat): nat {
    a * Pow2(k) % WORD
  }

  function ShiftRight(a: nat, k: nat): nat {
    if k == 0 then a else ShiftRight(a / 2, k - 1)
  }

  lemma {:induction false} Pow2Add(j: nat, k: nat)
    ensures Pow2(j + k) == Pow2(j) * Pow2(k)
  {
    if j > 0 {
      Pow2Add(j - 1, k);
    }
  }

  lemma {:induction false} Pow2Monotone(j: nat, k: nat)
    requires j <= k
    ensures Pow2(j) <= Pow2(k)
  {
    if j < k {
      Pow2Monotone(j, k - 1);
    }
  }

  lemma Pow2Values()
    ensures Pow2(7) == 128 && Pow2(8) == 256 && Pow2(64) == WORD
  {
    assert Pow2(4) == 16;
    Pow2Add(4, 4);
    Pow2Add(8, 8);
    Pow2Add(16, 16);
    Pow2Add(32, 32);
  }

  lemma AndStep(a: nat, b: nat)
    ensures BitAnd(a, b) == (if a % 2 == 1 && b % 2 == 1 then 1 else 0) + 2 * BitAnd(a / 2, b / 2)
  {
  }

  lemma Doubled(c: nat, m: nat)
    ensures 2 * (c * m) == c * (2 * m)
  {
  }

  /** Masking with k ones is the remainder modulo 2^k. */
  lemma {:induction false} MaskIsRemainder(a: nat, k: nat)
    ensures BitAnd(a, Pow2(k) - 1) == a % Pow2(k)
  {
    if a == 0 {
      Division(0, Pow2(k), 0, 0);
    } else if k > 0 {
      var m := Pow2(k - 1);
      MaskIsRemainder(a / 2, k - 1);
      OddHalf(m);
      MaskStep(a, 2 * m - 1, a / 2 % m);
      HalfRemainder(a, m);
    }
  }

  lemma OddHalf(m: nat)
    requires m > 0
    ensures (2 * m - 1) / 2 == m - 1 && (2 * m - 1) % 2 == 1
  {
  }

  lemma MaskStep(a: nat, b: nat, r: nat)
    requires b % 2 == 1 && BitAnd(a / 2, b / 2) == r
    ensures BitAnd(a, b) == a % 2 + 2 * r
  {
    AndStep(a, b);
  }

  lemma HalfRemainder(a: nat, m: nat)
    requires m > 0
    ensures a % (2 * m) == a % 2 + 2 * (a / 2 % m)
  {
    var q, r := a / 2 / m, a / 2 % m;
    assert a == 2 * m * q + (a % 2 + 2 * r);
    Division(a, 2 * m, q, a % 2 + 2 * r);
  }

  lemma EvenStep(a: nat, m: nat)
    ensures BitAnd(a, 2 * m) == 2 * BitAnd(a / 2, m)
  {
    AndStep(a, 2 * m);
    EvenHalf(m);
  }

  lemma EvenHalf(m: nat)
    ensures 2 * m / 2 == m && 2 * m % 2 == 0
  {
  }

  /** Masking with one bit picks out that binary digit. */
  lemma {:induction false} BitIsQuotient(a: nat, k: nat)
    ensures BitAnd(a, Pow2(k)) == a / Pow2(k) % 2 * Pow2(k)
    decreases k
  {
    if a > 0 {
      if k == 0 {
        AndStep(a, 1);
      } else {
        var m := Pow2(k - 1);
        BitIsQuotient(a / 2, k - 1);
        DivDiv(a, m);
        EvenStep(a, m);
        Doubled(a / (2 * m) % 2, m);
      }
    }
  }

  lemma DivDiv(a: nat, m: nat)
    requires m > 0
    ensures a / 2 / m == a / (2 * m)
  {
    var q, r := a / 2 / m, a / 2 % m;
    assert a == 2 * m * q + (a % 2 + 2 * r);
    Division(a, 2 * m, q, a % 2 + 2 * r);
  }

  lemma {:induction false} ShiftIsDivision(a: nat, k: nat)
    ensures ShiftRight(a, k) == a / Pow2(k)
    decreases k
  {
    if k > 0 {
      ShiftIsDivision(a / 2, k - 1);
      DivDiv(a, Pow2(k - 1));
    }
  }

  /** An OR with bits above all of v's is a sum. */
  lemma {:induction false} OrIsSum(v: nat, c: nat, k: nat)
    requires v < Pow2(k)
    ensures BitOr(v, c * Pow2(k)) == v + c * Pow2(k)
    decreases k
  {
    if k > 0 && v > 0 && c > 0 {
      assert c * Pow2(k) == 2 * (c * Pow2(k - 1));
      OrIsSum(v / 2, c, k - 1);
    }
  }

  // ---- encoding ----

  /** The bytes of x: the reference form, by arithmetic. */
  function Encoded(x: nat): (s: seq<Byte>)
    ensures |s| > 0
  {
    if x < 128 then [x] else [x % 128 + 128] + Encoded(x / 128)
  }

  /** The byte that Encode's loop stores, and the shift that follows it. */
  lemma EncodeStep(x: nat)
    ensures BitOr(BitAnd(x, 0x7f), 0x80) == x % 128 + 128 && ShiftRight(x, 7) == x / 128
  {
    Pow2Values();
    MaskIsRemainder(x, 7);
    OrIsSum(x % 128, 1, 7);
    ShiftIsDivision(x, 7);
  }

  /** The buffer while x is being stored from position `at`: the bytes done, the rest as before. */
  ghost predicate Filled(now: seq<Byte>, orig: seq<Byte>, at: nat, done: seq<Byte>) {
    at + |done| <= |orig| && now == orig[..at] + done + orig[at + |done|..]
  }

  /** Store a byte after those already done. */
  method Put(buffer: array<Byte>, b: Byte, p: nat, ghost orig: seq<Byte>, ghost at: nat, ghost done: seq<Byte>)
    requires p == at + |done| < buffer.Length && Filled(buffer[..], orig, at, done)
    modifies buffer
    ensures Filled(buffer[..], orig, at, done + [b])
  {
    ghost var before := buffer[..];
    assert orig[p..][1..] == orig[p + 1..];
    buffer[p] := b;
    assert buffer[..] == before[p := b];
  }

  /** Encode x into the buffer from position `at`; nothing else in the buffer changes. */
  method Encode(buffer: array<Byte>, at: nat, x: nat) returns (length: nat)
    requires at + |Encoded(x)| <= buffer.Length
    modifies buffer
    ensures length == |Encoded(x)|
    ensures Filled(buffer[..], old(buffer[..]), at, Encoded(x))
  {
    ghost var done: seq<Byte> := [];
    assert Filled(buffer[..], old(buffer[..]), at, done);
    var rest, p := x, at;
    while rest >= 0x80
      invariant p == at + |done| && done + Encoded(rest) == Encoded(x)
      invariant Filled(buffer[..], old(buffer[..]), at, done)
      decreases rest
    {
      EncodeStep(rest);
      var b: Byte := BitOr(BitAnd(rest, 0x7f), 0x80);
      Put(buffer, b, p, old(buffer[..]), at, done);
      done := done + [b];
      rest := ShiftRight(rest, 7);
      p := p + 1;
    }
    Put(buffer, rest, p, old(buffer[..]), at, done);
    length := p + 1 - at;
  }

  method GetLength(x: nat) returns (length: nat)
    ensures length == |Encoded(x)|
  {
    length := 1;
    var rest := x;
    while rest >= 0x80
      invariant length >= 1 && length - 1 + |Encoded(rest)| == |Encoded(x)|
      decreases rest
    {
      EncodeStep(rest);
      rest := ShiftRight(rest, 7);
      length := length + 1;
    }
  }

  /** n bytes are enough exactly for the values below 2^(7n). */
  lemma {:induction false} LengthExact(x: nat, n: nat)
    requires n >= 1
    ensures |Encoded(x)| <= n <==> x < Pow2(7 * n)
    decreases n
  {
    Pow2Values();
    Pow2Add(7, 7 * (n - 1));
    if n > 1 && x >= 128 {
      LengthExact(x / 128, n - 1);
    }
  }

  // ---- decoding ----

  /** The widths of the unsigned types, in bits. */
  predicate Width(bits: nat) {
    bits == 8 || bits == 16 || bits == 32 || bits == 64
  }

  function GetMaxCharsOfEncodedSize(bits: nat): nat {
    (bits + 6) / 7
  }

  lemma EncodingFits(x: nat, bits: nat)
    requires Width(bits) && x < Pow2(bits)
    ensures |Encoded(x)| <= GetMaxCharsOfEncodedSize(bits)
  {
    var n := GetMaxCharsOfEncodedSize(bits);
    Pow2Monotone(bits, 7 * n);
    LengthExact(x, n);
  }

  lemma MaxValues()
    ensures GetMaxCharsOfEncodedSize(8) == 2 && GetMaxCharsOfEncodedSize(16) == 3
    ensures GetMaxCharsOfEncodedSize(32) == 5 && GetMaxCharsOfEncodedSize(64) == 10
  {
  }

  /** The bound is attained, by the greatest value of the type. */
  lemma EncodingFills(bits: nat)
    requires Width(bits)
    ensures |Encoded(Pow2(bits) - 1)| == GetMaxCharsOfEncodedSize(bits)
  {
    var n := GetMaxCharsOfEncodedSize(bits);
    EncodingFits(Pow2(bits) - 1, bits);
    Pow2Monotone(7 * (n - 1) + 1, bits);
    LengthExact(Pow2(bits) - 1, n - 1);
  }

  /** The sum of the first n seven-bit groups, each weighted by its place. */
  function GroupSum(s: seq<Byte>, n: nat): nat
    requires n <= |s|
  {
    if n == 0 then 0 else GroupSum(s, n - 1) + s[n - 1] % 128 * Pow2(7 * (n - 1))
  }

  datatype Decoding = Failed | Decoded(value: nat, offset: nat)

  /** Where the first byte below 128 is, |s| if there is none. */
  function Terminator(s: seq<Byte>): (k: nat)
    ensures k <= |s| && (k < |s| ==> s[k] < 128) && forall i :: 0 <= i < k ==> s[i] >= 128
  {
    if s == [] || s[0] < 128 then 0 else 1 + Terminator(s[1..])
  }

  function Min(a: nat, b: nat): nat {
    if a < b then a else b
  }

  /** The meaning of Decode. */
  function Meaning(s: seq<Byte>, bits: nat, limit: nat): Decoding {
    var k := Terminator(s);
    if k < |s| && k < Min(limit, GetMaxCharsOfEncodedSize(bits))
    then Decoded(GroupSum(s, k + 1) % Pow2(bits), k + 1)
    else Failed
  }

  lemma {:induction false} GroupSumBound(s: seq<Byte>, n: nat)
    requires n <= |s|
    ensures GroupSum(s, n) < Pow2(7 * n)
  {
    if n > 0 {
      GroupSumBound(s, n - 1);
      Pow2Values();
      Pow2Add(7, 7 * (n - 1));
      SumBelow(GroupSum(s, n - 1), s[n - 1] % 128, Pow2(7 * (n - 1)), 128);
    }
  }

  lemma SumBelow(v: nat, c: nat, p: nat, high: nat)
    requires v < p && c < high
    ensures v + c * p < high * p
  {
    assert (c + 1) * p <= high * p;
  }

  /** One iteration of Decode's loop adds the next group, modulo 2^64. */
  lemma DecodeStep(s: seq<Byte>, n: nat)
    requires n < |s| && n < 10
    ensures BitOr(GroupSum(s, n) % WORD, ShiftLeft64(BitAnd(s[n], 0x7f), 7 * n)) == GroupSum(s, n + 1) % WORD
  {
    assert BitAnd(s[n], 0x7f) == s[n] % 128 by {
      Pow2Values();
      MaskIsRemainder(s[n], 7);
    }
    GroupSumBound(s, n);
    ShiftedOr(GroupSum(s, n), s[n] % 128, 7 * n);
  }

  /** The 0x80 test picks out exactly the terminating bytes. */
  lemma TopBit(b: Byte)
    ensures BitAnd(b, 0x80) == 0 <==> b < 128
  {
    assert BitAnd(b, 0x80) == b / 128 % 2 * 128 by {
      Pow2Values();
      BitIsQuotient(b, 7);
    }
  }

  /** The truncated shift drops exactly what the modulus drops. */
  lemma ShiftedOr(v: nat, c: nat, k: nat)
    requires k < 64 && v < Pow2(k)
    ensures BitOr(v % WORD, ShiftLeft64(c, k)) == (v + c * Pow2(k)) % WORD
  {
    var p, high := Pow2(k), Pow2(64 - k);
    assert p * high == WORD by {
      Pow2Values();
      Pow2Add(k, 64 - k);
    }
    TruncatedSum(v, c, p, high);
    OrIsSum(v, c % high, k);
  }

  lemma TruncatedSum(v: nat, c: nat, p: nat, high: nat)
    requires v < p && high > 0 && p * high == WORD
    ensures v % WORD == v && c * p % WORD == c % high * p
    ensures (v + c * p) % WORD == v + c % high * p
  {
    var q, r := c / high, c % high;
    assert c * p == WORD * q + r * p by {
      assert c == high * q + r;
      assert (high * q + r) * p == (p * high) * q + r * p;
    }
    SumBelow(v, r, p, high);
    SumBelow(0, r, p, high);
    SumBelow(v, 0, p, high);
    Division(v, WORD, 0, v);
    Division(c * p, WORD, q, r * p);
    Division(v + c * p, WORD, q, v + r * p);
  }

  lemma TruncationNests(v: nat, bits: nat)
    requires Width(bits)
    ensures v % WORD % Pow2(bits) == v % Pow2(bits)
  {
    var b, high := Pow2(bits), Pow2(64 - bits);
    assert b * high == WORD by {
      Pow2Values();
      Pow2Add(bits, 64 - bits);
    }
    RemainderNests(v, b, high);
  }

  lemma RemainderNests(v: nat, b: nat, high: nat)
    requires b > 0 && b * high == WORD
    ensures v % WORD % b == v % b
  {
    var q, r := v / WORD, v % WORD;
    var q2, r2 := r / b, r % b;
    assert v == (b * high) * q + b * q2 + r2;
    assert (b * high) * q == b * (high * q);
    assert b * (high * q) + b * q2 == b * (high * q + q2);
    Division(v, b, high * q + q2, r2);
  }

  lemma TerminatorAt(s: seq<Byte>, k: nat)
    requires k < |s| && s[k] < 128 && forall i :: 0 <= i < k ==> s[i] >= 128
    ensures Terminator(s) == k
  {
  }

  /** The byte at i is the first below 128. */
  predicate EndsAt(s: seq<Byte>, i: nat) {
    i < |s| && s[i] < 128 && forall j :: 0 <= j < i ==> s[j] >= 128
  }

  /** On arbitrary bytes: an encoding is accepted exactly when its last byte begins inside the type's width and the limit. */
  lemma MeaningExact(s: seq<Byte>, bits: nat, limit: nat)
    requires Width(bits)
    ensures Meaning(s, bits, limit).Decoded? <==> exists i: nat :: i < limit && 7 * i < bits && EndsAt(s, i)
    ensures var d := Meaning(s, bits, limit);
            d.Decoded? ==> d.offset > 0 && EndsAt(s, d.offset - 1) && d.value == GroupSum(s, d.offset) % Pow2(bits)
  {
    if i: nat :| i < limit && 7 * i < bits && EndsAt(s, i) {
      TerminatorAt(s, i);
    }
    if Meaning(s, bits, limit).Decoded? {
      assert EndsAt(s, Terminator(s));
    }
  }

  /** Decode; the caller's buffer must hold every byte the loop may look at. */
  method Decode(s: seq<Byte>, bits: nat, limit: nat) returns (r: Decoding)
    requires Width(bits)
    requires Terminator(s) < |s| || Min(limit, GetMaxCharsOfEncodedSize(bits)) <= |s|
    ensures r == Meaning(s, bits, limit)
    ensures r.Decoded? <==> exists i: nat :: i < limit && 7 * i < bits && EndsAt(s, i)
    ensures r.Decoded? ==> r.offset > 0 && EndsAt(s, r.offset - 1) && r.value == GroupSum(s, r.offset) % Pow2(bits)
  {
    MeaningExact(s, bits, limit);
    var value, shift := 0, 0;
    var bound := Min(limit, GetMaxCharsOfEncodedSize(bits));
    for i := 0 to bound
      invariant i <= Terminator(s) && i <= |s|
      invariant value == GroupSum(s, i) % WORD && shift == 7 * i
    {
      DecodeStep(s, i);
      TopBit(s[i]);
      value := BitOr(value, ShiftLeft64(BitAnd(s[i], 0x7f), shift));
      if BitAnd(s[i], 0x80) == 0 {
        TerminatorAt(s, i);
        TruncationNests(GroupSum(s, i + 1), bits);
        return Decoded(value % Pow2(bits), i + 1);
      }
      shift := shift + 7;
    }
    return Failed;
  }

  // ---- round trips ----

  lemma {:induction false} EncodedTerminator(x: nat, rest: seq<Byte>)
    ensures Terminator(Encoded(x) + rest) == |Encoded(x)| - 1
  {
    if x >= 128 {
      EncodedTerminator(x / 128, rest);
      assert (Encoded(x) + rest)[1..] == Encoded(x / 128) + rest;
    }
  }

  /** Dropping the first byte divides the sum by 128. */
  lemma {:induction false} GroupSumShift(b: Byte, s: seq<Byte>, n: nat)
    requires n <= |s|
    ensures GroupSum([b] + s, n + 1) == b % 128 + 128 * GroupSum(s, n)
  {
    if n == 0 {
      assert GroupSum([b] + s, 1) == GroupSum([b] + s, 0) + b % 128 * Pow2(0);
    } else {
      GroupSumShift(b, s, n - 1);
      Pow2Values();
      Pow2Add(7, 7 * (n - 1));
      assert ([b] + s)[n] == s[n - 1];
      Reassociate(s[n - 1] % 128, Pow2(7 * (n - 1)));
    }
  }

  lemma Reassociate(c: nat, p: nat)
    ensures c * (128 * p) == 128 * (c * p)
  {
  }

  lemma DigitBack(x: nat)
    ensures (x % 128 + 128) % 128 == x % 128 && x % 128 + 128 * (x / 128) == x
  {
  }

  lemma {:induction false} EncodedSum(x: nat, rest: seq<Byte>)
    ensures GroupSum(Encoded(x) + rest, |Encoded(x)|) == x
  {
    if x < 128 {
      assert GroupSum(Encoded(x) + rest, 1) == GroupSum(Encoded(x) + rest, 0) + x % 128 * Pow2(0);
    } else {
      EncodedSum(x / 128, rest);
      assert Encoded(x) + rest == [x % 128 + 128] + (Encoded(x / 128) + rest);
      GroupSumShift(x % 128 + 128, Encoded(x / 128) + rest, |Encoded(x / 128)|);
      DigitBack(x);
    }
  }

  /** Decoding an encoding, whatever follows it, gives the value and its length, if the limit allows. */
  lemma RoundTrip(x: nat, bits: nat, limit: nat, rest: seq<Byte>)
    requires Width(bits) && x < Pow2(bits)
    ensures Meaning(Encoded(x) + rest, bits, limit) ==
            if limit < |Encoded(x)| then Failed else Decoded(x, |Encoded(x)|)
  {
    EncodedTerminator(x, rest);
    EncodedSum(x, rest);
    EncodingFits(x, bits);
    Division(x, Pow2(bits), 0, x);
  }

  /** A value too wide for the type comes back modulo the width, or not at all if its encoding is too long. */
  lemma WideRoundTrip(x: nat, bits: nat, limit: nat, rest: seq<Byte>)
    requires Width(bits)
    ensures Meaning(Encoded(x) + rest, bits, limit) ==
            if limit < |Encoded(x)| || 7 * (|Encoded(x)| - 1) >= bits then Failed
            else Decoded(x % Pow2(bits), |Encoded(x)|)
  {
    EncodedTerminator(x, rest);
    EncodedSum(x, rest);
  }

  function EncodeAll(xs: seq<nat>): seq<Byte> {
    if xs == [] then [] else Encoded(xs[0]) + EncodeAll(xs[1..])
  }

  /** Decode n values one after another, each from where the last one ended. */
  function DecodeAll(s: seq<Byte>, bits: nat, n: nat): (r: seq<Decoding>)
    decreases n
  {
    if n == 0 then []
    else
      var d := Meaning(s, bits, |s|);
      if d.Failed? || d.offset > |s| then [Failed]
      else [d] + DecodeAll(s[d.offset..], bits, n - 1)
  }

  /** Any concatenation of encodings decodes back to the list of values. */
  lemma {:induction false} StreamRoundTrip(xs: seq<nat>, bits: nat, rest: seq<Byte>)
    requires Width(bits) && forall i :: 0 <= i < |xs| ==> xs[i] < Pow2(bits)
    ensures DecodeAll(EncodeAll(xs) + rest, bits, |xs|) == Results(xs)
  {
    if xs != [] {
      StreamRoundTrip(xs[1..], bits, rest);
      FirstOfStream(xs, bits, rest);
    }
  }

  function Results(xs: seq<nat>): seq<Decoding> {
    if xs == [] then [] else [Decoded(xs[0], |Encoded(xs[0])|)] + Results(xs[1..])
  }

  lemma FirstOfStream(xs: seq<nat>, bits: nat, rest: seq<Byte>)
    requires Width(bits) && xs != [] && xs[0] < Pow2(bits)
    ensures DecodeAll(EncodeAll(xs) + rest, bits, |xs|) ==
            [Decoded(xs[0], |Encoded(xs[0])|)] + DecodeAll(EncodeAll(xs[1..]) + rest, bits, |xs| - 1)
  {
    var tail := EncodeAll(xs[1..]) + rest;
    var all := Encoded(xs[0]) + tail;
    assert EncodeAll(xs) + rest == all;
    RoundTrip(xs[0], bits, |all|, tail);
    assert all[|Encoded(xs[0])|..] == tail;
  }
}
