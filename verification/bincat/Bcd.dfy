/**
 Packed BCD: `n` bytes hold `2n` decimal digits, least significant pair first.
 The encoder and decoder run on 64-bit words; the field width bound is what
 keeps them from wrapping.
 */
module Bcd {
  import opened Results

  type Byte = b: int | 0 <= b < 256
  type Uint64 = v: int | 0 <= v < 0x1_0000_0000_0000_0000

  const MAX_BCD_BYTES: int := 9

  datatype Error = FieldWidth | ValueTooWide | BadNibble(at: nat)

  predicate IsPair(b: Byte) {
    b / 16 <= 9 && b % 16 <= 9
  }

  predicate AllPairs(s: seq<Byte>) {
    forall i | 0 <= i < |s| :: IsPair(s[i])
  }

  /** The two digits of a byte, as a number. */
  function PairValue(b: Byte): int {
    b / 16 * 10 + b % 16
  }

  function PackPair(p: int): (b: Byte)
    requires 0 <= p < 100
    ensures IsPair(b) && PairValue(b) == p
  {
    p / 10 * 16 + p % 10
  }

  lemma PairIsUnique(a: Byte, b: Byte)
    requires IsPair(a) && IsPair(b) && PairValue(a) == PairValue(b)
    ensures a == b
  {
  }

  function Hundreds(n: nat): (h: nat)
    ensures h > 0
  {
    if n == 0 then 1 else 100 * Hundreds(n - 1)
  }

  /** The number a field stands for. */
  function Value(s: seq<Byte>): nat
    requires AllPairs(s)
  {
    if s == [] then 0 else PairValue(s[0]) + 100 * Value(s[1..])
  }

  lemma {:induction false} ValueIsBounded(s: seq<Byte>)
    requires AllPairs(s)
    ensures Value(s) < Hundreds(|s|)
  {
    if s != [] {
      ValueIsBounded(s[1..]);
    }
  }

  lemma Regroup(h: int, x: int, y: int)
    ensures 100 * (x + h * y) == 100 * x + (100 * h) * y
    ensures h * (100 * y) == (100 * h) * y
    ensures h * (x + 100 * y) == h * x + (100 * h) * y
  {
  }

  lemma {:induction false} ValueSnoc(s: seq<Byte>, b: Byte)
    requires AllPairs(s) && IsPair(b)
    ensures Value(s + [b]) == Value(s) + Hundreds(|s|) * PairValue(b)
  {
    if s == [] {
      assert s + [b] == [b];
    } else {
      assert (s + [b])[1..] == s[1..] + [b];
      ValueSnoc(s[1..], b);
      Regroup(Hundreds(|s| - 1), Value(s[1..]), PairValue(b));
    }
  }

  lemma FirstPair(s: seq<Byte>)
    requires AllPairs(s) && s != []
    ensures Value(s) % 100 == PairValue(s[0]) && Value(s) / 100 == Value(s[1..])
  {
  }

  /** A field of given width writes a number in one way only. */
  lemma {:induction false} ValueIsInjective(a: seq<Byte>, b: seq<Byte>)
    requires AllPairs(a) && AllPairs(b) && |a| == |b| && Value(a) == Value(b)
    ensures a == b
  {
    if a != [] {
      FirstPair(a);
      FirstPair(b);
      PairIsUnique(a[0], b[0]);
      ValueIsInjective(a[1..], b[1..]);
      assert a == [a[0]] + a[1..] && b == [b[0]] + b[1..];
    }
  }

  lemma NineBytesFit(n: nat)
    requires n <= 9
    ensures Hundreds(n) <= 1_000_000_000_000_000_000
  {
    assert Hundreds(1) == 100 && Hundreds(2) == 10_000 && Hundreds(3) == 1_000_000;
    assert Hundreds(4) == 100_000_000 && Hundreds(5) == 10_000_000_000 && Hundreds(6) == 1_000_000_000_000;
    assert Hundreds(7) == 100_000_000_000_000 && Hundreds(8) == 10_000_000_000_000_000;
  }

  lemma SplitPair(h: int, value: int, rest: nat, v: int)
    requires v == value + h * rest
    ensures v == (value + h * (rest % 100)) + (100 * h) * (rest / 100)
  {
    var q, r := rest / 100, rest % 100;
    assert rest == r + 100 * q;
    Regroup(h, r, q);
  }

  /** So much of `v` is written, and `rest` is what remains. */
  ghost predicate Encoded(v: Uint64, s: seq<Byte>, rest: int) {
    rest >= 0 && AllPairs(s) && v == Value(s) + Hundreds(|s|) * rest
  }

  lemma EncodeStep(v: Uint64, s: seq<Byte>, rest: nat)
    requires Encoded(v, s, rest)
    ensures Encoded(v, s + [PackPair(rest % 100)], rest / 100)
  {
    ValueSnoc(s, PackPair(rest % 100));
    SplitPair(Hundreds(|s|), Value(s), rest, v);
  }

  lemma TooWide(h: int, rest: int)
    requires h > 0 && rest > 0
    ensures h * rest >= h
  {
  }

  lemma EncodeDone(v: Uint64, s: seq<Byte>, rest: nat)
    requires Encoded(v, s, rest)
    ensures rest == 0 <==> v < Hundreds(|s|)
    ensures rest == 0 ==> AllPairs(s) && Value(s) == v
  {
    ValueIsBounded(s);
    if rest > 0 {
      TooWide(Hundreds(|s|), rest);
    }
  }

  /** Succeeds exactly on the numbers the field can hold, and then writes that number. */
  method EncodeBCD(v: Uint64, n: int) returns (r: Result<seq<Byte>, Error>)
    ensures r.Ok? <==> 1 <= n <= MAX_BCD_BYTES && v < Hundreds(n)
    ensures r.Ok? ==> |r.value| == n && AllPairs(r.value) && Value(r.value) == v
    ensures r.Err? ==> r.error == if 1 <= n <= MAX_BCD_BYTES then ValueTooWide else FieldWidth
  {
    if n < 1 || n > MAX_BCD_BYTES {
      return Err(FieldWidth);
    }
    var out := new Byte[n](_ => 0);
    var rest := v;
    var i := 0;
    while i < n
      invariant 0 <= i <= n && Encoded(v, out[..i], rest)
    {
      EncodeStep(v, out[..i], rest);
      var pair := rest % 100;
      rest := rest / 100;
      ghost var before := out[..i];
      out[i] := pair / 10 * 16 + pair % 10;
      assert out[..i + 1] == before + [PackPair(pair)];
      i := i + 1;
    }
    assert out[..i] == out[..];
    EncodeDone(v, out[..], rest);
    if rest != 0 {
      return Err(ValueTooWide);
    }
    return Ok(out[..]);
  }

  method DecodeBCD2(b: Byte) returns (r: Result<int, Error>)
    ensures r == if IsPair(b) then Ok(PairValue(b)) else Err(BadNibble(0))
  {
    var hi, lo := b / 16, b % 16;
    if hi > 9 || lo > 9 {
      return Err(BadNibble(0));
    }
    return Ok(hi * 10 + lo);
  }

  lemma PairInFront(p: Byte, tail: seq<Byte>)
    requires IsPair(p) && AllPairs(tail) && |tail| < MAX_BCD_BYTES
    ensures AllPairs([p] + tail) && Value([p] + tail) == Value(tail) * 100 + PairValue(p)
    ensures Value([p] + tail) < 0x1_0000_0000_0000_0000
  {
    assert ([p] + tail)[1..] == tail;
    ValueIsBounded([p] + tail);
    NineBytesFit(1 + |tail|);
  }

  /** One more pair in front of those decoded, with the machine's wrap. */
  lemma DecodeStep(b: seq<Byte>, i: nat)
    requires |b| <= MAX_BCD_BYTES && i < |b| && IsPair(b[i]) && AllPairs(b[i + 1..])
    ensures AllPairs(b[i..]) && (Value(b[i + 1..]) * 100 + PairValue(b[i])) % 0x1_0000_0000_0000_0000 == Value(b[i..])
  {
    assert b[i..] == [b[i]] + b[i + 1..];
    PairInFront(b[i], b[i + 1..]);
  }

  /** Succeeds exactly on fields of decimal pairs, and no step wraps; else names the last bad byte. */
  method DecodeBCD(b: seq<Byte>) returns (r: Result<Uint64, Error>)
    ensures r.Ok? <==> 1 <= |b| <= MAX_BCD_BYTES && AllPairs(b)
    ensures r.Ok? ==> r.value == Value(b)
    ensures r.Err? && !(1 <= |b| <= MAX_BCD_BYTES) ==> r.error == FieldWidth
    ensures r.Err? && 1 <= |b| <= MAX_BCD_BYTES ==>
              r.error.BadNibble? && r.error.at < |b| && !IsPair(b[r.error.at]) && AllPairs(b[r.error.at + 1..])
  {
    if |b| < 1 || |b| > MAX_BCD_BYTES {
      return Err(FieldWidth);
    }
    var out: Uint64 := 0;
    var i := |b| - 1;
    while i >= 0
      invariant -1 <= i < |b|
      invariant AllPairs(b[i + 1..]) && out == Value(b[i + 1..])
    {
      var pair := DecodeBCD2(b[i]);
      if pair.Err? {
        return Err(BadNibble(i));
      }
      DecodeStep(b, i);
      out := (out * 100 + pair.value) % 0x1_0000_0000_0000_0000;
      i := i - 1;
    }
    assert b[0..] == b;
    return Ok(out);
  }

  /** Decoding what was encoded gives the number back. */
  method EncodeThenDecode(v: Uint64, n: int) returns (fits: bool, back: Result<Uint64, Error>)
    ensures fits == (1 <= n <= MAX_BCD_BYTES && v < Hundreds(n))
    ensures fits ==> back == Ok(v)
  {
    var r := EncodeBCD(v, n);
    fits := r.Ok?;
    back := if fits then Ok(v) else Err(FieldWidth);
    if fits {
      back := DecodeBCD(r.value);
    }
  }

  /** Encoding what was decoded gives the bytes back. */
  method DecodeThenEncode(b: seq<Byte>) returns (valid: bool, back: Result<seq<Byte>, Error>)
    ensures valid == (1 <= |b| <= MAX_BCD_BYTES && AllPairs(b))
    ensures valid ==> back == Ok(b)
  {
    var r := DecodeBCD(b);
    valid := r.Ok?;
    back := Err(FieldWidth);
    if valid {
      ValueIsBounded(b);
      back := EncodeBCD(r.value, |b|);
      ValueIsInjective(back.value, b);
    }
  }
}
