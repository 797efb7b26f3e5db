/**
 Bytes on the wire, and decimal numbers written in them.
 */
module Wire {
  type Byte = b: int | 0 <= b < 256

  type Int64 = x: int | -0x8000_0000_0000_0000 <= x < 0x8000_0000_0000_0000

  /** What 64-bit arithmetic makes of a result. */
  function Wrap(x: int): Int64 {
    (x + 0x8000_0000_0000_0000) % 0x1_0000_0000_0000_0000 - 0x8000_0000_0000_0000
  }

  lemma WrapKeeps(x: int)
    requires -0x8000_0000_0000_0000 <= x < 0x8000_0000_0000_0000
    ensures Wrap(x) == x
  {
  }

  const ZERO: Byte := 48
  const NINE: Byte := 57
  const SEMICOLON: Byte := 59

  predicate IsDigit(b: Byte) {
    ZERO <= b <= NINE
  }

  predicate AllDigits(s: seq<Byte>) {
    forall i | 0 <= i < |s| :: IsDigit(s[i])
  }

  /** Printable ASCII other than ';': what may stand inside a frame. */
  predicate ValidWireByte(b: Byte) {
    0x20 <= b <= 0x7E && b != SEMICOLON
  }

  lemma WireBytesArePrintable(b: Byte)
    ensures ValidWireByte(b) <==> 31 < b < 127 && b != 59
  {
  }

  predicate ValidWireString(s: seq<Byte>) {
    forall i | 0 <= i < |s| :: ValidWireByte(s[i])
  }

  function Pow10(n: nat): (p: nat)
    ensures p > 0
  {
    if n == 0 then 1 else 10 * Pow10(n - 1)
  }

  lemma PowersOfTen()
    ensures Pow10(1) == 10 && Pow10(2) == 100 && Pow10(3) == 1000 && Pow10(5) == 100000
  {
    assert Pow10(4) == 10000;
  }

  function DecimalValue(s: seq<Byte>): nat
    requires AllDigits(s)
  {
    if s == [] then 0 else 10 * DecimalValue(s[..|s| - 1]) + (s[|s| - 1] - ZERO)
  }

  /** `n` in decimal, zero-padded to at least `width` digits. */
  function Render(n: nat, width: nat): (s: seq<Byte>)
    ensures s != [] && AllDigits(s)
    decreases n + width
  {
    if n < 10 && width <= 1 then [ZERO + n]
    else Render(n / 10, if width > 0 then width - 1 else 0) + [ZERO + n % 10]
  }

  lemma {:induction false} RenderReadsBack(n: nat, width: nat)
    ensures DecimalValue(Render(n, width)) == n
    decreases n + width
  {
    if !(n < 10 && width <= 1) {
      var head := Render(n / 10, if width > 0 then width - 1 else 0);
      RenderReadsBack(n / 10, if width > 0 then width - 1 else 0);
      assert Render(n, width)[..|head|] == head;
    }
  }

  /** The padding is a minimum: the field is exactly `width` long if and only if the number fits it. */
  lemma {:induction false} RenderWidth(n: nat, width: nat)
    requires width >= 1
    ensures |Render(n, width)| >= width
    ensures |Render(n, width)| == width <==> n < Pow10(width)
    decreases n + width
  {
    if width > 1 {
      RenderWidth(n / 10, width - 1);
    } else if n >= 10 {
      assert |Render(n / 10, 0)| >= 1;
    }
    assert Pow10(1) == 10;
  }

  lemma {:induction false} ValueIsBounded(s: seq<Byte>)
    requires AllDigits(s)
    ensures DecimalValue(s) < Pow10(|s|)
  {
    if s != [] {
      ValueIsBounded(s[..|s| - 1]);
    }
  }

  lemma {:induction false} ValueRendersBack(s: seq<Byte>)
    requires AllDigits(s) && s != []
    ensures Render(DecimalValue(s), |s|) == s
  {
    if |s| > 1 {
      var head := s[..|s| - 1];
      ValueRendersBack(head);
      assert DecimalValue(s) / 10 == DecimalValue(head);
      assert s == head + [s[|s| - 1]];
    } else {
      assert s[..0] == [];
    }
  }

  /** Fields of one length are equal when their values are. */
  lemma SameValueSameField(a: seq<Byte>, b: seq<Byte>)
    requires AllDigits(a) && AllDigits(b) && |a| == |b| && DecimalValue(a) == DecimalValue(b)
    ensures a == b
  {
    if a != [] {
      ValueRendersBack(a);
      ValueRendersBack(b);
    }
  }

  // ---- multiples

  function Abs(v: int): nat {
    if v < 0 then -v else v
  }

  function Times(k: int, m: int): int {
    k * Abs(m)
  }

  lemma SmallMultiple(n: int, m: nat)
    requires 0 - m < n * m < m
    ensures n == 0
  {
  }

  lemma Multiple(k: int, m: int)
    requires m != 0
    ensures (k * m) % m == 0
  {
    var q, r := (k * m) / m, (k * m) % m;
    assert k * m == q * m + r;
    if m > 0 {
      assert (k - q) * m == r;
      SmallMultiple(k - q, m);
    } else {
      assert (q - k) * -m == r;
      SmallMultiple(q - k, -m);
    }
  }

  lemma DivisibleExactly(x: int, m: int)
    requires m != 0
    ensures x % m == 0 <==> exists k :: x == Times(k, m)
  {
    if x % m == 0 {
      var q := x / m;
      assert x == m * q;
      assert x == Times(if m < 0 then -q else q, m);
    }
    if k :| x == Times(k, m) {
      Multiple(if m < 0 then -k else k, m);
      assert (if m < 0 then -k else k) * m == x;
    }
  }

  lemma TimesSign(k: int, m: int)
    requires m != 0
    ensures k >= 0 <==> Times(k, m) >= 0
  {
  }

  lemma OrderedSteps(j: int, k: int, m: int)
    ensures j <= k ==> Times(j, m) <= Times(k, m)
    ensures j >= k + 1 ==> Times(j, m) >= Times(k + 1, m)
  {
  }
}
