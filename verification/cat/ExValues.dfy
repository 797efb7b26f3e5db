/**
 The values an EX Set may carry: a row's domain, its field width, and the digits
 (P4) that stand for a value in it.
 */
module ExValues {
  import opened Results
  import opened Wire
  import opened ExAddresses

  const PLUS: Byte := 43
  const MINUS: Byte := 45

  lemma ZeroRemainder(k: int)
    requires k != 0
    ensures Wrap(0) == 0 && 0 % k == 0
  {
  }

  /** Listed codes and a stepped range; `hi == 0` means no range, step 0 counts as 1. */
  datatype Domain = Domain(codes: seq<Int64>, lo: Int64, hi: Int64, step: Int64, signed: bool)
  {
    predicate Contains(v: int) {
      v in codes
      || (hi != 0 && lo <= v <= hi && Wrap(v - lo) % (if step == 0 then 1 else step) == 0)
    }

    lemma LowIsContained()
      requires hi != 0 && lo <= hi
      ensures Contains(lo)
    {
      ZeroRemainder(if step == 0 then 1 else step);
    }

    predicate Empty() {
      codes == [] && hi == 0 && lo == 0
    }
  }

  datatype Row = Row(addr: Address, domain: Domain, observedWidth: Int64)

  const MINIMUM: Int64 := -0x8000_0000_0000_0000

  // ---- which values a domain has

  const HALF_TURN: int := 0x8000_0000_0000_0000
  const TURN: int := 0x1_0000_0000_0000_0000

  function Stride(d: Domain): int {
    if d.step == 0 then 1 else d.step
  }

  /** The value `k` steps above the low end; a step of 0 counts as 1, a negative one as its size. */
  function StepAt(d: Domain, k: int): int {
    d.lo + Times(k, Stride(d))
  }

  /** How far 64-bit arithmetic is off when it measures from the low end. */
  function Turned(d: Domain, v: int): int {
    if v - d.lo < HALF_TURN then 0 else TURN
  }

  /** In the range, and as 64-bit arithmetic measures it, a whole number of steps from its low end. */
  ghost predicate OnStep(d: Domain, v: int) {
    d.hi != 0 && d.lo <= v <= d.hi && exists k :: v == StepAt(d, k) + Turned(d, v)
  }

  /** A domain has exactly its codes and the values on the steps of its range. */
  lemma ContainsExactly(d: Domain, v: int)
    ensures d.Contains(v) <==> v in d.codes || OnStep(d, v)
  {
    if d.hi != 0 && d.lo <= v <= d.hi {
      var x := v - d.lo - Turned(d, v);
      assert Wrap(v - d.lo) == x;
      DivisibleExactly(x, Stride(d));
      forall k
        ensures v == StepAt(d, k) + Turned(d, v) <==> x == Times(k, Stride(d))
      {
      }
    }
  }

  /** So in a range of less than 2^63 they are the natural multiples of the step, up to its high end. */
  lemma NarrowRangeSteps(d: Domain, v: int)
    requires d.hi - d.lo < HALF_TURN
    ensures d.Contains(v) <==> v in d.codes || (d.hi != 0 && v <= d.hi && exists k: nat :: v == StepAt(d, k))
  {
    ContainsExactly(d, v);
    forall k
      ensures k >= 0 <==> StepAt(d, k) >= d.lo
    {
      TimesSign(k, Stride(d));
    }
  }

  /** And no other value between two neighbouring steps is contained, unless it is a code. */
  lemma BetweenSteps(d: Domain, k: nat, v: int)
    requires d.hi - d.lo < HALF_TURN && StepAt(d, k) < v < StepAt(d, k + 1)
    ensures d.Contains(v) <==> v in d.codes
  {
    NarrowRangeSteps(d, v);
    if j: nat :| v == StepAt(d, j) {
      OrderedSteps(j, k, Stride(d));
    }
  }

  /** The bytes a field of `width` has for digits, a signed field giving one to the sign. */
  function Digits(width: int, signed: bool): int {
    if signed then width - 1 else width
  }

  /** `v` prints in `width` bytes. */
  predicate Fits(v: int, width: int, signed: bool) {
    (signed || v >= 0) && Digits(width, signed) >= 1 && Abs(v) < Pow10(Digits(width, signed))
  }

  /** What the validator takes for that, every operation wrapping to 64 bits. */
  predicate JudgedToFit(v: int, width: int, signed: bool) {
    var digits := Wrap(Digits(width, signed));
    (signed || v >= 0) && digits >= 1 && Wrap(Abs(v)) < Wrap(Pow10(digits))
  }

  method ExValueFits(v: Int64, width: Int64, signed: bool) returns (fits: bool)
    ensures fits == JudgedToFit(v, width, signed)
  {
    var w: int, x: int := width, v;
    if signed {
      w := Wrap(w - 1);
    } else if x < 0 {
      return false;
    }
    if x < 0 {
      x := Wrap(-x);
    }
    if w < 1 {
      return false;
    }
    var limit: int := 1;
    var i := 0;
    while i < w
      invariant 0 <= i <= w && limit == Wrap(Pow10(i))
    {
      WrapTimesTen(Pow10(i));
      limit := Wrap(limit * 10);
      i := i + 1;
    }
    return x < limit;
  }

  lemma WrapTimesTen(x: int)
    ensures Wrap(Wrap(x) * 10) == Wrap(x * 10)
  {
    var k := (x + 0x8000_0000_0000_0000) / 0x1_0000_0000_0000_0000;
    assert Wrap(x) == x - k * 0x1_0000_0000_0000_0000;
    WrapPeriod(Wrap(x) * 10, 10 * k);
  }

  lemma WrapPeriod(x: int, k: int)
    ensures Wrap(x + k * 0x1_0000_0000_0000_0000) == Wrap(x)
  {
  }

  // ---- where the validator's arithmetic is the real one

  lemma {:induction false} PowersAreOrdered(n: nat, m: nat)
    requires n <= m
    ensures Pow10(n) <= Pow10(m)
  {
    if n < m {
      PowersAreOrdered(n, m - 1);
    }
  }

  lemma TenTimes(x: int, y: int)
    ensures (10 * x) * y == 10 * (x * y)
  {
  }

  lemma {:induction false} PowersMultiply(n: nat, m: nat)
    ensures Pow10(n + m) == Pow10(n) * Pow10(m)
  {
    if n > 0 {
      PowersMultiply(n - 1, m);
      TenTimes(Pow10(n - 1), Pow10(m));
    }
  }

  lemma Squared(n: nat, p: nat)
    requires Pow10(n) == p
    ensures Pow10(2 * n) == p * p
  {
    PowersMultiply(n, n);
  }

  lemma EighteenDigitsFit()
    ensures Pow10(18) == 1_000_000_000_000_000_000 && Pow10(19) == 10_000_000_000_000_000_000
  {
    PowersOfTen();
    Squared(2, 100);
    Squared(4, 10_000);
    Squared(8, 100_000_000);
    PowersMultiply(16, 2);
  }

  lemma LimitOf(digits: nat)
    ensures digits <= 18 ==> Wrap(Pow10(digits)) == Pow10(digits) <= 1_000_000_000_000_000_000
    ensures digits >= 19 ==> Pow10(digits) > 0x8000_0000_0000_0000
  {
    EighteenDigitsFit();
    if digits <= 18 {
      PowersAreOrdered(digits, 18);
    } else {
      PowersAreOrdered(19, digits);
    }
  }

  lemma AbsWraps(v: Int64)
    ensures Wrap(Abs(v)) == if v == MINIMUM then MINIMUM else Abs(v)
  {
  }

  lemma SixtyFour()
    ensures Pow10(64) % 0x1_0000_0000_0000_0000 == 0
  {
    PowersOfTen();
    Squared(2, 100);
    Squared(4, 10_000);
    Squared(8, 100_000_000);
    Squared(16, 10_000_000_000_000_000);
    Squared(32, 100_000_000_000_000_000_000_000_000_000_000);
  }

  lemma TenTimesKeeps(x: int)
    requires x % 0x1_0000_0000_0000_0000 == 0
    ensures (10 * x) % 0x1_0000_0000_0000_0000 == 0
  {
    assert 10 * x == (10 * (x / 0x1_0000_0000_0000_0000)) * 0x1_0000_0000_0000_0000;
  }

  lemma {:induction false} SixtyFourDigits(more: nat)
    ensures Pow10(64 + more) % 0x1_0000_0000_0000_0000 == 0
  {
    if more == 0 {
      SixtyFour();
    } else {
      SixtyFourDigits(more - 1);
      TenTimesKeeps(Pow10(63 + more));
    }
  }

  /** With sixty-four digits the wrapped power is zero, and no natural number is below it. */
  lemma LimitIsZero(digits: nat)
    requires digits >= 64
    ensures Wrap(Pow10(digits)) == 0
  {
    SixtyFourDigits(digits - 64);
    WrapPeriod(0, Pow10(digits) / 0x1_0000_0000_0000_0000);
  }

  /**
   The validator's answer is right if and only if the field has at most eighteen
   digits and the value is not the least integer, or the field is wider and the
   wrapped power still exceeds the value, or there is no field for the value at
   all; for the one width that wraps when the sign takes its byte, the value must
   again not be the least integer.
   */
  lemma JudgementIsExact(v: Int64, width: Int64, signed: bool)
    ensures (JudgedToFit(v, width, signed) <==> Fits(v, width, signed)) <==>
              var digits := Digits(width, signed);
              if signed && width == MINIMUM then v != MINIMUM
              else || digits < 1 || (!signed && v < 0)
                   || (if digits <= 18 then v != MINIMUM else Wrap(Abs(v)) < Wrap(Pow10(digits)))
  {
    AbsWraps(v);
    var digits := Digits(width, signed);
    if digits >= 1 {
      LimitOf(digits);
    } else if Wrap(digits) >= 64 {
      LimitIsZero(Wrap(digits));
    }
  }

  /** At nineteen digits, where every integer has room, every natural number is refused. */
  lemma NineteenDigitsAreRefused(v: Int64)
    requires v >= 0
    ensures Fits(v, 19, false) && !JudgedToFit(v, 19, false)
  {
    EighteenDigitsFit();
  }

  // ---- V20

  /** The digits of an address's inventory item. */
  function DigitsOf(items: seq<Item>, a: Address): Option<Int64> {
    if items == [] then None
    else if items[|items| - 1].addr == a then Some(items[|items| - 1].digits)
    else DigitsOf(items[..|items| - 1], a)
  }

  /** The width V20 judges a row by. */
  function JudgedWidth(digits: Int64, r: Row, paper: bool): Int64 {
    if !paper && r.observedWidth != 0 then r.observedWidth else digits
  }

  predicate ValidCode(d: Domain, c: Int64, width: Int64) {
    && c >= 0
    && !(d.hi != 0 && d.lo <= c <= d.hi && Wrap(c - d.lo) % (if d.step > 1 then d.step else 1) == 0)
    && JudgedToFit(c, width, d.signed)
  }

  predicate ValidRow(items: seq<Item>, r: Row, paper: bool) {
    && DigitsOf(items, r.addr).Some?
    && !r.domain.Empty()
    && r.domain.lo <= r.domain.hi && (r.domain.hi == 0 ==> r.domain.lo == 0)
    && (r.domain.hi != 0 ==> r.domain.step >= 1)
    && (paper ==> r.observedWidth == 0 && DigitsOf(items, r.addr).value >= 1)
    && var width := JudgedWidth(DigitsOf(items, r.addr).value, r, paper);
       && (forall i, j | 0 <= i < j < |r.domain.codes| :: r.domain.codes[i] != r.domain.codes[j])
       && (forall i | 0 <= i < |r.domain.codes| :: ValidCode(r.domain, r.domain.codes[i], width))
       && (r.domain.hi != 0 ==>
            JudgedToFit(r.domain.lo, width, r.domain.signed) && JudgedToFit(r.domain.hi, width, r.domain.signed))
  }

  predicate ValidRows(items: seq<Item>, rows: seq<Row>, paper: bool) {
    && (forall i, j | 0 <= i < j < |rows| :: rows[i].addr != rows[j].addr)
    && forall i | 0 <= i < |rows| :: ValidRow(items, rows[i], paper)
  }

  /** A code passes if and only if it is not negative, on no step of the range, and judged to fit. */
  lemma ValidCodeExactly(d: Domain, c: Int64, width: Int64)
    requires d.hi != 0 ==> d.step >= 1
    ensures ValidCode(d, c, width) <==> c >= 0 && !OnStep(d, c) && JudgedToFit(c, width, d.signed)
  {
    ContainsExactly(d.(codes := []), c);
    assert OnStep(d, c) <==> OnStep(d.(codes := []), c) by {
      forall k
        ensures StepAt(d, k) == StepAt(d.(codes := []), k)
      {
      }
    }
  }

  method ValidateCodes(d: Domain, width: Int64) returns (ok: bool)
    ensures ok == ((forall i, j | 0 <= i < j < |d.codes| :: d.codes[i] != d.codes[j])
                   && forall i | 0 <= i < |d.codes| :: ValidCode(d, d.codes[i], width))
  {
    var seen: set<int> := {};
    var i := 0;
    while i < |d.codes|
      invariant 0 <= i <= |d.codes|
      invariant seen == set k | 0 <= k < i :: d.codes[k] as int
      invariant forall k | 0 <= k < i :: ValidCode(d, d.codes[k], width)
      invariant forall k, l | 0 <= k < l < i :: d.codes[k] != d.codes[l]
    {
      var c := d.codes[i];
      if c < 0 || c as int in seen {
        return false;
      }
      if d.hi != 0 && d.lo <= c <= d.hi && Wrap(c - d.lo) % (if d.step > 1 then d.step else 1) == 0 {
        return false;
      }
      var fits := ExValueFits(c, width, d.signed);
      if !fits {
        return false;
      }
      seen := seen + {c as int};
      i := i + 1;
    }
    return true;
  }

  lemma {:induction false} NoneTwice(s: seq<Int64>, v: Int64)
    requires forall i, j | 0 <= i < j < |s| :: s[i] != s[j]
    ensures multiset(s)[v] == if v in s then 1 else 0
  {
    if s != [] {
      var n := |s| - 1;
      NoneTwice(s[..n], v);
      assert s == s[..n] + [s[n]];
      assert v in s <==> v in s[..n] || v == s[n];
    }
  }

  /** What a row that passes has: each value listed once, a range in order or none, and on paper no observation. */
  lemma RowRulesMean(items: seq<Item>, r: Row, paper: bool, v: Int64)
    requires ValidRow(items, r, paper)
    ensures multiset(r.domain.codes)[v] <= 1 && (v in r.domain.codes ==> v >= 0 && !OnStep(r.domain, v))
    ensures r.domain.codes != [] || OnStep(r.domain, r.domain.lo)
    ensures if r.domain.hi == 0 then r.domain.lo == 0 else r.domain.lo <= r.domain.hi && r.domain.step > 0
    ensures paper ==> r.observedWidth == 0 && exists d: Int64 :: d > 0 && DigitsOf(items, r.addr) == Some(d)
  {
    var d := r.domain;
    NoneTwice(d.codes, v);
    if i :| 0 <= i < |d.codes| && d.codes[i] == v {
      ValidCodeExactly(d, v, JudgedWidth(DigitsOf(items, r.addr).value, r, paper));
    }
    if d.codes == [] {
      d.LowIsContained();
      ContainsExactly(d, d.lo);
    }
  }

  method BuildDigits(items: seq<Item>) returns (m: map<Address, Int64>)
    ensures forall a :: DigitsOf(items, a) == if a in m then Some(m[a]) else None
  {
    m := map[];
    var i := 0;
    while i < |items|
      invariant 0 <= i <= |items|
      invariant forall a :: DigitsOf(items[..i], a) == if a in m then Some(m[a]) else None
    {
      assert items[..i + 1][..i] == items[..i];
      m := m[items[i].addr := items[i].digits];
      i := i + 1;
    }
    assert items[..i] == items;
  }

  method ValidateRows(items: seq<Item>, rows: seq<Row>, paper: bool) returns (ok: bool)
    ensures ok == ValidRows(items, rows, paper)
  {
    var digits := BuildDigits(items);
    var seen: set<Address> := {};
    var i := 0;
    while i < |rows|
      invariant 0 <= i <= |rows|
      invariant seen == set k | 0 <= k < i :: rows[k].addr
      invariant ValidRows(items, rows[..i], paper)
    {
      var r := rows[i];
      if r.addr !in digits || r.addr in seen {
        return false;
      }
      seen := seen + {r.addr};
      var d, dm := digits[r.addr], r.domain;
      if (dm.codes == [] && dm.hi == 0 && dm.lo == 0) || dm.lo > dm.hi || (dm.hi == 0 && dm.lo != 0) {
        return false;
      }
      if dm.hi != 0 && dm.step < 1 {
        return false;
      }
      if paper {
        if r.observedWidth != 0 || d < 1 {
          return false;
        }
      } else if r.observedWidth != 0 {
        d := r.observedWidth;
      }
      var codes := ValidateCodes(dm, d);
      if !codes {
        return false;
      }
      if dm.hi != 0 {
        var lo := ExValueFits(dm.lo, d, dm.signed);
        var hi := ExValueFits(dm.hi, d, dm.signed);
        if !lo || !hi {
          return false;
        }
      }
      assert ValidRow(items, r, paper);
      i := i + 1;
    }
    assert rows[..i] == rows;
    return true;
  }

  // ---- the digits of a value

  /** Sign, where there is one, and digits: the shape P4 must have before it is read. */
  predicate HasShape(p4: seq<Byte>, signed: bool) {
    if signed then |p4| > 0 && (p4[0] == PLUS || p4[0] == MINUS) && AllDigits(p4[1..]) else AllDigits(p4)
  }

  function Decode(p4: seq<Byte>, signed: bool): int
    requires HasShape(p4, signed)
  {
    if !signed then DecimalValue(p4)
    else if p4[0] == MINUS then 0 - DecimalValue(p4[1..])
    else DecimalValue(p4[1..])
  }

  /** The conversion refuses an empty digit string and a number outside 64 bits. */
  predicate Convertible(p4: seq<Byte>, signed: bool)
    requires HasShape(p4, signed)
  {
    (if signed then |p4| > 1 else |p4| > 0) && -0x8000_0000_0000_0000 <= Decode(p4, signed) < 0x8000_0000_0000_0000
  }

  /** What a Set of this domain and width may carry. */
  predicate Accepts(d: Domain, width: int, p4: seq<Byte>) {
    && width != 0 && |p4| == width && HasShape(p4, d.signed) && Convertible(p4, d.signed)
    && d.Contains(Decode(p4, d.signed))
  }

  /** The width, the shape, at least one digit, and a number that is a code or on a step of the range. */
  ghost predicate Spells(d: Domain, width: int, p4: seq<Byte>) {
    && |p4| == width && HasShape(p4, d.signed) && (exists k :: 0 <= k < |p4| && IsDigit(p4[k]))
    && (Decode(p4, d.signed) in d.codes || OnStep(d, Decode(p4, d.signed)))
  }

  /** A P4 is accepted if and only if it spells a value of the domain in the width. */
  lemma AcceptsExactly(d: Domain, width: int, p4: seq<Byte>)
    ensures Accepts(d, width, p4) <==> Spells(d, width, p4)
  {
    if |p4| == width && HasShape(p4, d.signed) {
      ContainsExactly(d, Decode(p4, d.signed));
      if d.signed && |p4| > 1 {
        assert IsDigit(p4[1..][0]);
      }
    }
  }

  function RenderP4(v: int, width: nat, signed: bool): seq<Byte>
    requires Fits(v, width, signed)
  {
    if signed then [if v < 0 then MINUS else PLUS] + Render(Abs(v), width - 1) else Render(v, width)
  }

  /** The range does not start at the least integer, unless that has room in the field. */
  predicate LowIsSound(d: Domain, width: int) {
    d.hi == 0 || d.lo > MINIMUM || Digits(width, d.signed) >= 19
  }

  lemma WidthIsPositive(v: Int64, width: Int64, signed: bool)
    requires JudgedToFit(v, width, signed) && v > MINIMUM
    ensures Digits(width, signed) >= 1
  {
    var digits := Wrap(Digits(width, signed));
    if digits >= 64 {
      LimitIsZero(digits);
    }
  }

  /** What is judged to fit does fit, the least integer apart. */
  lemma JudgedFits(v: Int64, width: Int64, signed: bool)
    requires JudgedToFit(v, width, signed) && v > MINIMUM
    ensures Fits(v, width, signed)
  {
    WidthIsPositive(v, width, signed);
    LimitOf(Digits(width, signed));
  }

  /** Under a valid row every value of the domain fits the width, and is a machine integer. */
  lemma ValuesFit(items: seq<Item>, r: Row, paper: bool, v: int)
    requires ValidRow(items, r, paper) && r.domain.Contains(v)
    requires LowIsSound(r.domain, JudgedWidth(DigitsOf(items, r.addr).value, r, paper))
    ensures Fits(v, JudgedWidth(DigitsOf(items, r.addr).value, r, paper), r.domain.signed)
    ensures -0x8000_0000_0000_0000 <= v < 0x8000_0000_0000_0000
  {
    var d, width := r.domain, JudgedWidth(DigitsOf(items, r.addr).value, r, paper);
    if v in d.codes {
      var i :| 0 <= i < |d.codes| && d.codes[i] == v;
      assert ValidCode(d, d.codes[i], width);
      JudgedFits(v, width, d.signed);
    } else if Digits(width, d.signed) >= 19 {
      LimitOf(Digits(width, d.signed));
    } else {
      JudgedFits(d.lo, width, d.signed);
      JudgedFits(d.hi, width, d.signed);
    }
  }

  /** A value that fits is written in exactly the width, in a form that reads back as it. */
  lemma RenderP4Decodes(v: int, width: nat, signed: bool)
    requires Fits(v, width, signed)
    ensures var p4 := RenderP4(v, width, signed);
            && |p4| == width && HasShape(p4, signed) && Decode(p4, signed) == v
            && (signed ==> p4[0] == if v < 0 then 45 else 43)
  {
    var digits := if signed then width - 1 else width;
    RenderWidth(Abs(v), digits);
    RenderReadsBack(Abs(v), digits);
    if signed {
      assert RenderP4(v, width, signed)[1..] == Render(Abs(v), digits);
    }
  }

  /** A field holds no more than its digits. */
  lemma DecodedFits(p4: seq<Byte>, signed: bool)
    requires HasShape(p4, signed) && Convertible(p4, signed)
    ensures Fits(Decode(p4, signed), |p4|, signed)
  {
    ValueIsBounded(if signed then p4[1..] else p4);
  }

  predicate CanBeSet(d: Domain, width: int, v: int, p4: seq<Byte>) {
    Accepts(d, width, p4) && Decode(p4, d.signed) == v
  }

  lemma ValueCanBeSet(items: seq<Item>, r: Row, paper: bool, v: int)
    requires ValidRow(items, r, paper) && r.domain.Contains(v)
    requires LowIsSound(r.domain, JudgedWidth(DigitsOf(items, r.addr).value, r, paper))
    ensures var width := JudgedWidth(DigitsOf(items, r.addr).value, r, paper);
            width > 0 && Fits(v, width, r.domain.signed)
            && CanBeSet(r.domain, width, v, RenderP4(v, width, r.domain.signed))
  {
    ValuesFit(items, r, paper, v);
    RenderP4Decodes(v, JudgedWidth(DigitsOf(items, r.addr).value, r, paper), r.domain.signed);
  }

  /**
   Each value of a valid row has a P4 of exactly the row's width that the gate's
   predicate accepts, if and only if the row's range has a sound low end: the
   validator lets the least integer into a field too narrow for it.
   */
  lemma EveryValueCanBeSet(items: seq<Item>, r: Row, paper: bool)
    requires ValidRow(items, r, paper)
    ensures var width := JudgedWidth(DigitsOf(items, r.addr).value, r, paper);
            (forall v: int | r.domain.Contains(v) :: exists p4 :: CanBeSet(r.domain, width, v, p4)) <==>
              LowIsSound(r.domain, width)
  {
    var d, width := r.domain, JudgedWidth(DigitsOf(items, r.addr).value, r, paper);
    if LowIsSound(d, width) {
      forall v: int | d.Contains(v)
        ensures exists p4 :: CanBeSet(d, width, v, p4)
      {
        ValueCanBeSet(items, r, paper, v);
      }
    } else {
      MinimumIsContained(items, r, paper, width);
      forall p4
        ensures !CanBeSet(d, width, MINIMUM, p4)
      {
        MinimumIsNotSettable(d, width, p4);
      }
    }
  }

  lemma MinimumIsContained(items: seq<Item>, r: Row, paper: bool, width: int)
    requires ValidRow(items, r, paper) && !LowIsSound(r.domain, width)
    ensures r.domain.Contains(MINIMUM)
  {
    r.domain.LowIsContained();
  }

  lemma MinimumIsNotSettable(d: Domain, width: int, p4: seq<Byte>)
    requires !LowIsSound(d, width)
    ensures !CanBeSet(d, width, MINIMUM, p4)
  {
    if Accepts(d, width, p4) {
      DecodedFits(p4, d.signed);
      LimitOf(Digits(width, d.signed));
    }
  }

  lemma LeastIntegerIsJudgedToFit()
    ensures JudgedToFit(MINIMUM, 3, true) && JudgedToFit(99, 3, true)
  {
    PowersOfTen();
    AbsWraps(MINIMUM);
  }

  /** A range that starts at the least integer passes the rules in a field of three bytes. */
  lemma LeastIntegerIsAccepted()
    ensures exists items, r ::
              ValidRow(items, r, true) && !LowIsSound(r.domain, JudgedWidth(DigitsOf(items, r.addr).value, r, true))
  {
    var items := [Item(Address(1, 1, 1), "", 3, false)];
    var r := Row(items[0].addr, Domain([], MINIMUM, 99, 1, true), 0);
    assert DigitsOf(items, r.addr) == Some(3);
    LeastIntegerIsJudgedToFit();
    assert ValidRow(items, r, true);
  }

  lemma TwentyDigits()
    ensures Wrap(Pow10(20)) == 7_766_279_631_452_241_920
  {
    PowersOfTen();
    EighteenDigitsFit();
    PowersMultiply(1, 19);
  }

  const FAR: Int64 := 7_000_000_000_000_000_000

  lemma FarIsJudgedToFit()
    ensures JudgedToFit(-FAR, 21, true) && JudgedToFit(FAR, 21, true)
  {
    TwentyDigits();
    AbsWraps(-FAR);
    AbsWraps(FAR);
  }

  lemma TwoThirdsIsMissed()
    ensures var d := Domain([], -FAR, FAR, 3, true);
            StepAt(d, 4_666_666_666_666_666_666) == FAR - 2 && !d.Contains(FAR - 2)
  {
  }

  /** A range of 2^63 or more passes the rules too, and then a value on one of its steps may not be contained. */
  lemma StepIsMissed()
    ensures exists items, r, k: nat ::
              ValidRow(items, r, true) && StepAt(r.domain, k) <= r.domain.hi && !r.domain.Contains(StepAt(r.domain, k))
  {
    var items := [Item(Address(1, 1, 1), "", 21, false)];
    var r := Row(items[0].addr, Domain([], -FAR, FAR, 3, true), 0);
    assert DigitsOf(items, r.addr) == Some(21);
    FarIsJudgedToFit();
    assert ValidRow(items, r, true);
    TwoThirdsIsMissed();
  }

  /** The other zero of a signed field. */
  function OtherZero(p4: seq<Byte>): seq<Byte>
    requires p4 != []
  {
    [if p4[0] == MINUS then PLUS else MINUS] + p4[1..]
  }

  /** Two accepted forms of one value are the same form, except that a signed zero has its two. */
  lemma FormsAreUnique(d: Domain, width: int, p: seq<Byte>, q: seq<Byte>)
    requires Accepts(d, width, p) && Accepts(d, width, q) && Decode(p, d.signed) == Decode(q, d.signed)
    ensures p == q || (d.signed && Decode(p, true) == 0 && q == OtherZero(p))
  {
    if d.signed {
      SameValueSameField(p[1..], q[1..]);
      assert p == [p[0]] + p[1..] && q == [q[0]] + q[1..];
    } else {
      SameValueSameField(p, q);
    }
  }

  /** And both of those are accepted whenever one is. */
  lemma BothZerosAreAccepted(d: Domain, width: int, p: seq<Byte>)
    requires Accepts(d, width, p) && d.signed && Decode(p, true) == 0
    ensures Accepts(d, width, OtherZero(p)) && Decode(OtherZero(p), true) == 0 && OtherZero(p) != p
  {
    assert OtherZero(p)[1..] == p[1..];
  }
}
