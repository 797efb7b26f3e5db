/**
 The slot numbering of a dialect: the rules its configuration must pass, and the
 classifier every slot-taking command goes through.
 */
module SlotSpaces {
  import opened Results
  import opened Wire

  /** Division of machine integers by two, towards zero. */
  function Half(x: Int64): Int64 {
    var y: int := x;
    if y >= 0 then y / 2 else -((-y) / 2)
  }

  const MAX_SLOT_DECIMAL: int := 999

  /** `Undeclared` stands for a form value that names no form. */
  datatype PmsForm = Unset | Token | Numeric | DashToken | Undeclared

  datatype McPolicy = UnsetPolicy | SelectsAll | SelectsMemoryPms | Unsupported | UndeclaredPolicy

  datatype SlotSpace = SlotSpace(
    memoryLo: Int64, memoryHi: Int64,
    sixtyLo: Int64, sixtyHi: Int64,
    pmsPairs: Int64, pmsForm: PmsForm, pmsNumericLo: Int64,
    emergencyWire: seq<Byte>, noneWire: seq<Byte>,
    slotDigits: Int64,
    mcSelects: McPolicy)
  {
    function Digits(): Int64 {
      if slotDigits == 0 then 3 else slotDigits
    }
  }

  datatype Kind = Invalid | Memory | Pms | Sixty | Emg | NoneSlot

  const UPPER_P: Byte := 80
  const UPPER_L: Byte := 76
  const UPPER_U: Byte := 85
  const DASH: Byte := 45

  // ---- the rules

  /** V19 */
  predicate ValidDigits(s: SlotSpace) {
    s.slotDigits == 0 || s.slotDigits == 3 || s.slotDigits == 5
  }

  /** V3 */
  predicate ValidPairs(s: SlotSpace) {
    s.pmsPairs >= 0
    && match s.pmsForm
       case Numeric => true
       case DashToken => s.pmsPairs <= 50
       case _ => s.pmsPairs <= 9
  }

  function MaxPairs(lo: Int64): Int64 {
    var m := Half(Wrap(Wrap(MAX_SLOT_DECIMAL - lo) + 1));
    if m > 0 then m else 0
  }

  /** V15 */
  predicate ValidForm(s: SlotSpace) {
    match s.pmsForm
    case Token => s.pmsNumericLo == 0
    case DashToken => s.pmsNumericLo == 0
    case Numeric => s.pmsNumericLo >= 1 && s.pmsPairs <= MaxPairs(s.pmsNumericLo) && s.pmsPairs >= 1
    case Unset => s.pmsPairs <= 0 && s.pmsNumericLo == 0
    case Undeclared => false
  }

  /** V4 */
  predicate ValidSpecials(s: SlotSpace) {
    && (s.emergencyWire != [] ==> |s.emergencyWire| == s.Digits() && ValidWireString(s.emergencyWire))
    && (s.noneWire != [] ==> |s.noneWire| == s.Digits() && ValidWireString(s.noneWire))
  }

  method MaxSlotDecimalFor(digits: nat) returns (m: int)
    ensures m == Pow10(digits) - 1
  {
    m := 1;
    var i := 0;
    while i < digits
      invariant 0 <= i <= digits && m * Pow10(digits - i) == Pow10(digits)
    {
      m := m * 10;
      i := i + 1;
    }
    m := m - 1;
  }

  predicate ValidRange(lo: Int64, hi: Int64, digits: nat) {
    (lo == 0 && hi == 0) || (hi > 0 && 0 <= lo <= hi && hi <= Pow10(digits) - 1)
  }

  /** The decimal numbers the pairs occupy, computed on machine integers from the configuration. */
  function NumericInterval(s: SlotSpace): Option<(int, int)> {
    if s.pmsForm != Numeric || s.pmsPairs <= 0 then None
    else Some((s.pmsNumericLo, Wrap(Wrap(s.pmsNumericLo + Wrap(2 * s.pmsPairs)) - 1)))
  }

  predicate Overlap(lo: int, hi: int, lo': int, hi': int) {
    lo <= hi' && lo' <= hi
  }

  /** V5 */
  predicate ValidMemoryRange(s: SlotSpace)
    requires ValidDigits(s)
  {
    ValidRange(s.memoryLo, s.memoryHi, s.Digits())
  }

  /** V6 */
  predicate ValidSixtyRange(s: SlotSpace)
    requires ValidDigits(s)
  {
    && ValidRange(s.sixtyLo, s.sixtyHi, s.Digits())
    && !(s.memoryHi > 0 && s.sixtyHi > 0 && Overlap(s.memoryLo, s.memoryHi, s.sixtyLo, s.sixtyHi))
    && (NumericInterval(s).Some? ==>
          var (lo, hi) := NumericInterval(s).value;
          && !(s.memoryHi > 0 && Overlap(s.memoryLo, s.memoryHi, lo, hi))
          && !(s.sixtyHi > 0 && Overlap(s.sixtyLo, s.sixtyHi, lo, hi)))
  }

  predicate Between(wire: seq<Byte>, lo: int, hi: int) {
    AllDigits(wire) && lo <= DecimalValue(wire) <= hi
  }

  predicate Suffix(b: Byte) {
    b == UPPER_L || b == UPPER_U
  }

  /** "P", one digit of 1..pairs, "L" or "U"; what follows is not looked at. */
  predicate TokenShape(wire: seq<Byte>, pairs: int) {
    |wire| >= 3 && wire[0] == UPPER_P && ZERO + 1 <= wire[1] <= (ZERO + pairs) % 256 && Suffix(wire[2])
  }

  /** "P-", two digits of 01..pairs, "L" or "U" */
  predicate DashShape(wire: seq<Byte>, pairs: int) {
    |wire| == 5 && wire[0] == UPPER_P && wire[1] == DASH && IsDigit(wire[2]) && IsDigit(wire[3]) && Suffix(wire[4])
    && 1 <= 10 * (wire[2] - ZERO) + (wire[3] - ZERO) <= pairs
  }

  predicate PmsWireInRange(wire: seq<Byte>, s: SlotSpace) {
    s.pmsPairs > 0 && |wire| == s.Digits()
    && if NumericInterval(s).Some? then Between(wire, NumericInterval(s).value.0, NumericInterval(s).value.1)
       else if s.pmsForm == DashToken then DashShape(wire, s.pmsPairs)
       else TokenShape(wire, s.pmsPairs)
  }

  predicate Shadows(wire: seq<Byte>, s: SlotSpace) {
    wire != [] &&
    (|| (|wire| == s.Digits() && s.memoryHi > 0 && Between(wire, s.memoryLo, s.memoryHi))
     || (|wire| == s.Digits() && s.sixtyHi > 0 && Between(wire, s.sixtyLo, s.sixtyHi))
     || PmsWireInRange(wire, s))
  }

  /** V7 */
  predicate ValidShadowing(s: SlotSpace) {
    && (s.noneWire != [] ==> s.noneWire != s.emergencyWire)
    && !Shadows(s.emergencyWire, s) && !Shadows(s.noneWire, s)
  }

  predicate Valid(s: SlotSpace) {
    && ValidDigits(s) && ValidPairs(s) && ValidForm(s) && ValidSpecials(s)
    && ValidMemoryRange(s) && ValidSixtyRange(s) && ValidShadowing(s)
  }

  // ---- the classifier

  function PmsCap(s: SlotSpace): Int64 {
    match s.pmsForm
    case Numeric => s.pmsPairs
    case DashToken => if s.pmsPairs > 50 then 50 else s.pmsPairs
    case _ => if s.pmsPairs > 9 then 9 else s.pmsPairs
  }

  function NumericPmsRange(s: SlotSpace): Option<(int, int)> {
    if s.pmsForm != Numeric || PmsCap(s) <= 0 then None
    else Some((s.pmsNumericLo, Wrap(Wrap(s.pmsNumericLo + Wrap(2 * PmsCap(s))) - 1)))
  }

  function Classify(s: SlotSpace, wire: seq<Byte>): Kind {
    if |wire| != s.Digits() then Invalid
    else if s.noneWire != [] && wire == s.noneWire then NoneSlot
    else if s.emergencyWire != [] && wire == s.emergencyWire then Emg
    else if AllDigits(wire) then
      var n := DecimalValue(wire);
      if s.memoryHi > 0 && s.memoryLo <= n <= s.memoryHi then Memory
      else if s.sixtyHi > 0 && s.sixtyLo <= n <= s.sixtyHi then Sixty
      else if NumericPmsRange(s).Some? && NumericPmsRange(s).value.0 <= n <= NumericPmsRange(s).value.1 then Pms
      else Invalid
    else if s.pmsForm == Token && PmsCap(s) > 0 && TokenShape(wire, PmsCap(s)) then Pms
    else if s.pmsForm == DashToken && PmsCap(s) > 0 && DashShape(wire, PmsCap(s)) then Pms
    else Invalid
  }

  method ClassifySlot(s: SlotSpace, wire: seq<Byte>) returns (k: Kind)
    requires ValidDigits(s)
    ensures k == Classify(s, wire)
  {
    if |wire| != s.Digits() {
      return Invalid;
    }
    if s.noneWire != [] && wire == s.noneWire {
      return NoneSlot;
    }
    if s.emergencyWire != [] && wire == s.emergencyWire {
      return Emg;
    }
    var allDigits := true;
    var i := 0;
    while i < |wire|
      invariant 0 <= i <= |wire|
      invariant allDigits == AllDigits(wire[..i])
    {
      if wire[i] < ZERO || wire[i] > NINE {
        allDigits := false;
        assert !IsDigit(wire[i]);
        break;
      }
      i := i + 1;
    }
    assert allDigits == AllDigits(wire) by {
      if allDigits {
        assert wire[..i] == wire;
      }
    }
    if allDigits {
      var n := DecimalValue(wire);
      if s.memoryHi > 0 && s.memoryLo <= n <= s.memoryHi {
        return Memory;
      }
      if s.sixtyHi > 0 && s.sixtyLo <= n <= s.sixtyHi {
        return Sixty;
      }
      var range := NumericPmsRange(s);
      return if range.Some? && range.value.0 <= n <= range.value.1 then Pms else Invalid;
    }
    if s.pmsForm == Token && PmsCap(s) > 0 && TokenShape(wire, PmsCap(s)) {
      return Pms;
    }
    if s.pmsForm == DashToken && PmsCap(s) > 0 && DashShape(wire, PmsCap(s)) {
      return Pms;
    }
    return Invalid;
  }

  // ---- the seven arms, each by itself

  datatype Arm = ArmNone | ArmEmg | ArmMemory | ArmSixty | ArmNumericPms | ArmTokenPms | ArmDashPms

  predicate Holds(arm: Arm, s: SlotSpace, wire: seq<Byte>) {
    |wire| == s.Digits()
    && match arm
       case ArmNone => s.noneWire != [] && wire == s.noneWire
       case ArmEmg => s.emergencyWire != [] && wire == s.emergencyWire
       case ArmMemory => s.memoryHi > 0 && Between(wire, s.memoryLo, s.memoryHi)
       case ArmSixty => s.sixtyHi > 0 && Between(wire, s.sixtyLo, s.sixtyHi)
       case ArmNumericPms =>
         NumericPmsRange(s).Some? && Between(wire, NumericPmsRange(s).value.0, NumericPmsRange(s).value.1)
       case ArmTokenPms => s.pmsForm == Token && PmsCap(s) > 0 && TokenShape(wire, PmsCap(s))
       case ArmDashPms => s.pmsForm == DashToken && PmsCap(s) > 0 && DashShape(wire, PmsCap(s))
  }

  function KindOf(arm: Arm): Kind {
    match arm
    case ArmNone => NoneSlot
    case ArmEmg => Emg
    case ArmMemory => Memory
    case ArmSixty => Sixty
    case _ => Pms
  }

  // ---- what the rules give

  /** V15 accepts a count exactly when the last pair's number fits three digits, over the unbounded integers. */
  lemma PairBoundIsExact(lo: Int64, pairs: Int64)
    requires lo >= 1 && pairs >= 1
    ensures pairs <= MaxPairs(lo) <==> lo + 2 * pairs - 1 <= MAX_SLOT_DECIMAL
  {
  }

  /** V15: numeric pairs start somewhere from 1 on and end by 999, there is one at least, and only they have a start. */
  lemma FormIsExact(s: SlotSpace)
    ensures ValidForm(s) <==>
              if s.pmsForm == Numeric then
                s.pmsNumericLo > 0 && s.pmsPairs > 0 && s.pmsNumericLo + 2 * s.pmsPairs - 1 <= 999
              else
                s.pmsNumericLo == 0 && (s.pmsForm in {Token, DashToken} || (s.pmsForm == Unset && s.pmsPairs <= 0))
  {
    if s.pmsNumericLo >= 1 && s.pmsPairs >= 1 {
      PairBoundIsExact(s.pmsNumericLo, s.pmsPairs);
    }
  }

  /** V5 and V6 on one range: none, or numbers in order, not only zero, that print in the slot's digits. */
  lemma RangeIsExact(lo: Int64, hi: Int64, digits: nat)
    requires digits >= 1
    ensures ValidRange(lo, hi, digits) <==>
              (lo == 0 && hi == 0) || (0 <= lo <= hi && hi != 0 && |Render(hi, digits)| == digits)
  {
    if hi >= 0 {
      RenderWidth(hi, digits);
    }
  }

  /** V3 refuses exactly the counts a dialect would cut short: those a token's one digit cannot say, or above 50. */
  lemma PairCapIsExact(s: SlotSpace)
    requires s.pmsPairs >= 0
    ensures ValidPairs(s) <==> PmsCap(s) == s.pmsPairs
    ensures s.pmsForm == Token ==> (ValidPairs(s) <==> |Render(s.pmsPairs, 1)| == 1)
    ensures s.pmsForm == DashToken ==> (ValidPairs(s) <==> s.pmsPairs < 51)
  {
    PowersOfTen();
    RenderWidth(s.pmsPairs, 1);
  }

  /** For an accepted slot space the cap never clamps, nothing wraps, and configuration and dialect agree. */
  lemma IntervalsCoincide(s: SlotSpace)
    requires ValidPairs(s) && ValidForm(s)
    ensures PmsCap(s) == s.pmsPairs && NumericPmsRange(s) == NumericInterval(s)
    ensures NumericPmsRange(s).Some? ==>
              NumericPmsRange(s).value == (s.pmsNumericLo as int, s.pmsNumericLo + 2 * s.pmsPairs - 1)
              && s.pmsNumericLo + 2 * s.pmsPairs - 1 <= MAX_SLOT_DECIMAL
  {
    if s.pmsForm == Numeric {
      PairBoundIsExact(s.pmsNumericLo, s.pmsPairs);
      WrapKeeps(2 * s.pmsPairs);
      WrapKeeps(s.pmsNumericLo + 2 * s.pmsPairs);
      WrapKeeps(s.pmsNumericLo + 2 * s.pmsPairs - 1);
    }
  }

  /** At most one arm holds of any wire form. */
  lemma ArmsAreDisjoint(s: SlotSpace, wire: seq<Byte>, a: Arm, b: Arm)
    requires Valid(s) && Holds(a, s, wire) && Holds(b, s, wire)
    ensures a == b
  {
    IntervalsCoincide(s);
  }

  /** The rules on each part by itself. */
  predicate PartsValid(s: SlotSpace) {
    && ValidDigits(s) && ValidPairs(s) && ValidForm(s) && ValidSpecials(s)
    && ValidRange(s.memoryLo, s.memoryHi, s.Digits()) && ValidRange(s.sixtyLo, s.sixtyHi, s.Digits())
  }

  ghost predicate Disjoint(s: SlotSpace) {
    forall wire, a, b | Holds(a, s, wire) && Holds(b, s, wire) :: a == b
  }

  /** The numbers an arm takes, if it takes numbers. */
  function RangeOf(s: SlotSpace, arm: Arm): Option<(int, int)> {
    match arm
    case ArmMemory => if s.memoryHi > 0 then Some((s.memoryLo, s.memoryHi)) else None
    case ArmSixty => if s.sixtyHi > 0 then Some((s.sixtyLo, s.sixtyHi)) else None
    case ArmNumericPms => NumericPmsRange(s)
    case _ => None
  }

  lemma NumberHolds(s: SlotSpace, arm: Arm, n: int)
    requires PartsValid(s) && RangeOf(s, arm).Some? && RangeOf(s, arm).value.0 <= n <= RangeOf(s, arm).value.1
    ensures n >= 0 && Holds(arm, s, Render(n, s.Digits()))
  {
    IntervalsCoincide(s);
    PowersOfTen();
    RenderWidth(n, s.Digits());
    RenderReadsBack(n, s.Digits());
  }

  lemma OverlapClashes(s: SlotSpace, a: Arm, b: Arm)
    requires PartsValid(s) && a != b && RangeOf(s, a).Some? && RangeOf(s, b).Some?
    requires Overlap(RangeOf(s, a).value.0, RangeOf(s, a).value.1, RangeOf(s, b).value.0, RangeOf(s, b).value.1)
    ensures !Disjoint(s)
  {
    IntervalsCoincide(s);
    var lo, lo' := RangeOf(s, a).value.0, RangeOf(s, b).value.0;
    var n := if lo > lo' then lo else lo';
    NumberHolds(s, a, n);
    NumberHolds(s, b, n);
  }

  lemma ShadowIsHeld(s: SlotSpace, wire: seq<Byte>)
    requires PartsValid(s) && Shadows(wire, s)
    ensures Holds(ArmMemory, s, wire) || Holds(ArmSixty, s, wire) || Holds(ArmNumericPms, s, wire)
            || Holds(ArmTokenPms, s, wire) || Holds(ArmDashPms, s, wire)
  {
    IntervalsCoincide(s);
  }

  lemma ShadowingClashes(s: SlotSpace)
    requires PartsValid(s) && !ValidShadowing(s)
    ensures !Disjoint(s)
  {
    if s.noneWire != [] && s.noneWire == s.emergencyWire {
      assert Holds(ArmNone, s, s.noneWire) && Holds(ArmEmg, s, s.noneWire);
    } else if Shadows(s.emergencyWire, s) {
      assert Holds(ArmEmg, s, s.emergencyWire);
      ShadowIsHeld(s, s.emergencyWire);
    } else {
      assert Holds(ArmNone, s, s.noneWire);
      ShadowIsHeld(s, s.noneWire);
    }
  }

  /** The rules on how the parts lie to each other are exactly that: they accept what keeps the arms apart, no less. */
  lemma RulesAreExact(s: SlotSpace)
    requires PartsValid(s)
    ensures Valid(s) <==> Disjoint(s)
  {
    IntervalsCoincide(s);
    if Valid(s) {
      forall wire, a, b | Holds(a, s, wire) && Holds(b, s, wire)
        ensures a == b
      {
        ArmsAreDisjoint(s, wire, a, b);
      }
    } else if !ValidShadowing(s) {
      ShadowingClashes(s);
    } else if s.memoryHi > 0 && s.sixtyHi > 0 && Overlap(s.memoryLo, s.memoryHi, s.sixtyLo, s.sixtyHi) {
      OverlapClashes(s, ArmMemory, ArmSixty);
    } else {
      var (lo, hi) := NumericInterval(s).value;
      OverlapClashes(s, if s.memoryHi > 0 && Overlap(s.memoryLo, s.memoryHi, lo, hi) then ArmMemory else ArmSixty,
                     ArmNumericPms);
    }
  }

  /** So the order of the arms decides nothing: an arm that holds gives its kind, whatever comes before it... */
  lemma ArmGivesKind(s: SlotSpace, wire: seq<Byte>, arm: Arm)
    requires Valid(s) && Holds(arm, s, wire)
    ensures Classify(s, wire) == KindOf(arm)
  {
    IntervalsCoincide(s);
  }

  /** ...and a kind is given only where one of its arms holds. */
  lemma KindHasArm(s: SlotSpace, wire: seq<Byte>)
    requires Classify(s, wire) != Invalid
    ensures exists a: Arm :: Holds(a, s, wire) && KindOf(a) == Classify(s, wire)
  {
    if Classify(s, wire) == Pms {
      assert Holds(ArmNumericPms, s, wire) || Holds(ArmTokenPms, s, wire) || Holds(ArmDashPms, s, wire);
    } else {
      assert Classify(s, wire) == Memory ==> Holds(ArmMemory, s, wire);
      assert Classify(s, wire) == Sixty ==> Holds(ArmSixty, s, wire);
      assert Classify(s, wire) == Emg ==> Holds(ArmEmg, s, wire);
      assert Classify(s, wire) == NoneSlot ==> Holds(ArmNone, s, wire);
    }
  }

  // ---- slots, as their constructors build them

  datatype Slot = Slot(wire: seq<Byte>, kind: Kind)

  function ParseSlot(s: SlotSpace, wire: seq<Byte>): Option<Slot> {
    if Classify(s, wire) == Invalid then None else Some(Slot(wire, Classify(s, wire)))
  }

  function MemorySlot(s: SlotSpace, n: Int64): Option<Slot>
    requires Valid(s)
  {
    if n < s.memoryLo || n > s.memoryHi || s.memoryHi == 0 then None else Some(Slot(Render(n, s.Digits()), Memory))
  }

  function SixtySlot(s: SlotSpace, n: Int64): Option<Slot>
    requires Valid(s)
  {
    if s.sixtyHi == 0 || n < 1 || n > s.sixtyHi - s.sixtyLo + 1 then None
    else Some(Slot(Render(s.sixtyLo + n - 1, s.Digits()), Sixty))
  }

  function EmgSlot(s: SlotSpace): Option<Slot> {
    if s.emergencyWire == [] then None else Some(Slot(s.emergencyWire, Emg))
  }

  /** The wire form the radio's manual prints for a pair. */
  function PmsWire(s: SlotSpace, pair: int, upper: bool): seq<Byte>
    requires Valid(s) && 1 <= pair <= PmsCap(s)
  {
    var suffix := if upper then UPPER_U else UPPER_L;
    if s.pmsForm == Numeric then Render(s.pmsNumericLo + 2 * (pair - 1) + (if upper then 1 else 0), s.Digits())
    else if s.pmsForm == DashToken then [UPPER_P, DASH] + Render(pair, 2) + [suffix]
    else [UPPER_P] + Render(pair, 1) + [suffix]
  }

  function PmsSlot(s: SlotSpace, pair: int, upper: bool): Option<Slot>
    requires Valid(s)
  {
    if pair < 1 || pair > PmsCap(s) then None else Some(Slot(PmsWire(s, pair, upper), Pms))
  }

  /** A number in range renders to one wire form of the slot width, which reads back as it. */
  lemma NumberOnWire(s: SlotSpace, n: nat, wire: seq<Byte>)
    requires Valid(s) && n <= Pow10(s.Digits()) - 1
    ensures |wire| == s.Digits() && AllDigits(wire) && DecimalValue(wire) == n <==> wire == Render(n, s.Digits())
  {
    RenderWidth(n, s.Digits());
    RenderReadsBack(n, s.Digits());
    if |wire| == s.Digits() && AllDigits(wire) && DecimalValue(wire) == n {
      ValueRendersBack(wire);
    }
  }

  /** Memory channel numbers and memory wire forms correspond one to one. */
  lemma MemorySlotsAreExact(s: SlotSpace, n: Int64, wire: seq<Byte>)
    requires Valid(s)
    ensures MemorySlot(s, n) == Some(Slot(wire, Memory)) <==>
              Classify(s, wire) == Memory && AllDigits(wire) && DecimalValue(wire) == n
  {
    if MemorySlot(s, n).Some? {
      NumberOnWire(s, n, wire);
      if MemorySlot(s, n).value.wire == wire {
        ArmGivesKind(s, wire, ArmMemory);
      }
    }
  }

  lemma SixtyInRange(s: SlotSpace, n: Int64)
    requires Valid(s)
    ensures SixtySlot(s, n).Some? <==> s.sixtyHi > 0 && s.sixtyLo <= s.sixtyLo + n - 1 <= s.sixtyHi
    ensures SixtySlot(s, n).Some? ==> 0 <= s.sixtyLo + n - 1 <= Pow10(s.Digits()) - 1
  {
  }

  /** An arm outside the PMS ones is exactly its kind. */
  lemma ArmIsItsKind(s: SlotSpace, wire: seq<Byte>, arm: Arm)
    requires Valid(s) && KindOf(arm) != Pms
    ensures Holds(arm, s, wire) <==> Classify(s, wire) == KindOf(arm)
  {
    if Holds(arm, s, wire) {
      ArmGivesKind(s, wire, arm);
    }
    if Classify(s, wire) == KindOf(arm) {
      KindHasArm(s, wire);
    }
  }

  lemma SixtyArmIsExact(s: SlotSpace, n: Int64, wire: seq<Byte>)
    requires Valid(s)
    ensures SixtySlot(s, n) == Some(Slot(wire, Sixty)) <==>
              Holds(ArmSixty, s, wire) && DecimalValue(wire) == s.sixtyLo + n - 1
  {
    SixtyInRange(s, n);
    if SixtySlot(s, n).Some? {
      NumberOnWire(s, s.sixtyLo + n - 1, wire);
    }
  }

  /** 60m channel numbers and 60m wire forms correspond one to one. */
  lemma SixtySlotsAreExact(s: SlotSpace, n: Int64, wire: seq<Byte>)
    requires Valid(s)
    ensures SixtySlot(s, n) == Some(Slot(wire, Sixty)) <==>
              Classify(s, wire) == Sixty && AllDigits(wire) && DecimalValue(wire) == s.sixtyLo + n - 1
  {
    ArmIsItsKind(s, wire, ArmSixty);
    SixtyArmIsExact(s, n, wire);
  }

  lemma EmgSlotIsExact(s: SlotSpace, wire: seq<Byte>)
    requires Valid(s)
    ensures EmgSlot(s) == Some(Slot(wire, Emg)) <==> Classify(s, wire) == Emg
  {
    if s.emergencyWire != [] && wire == s.emergencyWire {
      ArmGivesKind(s, wire, ArmEmg);
    }
  }

  // ---- PMS pairs

  ghost predicate Documented(s: SlotSpace, wire: seq<Byte>)
    requires Valid(s)
  {
    exists pair: int, upper: bool :: PmsSlot(s, pair, upper) == Some(Slot(wire, Pms))
  }

  /** The form spells its pairs in as many bytes as the dialect's slots have. */
  predicate FormFits(s: SlotSpace) {
    || s.pmsPairs <= 0 || s.pmsForm == Numeric
    || (s.pmsForm == Token && s.Digits() == 3) || (s.pmsForm == DashToken && s.Digits() == 5)
  }

  lemma TwoDigits(n: nat)
    requires n < 100
    ensures Render(n, 2) == [ZERO + n / 10, ZERO + n % 10]
    ensures n < 10 ==> Render(n, 1) == [ZERO + n]
  {
    assert Render(n / 10, 1) == [ZERO + n / 10];
  }

  lemma DocumentedIsPms(s: SlotSpace, pair: int, upper: bool)
    requires Valid(s) && FormFits(s) && 1 <= pair <= PmsCap(s)
    ensures Classify(s, PmsWire(s, pair, upper)) == Pms
  {
    IntervalsCoincide(s);
    var wire := PmsWire(s, pair, upper);
    if s.pmsForm == Numeric {
      PowersOfTen();
      NumberOnWire(s, s.pmsNumericLo + 2 * (pair - 1) + (if upper then 1 else 0), wire);
      ArmGivesKind(s, wire, ArmNumericPms);
    } else {
      TwoDigits(pair);
      ArmGivesKind(s, wire, if s.pmsForm == Token then ArmTokenPms else ArmDashPms);
    }
  }

  lemma NumericIsDocumented(s: SlotSpace, wire: seq<Byte>)
    requires Valid(s) && s.pmsForm == Numeric && Classify(s, wire) == Pms
    ensures Documented(s, wire)
  {
    IntervalsCoincide(s);
    PowersOfTen();
    var k := DecimalValue(wire) - s.pmsNumericLo;
    NumberOnWire(s, DecimalValue(wire), wire);
    assert DecimalValue(wire) == s.pmsNumericLo + 2 * (k / 2) + k % 2;
    assert PmsSlot(s, k / 2 + 1, k % 2 == 1) == Some(Slot(wire, Pms));
  }

  lemma TokenIsDocumented(s: SlotSpace, wire: seq<Byte>)
    requires Valid(s) && s.pmsForm == Token && s.Digits() == 3 && Classify(s, wire) == Pms
    ensures Documented(s, wire)
  {
    var pair := wire[1] - ZERO;
    TwoDigits(pair);
    assert PmsWire(s, pair, wire[2] == UPPER_U) == wire;
    assert PmsSlot(s, pair, wire[2] == UPPER_U) == Some(Slot(wire, Pms));
  }

  lemma DashIsDocumented(s: SlotSpace, wire: seq<Byte>)
    requires Valid(s) && s.pmsForm == DashToken && Classify(s, wire) == Pms
    ensures Documented(s, wire)
  {
    var pair := 10 * (wire[2] - ZERO) + (wire[3] - ZERO);
    TwoDigits(pair);
    assert PmsWire(s, pair, wire[4] == UPPER_U) == wire;
    assert PmsSlot(s, pair, wire[4] == UPPER_U) == Some(Slot(wire, Pms));
  }

  /**
   The wire forms classified as PMS are exactly those the manual prints if and
   only if the form is as wide as the dialect's slots.  The rules accept a token
   form on five-byte slots and a dash form on three-byte ones all the same.
   */
  lemma PmsWiresAreExact(s: SlotSpace)
    requires Valid(s)
    ensures (forall wire :: Classify(s, wire) == Pms <==> Documented(s, wire)) <==> FormFits(s)
  {
    if FormFits(s) {
      forall wire
        ensures Classify(s, wire) == Pms <==> Documented(s, wire)
      {
        if Classify(s, wire) == Pms {
          match s.pmsForm
          case Numeric => NumericIsDocumented(s, wire);
          case Token => TokenIsDocumented(s, wire);
          case _ => DashIsDocumented(s, wire);
        } else if Documented(s, wire) {
          var pair: int, upper: bool :| PmsSlot(s, pair, upper) == Some(Slot(wire, Pms));
          DocumentedIsPms(s, pair, upper);
        }
      }
    } else {
      IntervalsCoincide(s);
      TwoDigits(1);
      var wire := PmsWire(s, 1, false);
      assert PmsSlot(s, 1, false) == Some(Slot(wire, Pms));
      assert Documented(s, wire) && |wire| != s.Digits();
    }
  }

  /** A five-byte dialect with one token pair passes every rule; its pair has no slot. */
  lemma TokenOnFiveBytesIsAccepted()
    ensures exists s: SlotSpace :: Valid(s) && !FormFits(s)
  {
    var s := SlotSpace(1, 99, 0, 0, 1, Token, 0, [], [], 5, SelectsAll);
    PowersOfTen();
    assert Valid(s) && !FormFits(s);
  }

  /** Different pairs have different wire forms. */
  lemma PmsWiresAreDistinct(s: SlotSpace, p: int, u: bool, q: int, v: bool)
    requires Valid(s) && 1 <= p <= PmsCap(s) && 1 <= q <= PmsCap(s) && PmsWire(s, p, u) == PmsWire(s, q, v)
    ensures p == q && u == v
  {
    PmsWireReadsBack(s, p, u);
    PmsWireReadsBack(s, q, v);
  }

  /** The number a PMS wire form carries: twice its pair, and one more for the upper slot. */
  function PmsNumber(s: SlotSpace, wire: seq<Byte>): int {
    if s.pmsForm == Numeric then if AllDigits(wire) then DecimalValue(wire) - s.pmsNumericLo + 2 else 0
    else
      var number := if |wire| >= 2 then wire[1..|wire| - 1] else [];
      var digits := if s.pmsForm == DashToken && |number| > 0 then number[1..] else number;
      2 * (if AllDigits(digits) then DecimalValue(digits) else 0)
      + (if |wire| > 0 && wire[|wire| - 1] == UPPER_U then 1 else 0)
  }

  lemma NumericReadsBack(s: SlotSpace, p: int, u: bool)
    requires Valid(s) && s.pmsForm == Numeric && 1 <= p <= PmsCap(s)
    ensures PmsNumber(s, PmsWire(s, p, u)) == 2 * p + if u then 1 else 0
  {
    RenderReadsBack(s.pmsNumericLo + 2 * (p - 1) + (if u then 1 else 0), s.Digits());
  }

  lemma DashReadsBack(s: SlotSpace, p: int, u: bool)
    requires Valid(s) && s.pmsForm == DashToken && 1 <= p <= PmsCap(s)
    ensures PmsNumber(s, PmsWire(s, p, u)) == 2 * p + if u then 1 else 0
  {
    var wire, digits := PmsWire(s, p, u), Render(p, 2);
    assert wire[1..|wire| - 1] == [DASH] + digits && ([DASH] + digits)[1..] == digits;
    RenderReadsBack(p, 2);
  }

  lemma TokenReadsBack(s: SlotSpace, p: int, u: bool)
    requires Valid(s) && s.pmsForm != Numeric && s.pmsForm != DashToken && 1 <= p <= PmsCap(s)
    ensures PmsNumber(s, PmsWire(s, p, u)) == 2 * p + if u then 1 else 0
  {
    var wire, digits := PmsWire(s, p, u), Render(p, 1);
    assert wire[1..|wire| - 1] == digits;
    RenderReadsBack(p, 1);
  }

  lemma PmsWireReadsBack(s: SlotSpace, p: int, u: bool)
    requires Valid(s) && 1 <= p <= PmsCap(s)
    ensures PmsNumber(s, PmsWire(s, p, u)) == 2 * p + if u then 1 else 0
  {
    match s.pmsForm
    case Numeric => NumericReadsBack(s, p, u);
    case DashToken => DashReadsBack(s, p, u);
    case _ => TokenReadsBack(s, p, u);
  }

  /** Numeric pairs are consecutive numbers, the lower edge first; the others spell the pair and then the edge. */
  lemma PmsWiresInOrder(s: SlotSpace, p: int, u: bool)
    requires Valid(s) && 1 <= p <= PmsCap(s)
    ensures s.pmsForm == Numeric ==>
              PmsWire(s, p, u) == Render(s.pmsNumericLo + 2 * p - (if u then 1 else 2), s.Digits())
    ensures s.pmsForm == Token ==> PmsWire(s, p, u) == [80, 48 + p, if u then 85 else 76]
    ensures s.pmsForm == DashToken ==> PmsWire(s, p, u) == [80, 45, 48 + p / 10, 48 + p % 10, if u then 85 else 76]
  {
    if s.pmsForm != Numeric {
      TwoDigits(p);
    }
  }
}
