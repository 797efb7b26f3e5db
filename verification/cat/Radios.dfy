/**
 The registered radios' own configurations, their menus left out and their mode
 legends cut to two: every rule passes them, so the rules refuse no radio in use.
 */
module Radios {
  import opened Wire
  import opened SlotSpaces
  import opened ExAddresses
  import opened ExValues
  import opened FrameRules
  import opened Dialects
  import ExSettable

  const MODES: map<Byte, string> := map[49 := "LSB", 50 := "USB"]

  const EMG: seq<Byte> := [69, 77, 71]
  const EMGCH: seq<Byte> := [69, 77, 71, 67, 72]
  const BLANK: Byte := 32

  /** Slots as on most of the family: memories 1 to 99, a 60m band, nine token pairs. */
  function Family(sixtyLo: Int64, sixtyHi: Int64, policy: McPolicy): SlotSpace {
    SlotSpace(1, 99, sixtyLo, sixtyHi, 9, Token, 0, EMG, [ZERO, ZERO, ZERO], 0, policy)
  }

  function Combined(slots: MtReads, p11: P11Policy): MtPolicy {
    MtPolicy(12, slots, MtCombined, 0, 0, BLANK, p11)
  }

  const FT710: Config :=
    Config([48, 56, 48, 48], MODES, Family(501, 599, SelectsAll), [], Triple, [], false,
           FrameConfig(MtPolicy(12, MtReadsReadable, MtShort, BLANK, BLANK, 0, P11Unset), 10, 9990, ZERO + 1,
                       P5TxClar, TonesCtcss, 28, 9, P9Fixed00))

  const FT891: Config :=
    Config([48, 54, 53, 48], MODES, Family(501, 510, SelectsMemoryPms), [], Pair, [], false,
           FrameConfig(Combined(MtReadsMemoryPms, P11TagDisplay), 10, 9990, ZERO,
                       P5Fixed, TonesCtcss, 28, 9, P9Fixed00))

  const FT991A: Config :=
    Config([48, 54, 55, 48], MODES, SlotSpace(1, 99, 0, 0, 9, Numeric, 100, [], [ZERO, ZERO, ZERO], 0, SelectsAll),
           [], Single, [], false,
           FrameConfig(Combined(MtReadsReadable, P11Fixed), 10, 9990, ZERO,
                       P5TxClar, TonesCtcssAndDcs, 28, 9, P9Fixed00))

  /** Four of its menus: a signed range, a stepped range, a range with a code, and codes alone. */
  const FTDX10_ITEMS: seq<Item> :=
    [Item(Address(1, 1, 1), "AF TREBLE GAIN", 3, false), Item(Address(1, 1, 4), "AGC FAST DELAY", 4, false),
     Item(Address(1, 1, 7), "LCUT FREQ", 2, false), Item(Address(1, 1, 8), "LCUT SLOP", 1, false)]

  const FTDX10_ROWS: seq<Row> :=
    [Row(Address(1, 1, 1), Domain([], -10, 10, 1, true), 0), Row(Address(1, 1, 4), Domain([], 20, 4000, 20, false), 0),
     Row(Address(1, 1, 7), Domain([0], 1, 19, 1, false), 0), Row(Address(1, 1, 8), Domain([0, 1], 0, 0, 0, false), 0)]

  /** With the widths of its chart, or with none observed yet. */
  function Ftdx10(paper: bool): Config {
    Config([48, 55, 54, 49], MODES, Family(501, 599, SelectsAll), FTDX10_ITEMS, Triple, FTDX10_ROWS, paper,
           FrameConfig(Combined(MtReadsReadable, P11Fixed), 10, 9990, ZERO, P5TxClar, TonesCtcss, 28, 9, P9Fixed00))
  }

  const FTX1: Config :=
    Config([48, 56, 52, 48], MODES,
           SlotSpace(1, 999, 50001, 50020, 50, DashToken, 0, EMGCH, [ZERO, ZERO, ZERO, ZERO, ZERO], 5, Unsupported),
           [], Triple, [], false,
           FrameConfig(MtPolicy(12, MtReadsReadable, MtShortNoDisplay, 0, 0, BLANK, P11Unset), 10, 9990, ZERO + 1,
                       P5TxClar, TonesSix, 30, 9, P9Fixed00))

  lemma ModesAreValid()
    ensures ValidModes(MODES)
  {
    assert 49 in MODES;
    assert MODES[49][0] != MODES[50][0];
  }

  lemma {:induction false} Zeros(s: seq<Byte>)
    requires forall i | 0 <= i < |s| :: s[i] == ZERO
    ensures AllDigits(s) && DecimalValue(s) == 0
  {
    if s != [] {
      Zeros(s[..|s| - 1]);
    }
  }

  lemma FamilySlotsAreValid(s: SlotSpace)
    requires s in {FT710.slots, FT891.slots, Ftdx10(true).slots}
    ensures Valid(s)
  {
    PowersOfTen();
    Zeros(s.noneWire);
    assert !IsDigit(EMG[0]);
  }

  lemma NumericSlotsAreValid()
    ensures Valid(FT991A.slots)
  {
    PowersOfTen();
    Zeros(FT991A.slots.noneWire);
  }

  lemma FiveByteSlotsAreValid()
    ensures Valid(FTX1.slots)
  {
    PowersOfTen();
    Zeros(FTX1.slots.noneWire);
    assert !IsDigit(EMGCH[0]);
  }

  /** Four digits are far from where the validator's arithmetic turns over. */
  lemma SmallIsJudged(v: Int64, width: Int64, signed: bool)
    requires 1 <= Digits(width, signed) <= 4 && Fits(v, width, signed)
    ensures JudgedToFit(v, width, signed)
  {
    LimitOf(Digits(width, signed));
    AbsWraps(v);
  }

  /** A row whose codes lie outside its range, all of it small. */
  lemma SmallRowIsValid(items: seq<Item>, k: nat, r: Row, paper: bool)
    requires UniqueAddresses(items) && k < |items| && r.addr == items[k].addr && r.observedWidth == 0
    requires var d, width := r.domain, items[k].digits;
             && 1 <= Digits(width, d.signed) <= 4 && !d.Empty() && d.lo <= d.hi
             && (if d.hi == 0 then d.lo == 0
                 else d.step >= 1 && Fits(d.lo, width, d.signed) && Fits(d.hi, width, d.signed))
             && (forall i, j | 0 <= i < j < |d.codes| :: d.codes[i] != d.codes[j])
             && forall i | 0 <= i < |d.codes| ::
                  d.codes[i] >= 0 && (d.codes[i] < d.lo || d.hi == 0) && Fits(d.codes[i], width, d.signed)
    ensures ValidRow(items, r, paper)
  {
    ExSettable.DigitsAreTheItems(items, k);
    var d, width := r.domain, items[k].digits;
    forall i | 0 <= i < |d.codes|
      ensures ValidCode(d, d.codes[i], width)
    {
      SmallIsJudged(d.codes[i], width, d.signed);
    }
    if d.hi != 0 {
      SmallIsJudged(d.lo, width, d.signed);
      SmallIsJudged(d.hi, width, d.signed);
    }
  }

  lemma RangesAreValid(paper: bool)
    ensures ValidRow(FTDX10_ITEMS, FTDX10_ROWS[0], paper) && ValidRow(FTDX10_ITEMS, FTDX10_ROWS[1], paper)
  {
    PowersOfTen();
    assert Pow10(4) == 10000;
    SmallRowIsValid(FTDX10_ITEMS, 0, FTDX10_ROWS[0], paper);
    SmallRowIsValid(FTDX10_ITEMS, 1, FTDX10_ROWS[1], paper);
  }

  lemma CodesAreValid(paper: bool)
    ensures ValidRow(FTDX10_ITEMS, FTDX10_ROWS[2], paper) && ValidRow(FTDX10_ITEMS, FTDX10_ROWS[3], paper)
  {
    PowersOfTen();
    SmallRowIsValid(FTDX10_ITEMS, 2, FTDX10_ROWS[2], paper);
    SmallRowIsValid(FTDX10_ITEMS, 3, FTDX10_ROWS[3], paper);
  }

  lemma RowsFromEach(items: seq<Item>, rows: seq<Row>, paper: bool)
    requires |rows| == 4 && rows[0].addr != rows[1].addr && rows[0].addr != rows[2].addr && rows[0].addr != rows[3].addr
    requires rows[1].addr != rows[2].addr && rows[1].addr != rows[3].addr && rows[2].addr != rows[3].addr
    requires ValidRow(items, rows[0], paper) && ValidRow(items, rows[1], paper)
    requires ValidRow(items, rows[2], paper) && ValidRow(items, rows[3], paper)
    ensures ValidRows(items, rows, paper)
  {
    forall k | 0 <= k < 4
      ensures ValidRow(items, rows[k], paper)
    {
      assert k == 0 || k == 1 || k == 2 || k == 3;
    }
  }

  lemma ItemsAreValid()
    ensures ValidItems(Triple, FTDX10_ITEMS)
  {
  }

  lemma RowsAreValid(paper: bool)
    ensures ValidRows(FTDX10_ITEMS, FTDX10_ROWS, paper)
  {
    RangesAreValid(paper);
    CodesAreValid(paper);
    RowsFromEach(FTDX10_ITEMS, FTDX10_ROWS, paper);
  }

  const RADIOS: set<Config> := {FT710, FT891, FT991A, Ftdx10(false), Ftdx10(true), FTX1}

  lemma PartsAreValid(c: Config, rule: Rule)
    requires c in RADIOS
    ensures rule !in {V2, V19, V3, V15, V4, V5, V6, V7, V8, V20} ==> Passes(rule, c)
  {
  }

  lemma MenusAreValid(c: Config)
    requires c in RADIOS
    ensures Passes(V8, c) && Passes(V20, c)
  {
    if c.exItems == FTDX10_ITEMS {
      ItemsAreValid();
      RowsAreValid(c.exWritePaper);
    }
  }

  /** Every rule passes every radio. */
  lemma RadiosAreValid(c: Config)
    requires c in RADIOS
    ensures ValidConfig(c)
  {
    ModesAreValid();
    if c == FTX1 {
      FiveByteSlotsAreValid();
    } else if c == FT991A {
      NumericSlotsAreValid();
    } else {
      FamilySlotsAreValid(c.slots);
    }
    MenusAreValid(c);
    forall rule: Rule
      ensures Passes(rule, c)
    {
      PartsAreValid(c, rule);
    }
  }
}
