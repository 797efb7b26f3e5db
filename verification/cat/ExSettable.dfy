/**
 Which EX addresses and values a built dialect can set: every value of every row
 that has a width, admitted by the gate whenever the chart is as wide, and never
 an address the write table was filtered of.
 */
module ExSettable {
  import opened Results
  import opened Wire
  import opened ExAddresses
  import opened ExValues
  import opened FrameRules
  import opened Dialects
  import opened ExGate

  // ---- values

  /** A valid row's domain is not empty. */
  lemma SomeValue(items: seq<Item>, r: Row, paper: bool) returns (v: Int64)
    requires ValidRow(items, r, paper)
    ensures r.domain.Contains(v)
  {
    if r.domain.codes != [] {
      v := r.domain.codes[0];
    } else {
      v := r.domain.lo;
      r.domain.LowIsContained();
    }
  }

  /** A row with a width is set at the width it was judged by. */
  lemma WidthsAgree(c: Config, i: nat)
    requires ValidRows(c.exItems, c.exWrite, c.exWritePaper) && i < |c.exWrite|
    requires EntryWidth(c.exItems, c.exWrite[i], c.exWritePaper) != 0
    ensures EntryWidth(c.exItems, c.exWrite[i], c.exWritePaper)
         == JudgedWidth(DigitsOf(c.exItems, c.exWrite[i].addr).value, c.exWrite[i], c.exWritePaper)
  {
    assert ValidRow(c.exItems, c.exWrite[i], c.exWritePaper);
  }

  /** `p4` is buildable for row `i` and stands for `v`. */
  predicate Sets(c: Config, i: nat, v: int, p4: seq<Byte>)
    requires i < |c.exWrite|
  {
    && SetP4OK(DialectOf(c), c.exWrite[i].addr, p4)
    && HasShape(p4, c.exWrite[i].domain.signed) && Decode(p4, c.exWrite[i].domain.signed) == v
  }

  lemma SetsIsCanBeSet(c: Config, i: nat, v: int, p4: seq<Byte>)
    requires ValidConfig(c) && i < |c.exWrite|
    ensures Sets(c, i, v, p4) <==>
              CanBeSet(c.exWrite[i].domain, EntryWidth(c.exItems, c.exWrite[i], c.exWritePaper), v, p4)
  {
    MenusAreValid(c);
    RowsAreInTable(c.exWrite, c.exItems, c.exWritePaper, i);
  }

  /**
   Each value of a row that has a width can be set, in a P4 of exactly that width,
   if and only if the row's range has a sound low end.
   */
  lemma EveryValueIsSettable(c: Config, i: nat)
    requires ValidConfig(c) && i < |c.exWrite|
    requires EntryWidth(c.exItems, c.exWrite[i], c.exWritePaper) != 0
    ensures (forall v: int | c.exWrite[i].domain.Contains(v) :: exists p4 :: Sets(c, i, v, p4)) <==>
              LowIsSound(c.exWrite[i].domain, EntryWidth(c.exItems, c.exWrite[i], c.exWritePaper))
  {
    MenusAreValid(c);
    WidthsAgree(c, i);
    var d, width := c.exWrite[i].domain, EntryWidth(c.exItems, c.exWrite[i], c.exWritePaper);
    if LowIsSound(d, width) {
      forall v: int | d.Contains(v)
        ensures exists p4 :: Sets(c, i, v, p4)
      {
        ValueCanBeSet(c.exItems, c.exWrite[i], c.exWritePaper, v);
        SetsIsCanBeSet(c, i, v, RenderP4(v, width, d.signed));
      }
    } else {
      MinimumIsContained(c.exItems, c.exWrite[i], c.exWritePaper, width);
      forall p4
        ensures !Sets(c, i, MINIMUM, p4)
      {
        SetsIsCanBeSet(c, i, MINIMUM, p4);
        MinimumIsNotSettable(d, width, p4);
      }
    }
  }

  // ---- builder and gate

  /** Some value of the row can be written in its width. */
  ghost predicate HoldsSomething(d: Domain, width: int) {
    exists v: Int64 :: d.Contains(v) && Fits(v, width, d.signed)
  }

  /** No row that holds something is set wider than the widest digits of the chart. */
  ghost predicate ChartIsWidest(c: Config) {
    forall i | 0 <= i < |c.exWrite| ::
      var width := EntryWidth(c.exItems, c.exWrite[i], c.exWritePaper);
      HoldsSomething(c.exWrite[i].domain, width) ==> width <= P4MaxBytes(DialectOf(c))
  }

  /** A row whose range has a sound low end holds something. */
  lemma SoundRowHolds(c: Config, i: nat)
    requires ValidConfig(c) && i < |c.exWrite|
    requires EntryWidth(c.exItems, c.exWrite[i], c.exWritePaper) != 0
    requires LowIsSound(c.exWrite[i].domain, EntryWidth(c.exItems, c.exWrite[i], c.exWritePaper))
    ensures HoldsSomething(c.exWrite[i].domain, EntryWidth(c.exItems, c.exWrite[i], c.exWritePaper))
  {
    MenusAreValid(c);
    WidthsAgree(c, i);
    var v := SomeValue(c.exItems, c.exWrite[i], c.exWritePaper);
    ValuesFit(c.exItems, c.exWrite[i], c.exWritePaper, v);
  }

  /** An address counts as settable if and only if some Set of it builds, unless its range has an unsound low end. */
  lemma CanSetExactly(c: Config, i: nat)
    requires ValidConfig(c) && i < |c.exWrite|
    requires LowIsSound(c.exWrite[i].domain, EntryWidth(c.exItems, c.exWrite[i], c.exWritePaper))
    ensures CanSetEX(DialectOf(c), c.exWrite[i].addr) <==> exists p4 :: SetP4OK(DialectOf(c), c.exWrite[i].addr, p4)
  {
    MenusAreValid(c);
    RowsAreInTable(c.exWrite, c.exItems, c.exWritePaper, i);
    if EntryWidth(c.exItems, c.exWrite[i], c.exWritePaper) != 0 {
      var v := SomeValue(c.exItems, c.exWrite[i], c.exWritePaper);
      EveryValueIsSettable(c, i);
      var p4 :| Sets(c, i, v, p4);
    }
  }

  lemma EntryOf(c: Config, a: Address) returns (i: nat)
    requires ValidRows(c.exItems, c.exWrite, c.exWritePaper) && a in DialectOf(c).exWrite
    ensures i < |c.exWrite| && c.exWrite[i].addr == a
    ensures DialectOf(c).exWrite[a] ==
            Descriptor(c.exWrite[i].domain, EntryWidth(c.exItems, c.exWrite[i], c.exWritePaper))
  {
    i := TableHasOnlyRows(c.exWrite, c.exItems, c.exWritePaper, a);
    RowsAreInTable(c.exWrite, c.exItems, c.exWritePaper, i);
  }

  lemma {:induction false} DigitsAreTheItems(items: seq<Item>, k: nat)
    requires k < |items| && UniqueAddresses(items)
    ensures DigitsOf(items, items[k].addr) == Some(items[k].digits)
  {
    if k < |items| - 1 {
      DigitsAreTheItems(items[..|items| - 1], k);
    }
  }

  /** A row is in the table with its own domain, and its width is its observation, or on paper its item's digits. */
  lemma TableIsItsRows(c: Config, i: nat)
    requires ValidConfig(c) && i < |c.exWrite|
    ensures var r, t := c.exWrite[i], DialectOf(c).exWrite;
            && r.addr in t && t[r.addr].domain == r.domain
            && if c.exWritePaper then
                 exists k ::
                   0 <= k < |c.exItems| && c.exItems[k].addr == r.addr && t[r.addr].width == c.exItems[k].digits
               else t[r.addr].width == r.observedWidth
  {
    MenusAreValid(c);
    RowsAreInTable(c.exWrite, c.exItems, c.exWritePaper, i);
    assert ValidRow(c.exItems, c.exWrite[i], c.exWritePaper);
    KnownDigitsIsMember(c.exItems, c.exWrite[i].addr);
    var k :| 0 <= k < |c.exItems| && c.exItems[k].addr == c.exWrite[i].addr;
    DigitsAreTheItems(c.exItems, k);
  }

  lemma SetIsHeld(c: Config, a: Address, p4: seq<Byte>) returns (i: nat)
    requires ValidConfig(c) && SetP4OK(DialectOf(c), a, p4)
    ensures i < |c.exWrite| && |p4| == EntryWidth(c.exItems, c.exWrite[i], c.exWritePaper)
    ensures HoldsSomething(c.exWrite[i].domain, |p4|)
  {
    MenusAreValid(c);
    i := EntryOf(c, a);
    var d := c.exWrite[i].domain;
    DecodedFits(p4, d.signed);
    assert d.Contains(Decode(p4, d.signed));
  }

  lemma HeldIsSettable(c: Config, i: nat) returns (p4: seq<Byte>)
    requires ValidConfig(c) && i < |c.exWrite| && EntryWidth(c.exItems, c.exWrite[i], c.exWritePaper) > 0
    requires HoldsSomething(c.exWrite[i].domain, EntryWidth(c.exItems, c.exWrite[i], c.exWritePaper))
    ensures |p4| == EntryWidth(c.exItems, c.exWrite[i], c.exWritePaper) && SetP4OK(DialectOf(c), c.exWrite[i].addr, p4)
  {
    var d, width := c.exWrite[i].domain, EntryWidth(c.exItems, c.exWrite[i], c.exWritePaper);
    var v: Int64 :| d.Contains(v) && Fits(v, width, d.signed);
    p4 := RenderP4(v, width, d.signed);
    RenderP4Decodes(v, width, d.signed);
    SetsIsCanBeSet(c, i, v, p4);
  }

  /** The gate admits every Set the builder builds if and only if no row with a value is wider than the chart. */
  lemma EverySetIsAdmittedExactly(c: Config, memory: seq<Byte> -> bool)
    requires ValidConfig(c)
    ensures (forall a, p4 :: SetP4OK(DialectOf(c), a, p4) ==>
               AllowedCommand(DialectOf(c), ExFrame(DialectOf(c), a, p4), memory))
       <==> ChartIsWidest(c)
  {
    if ChartIsWidest(c) {
      forall a, p4 | SetP4OK(DialectOf(c), a, p4)
        ensures AllowedCommand(DialectOf(c), ExFrame(DialectOf(c), a, p4), memory)
      {
        var i := SetIsHeld(c, a, p4);
        SetsAreAdmittedIfNarrow(c, a, p4, memory);
      }
    } else {
      var i :| && 0 <= i < |c.exWrite|
               && HoldsSomething(c.exWrite[i].domain, EntryWidth(c.exItems, c.exWrite[i], c.exWritePaper))
               && EntryWidth(c.exItems, c.exWrite[i], c.exWritePaper) > P4MaxBytes(DialectOf(c));
      var p4 := HeldIsSettable(c, i);
      SetsAreAdmittedIfNarrow(c, c.exWrite[i].addr, p4, memory);
    }
  }

  /** Widths taken from the chart always satisfy it. */
  lemma PaperIsNeverWider(c: Config)
    requires ValidConfig(c) && c.exWritePaper
    ensures ChartIsWidest(c)
  {
    MenusAreValid(c);
    forall i | 0 <= i < |c.exWrite|
      ensures EntryWidth(c.exItems, c.exWrite[i], c.exWritePaper) <= MaxDigits(c.exItems)
    {
      assert ValidRow(c.exItems, c.exWrite[i], c.exWritePaper);
      DigitsAreBounded(c.exItems, c.exWrite[i].addr);
    }
  }

  lemma {:induction false} DigitsAreBounded(items: seq<Item>, a: Address)
    requires DigitsOf(items, a).Some?
    ensures DigitsOf(items, a).value <= MaxDigits(items)
  {
    if items[|items| - 1].addr != a {
      DigitsAreBounded(items[..|items| - 1], a);
    }
  }

  const WIDE: Config :=
    Config([48, 56, 48, 48], map[49 := "LSB"],
           SlotSpaces.SlotSpace(1, 99, 0, 0, 0, SlotSpaces.Unset, 0, [], [], 3, SlotSpaces.SelectsAll),
           [Item(Address(1, 1, 1), "AGC", 1, false)], Triple,
           [Row(Address(1, 1, 1), Domain([5], 0, 0, 0, false), 2)], false,
           FrameConfig(MtPolicy(12, MtReadsReadable, MtShort, 32, 0, 0, P11Unset), 10, 9990, 49,
                       P5TxClar, TonesCtcss, 28, 9, P9Fixed00))

  lemma WideIsValid()
    ensures ValidConfig(WIDE)
  {
    PowersOfTen();
    assert 49 in WIDE.modeNames;
    assert WIDE.exItems[..0] == [];
    assert ValidRow(WIDE.exItems, WIDE.exWrite[0], false);
  }

  /** A two-byte observation on a one-digit chart passes every rule, and its Sets are built and then refused. */
  lemma ObservationWiderThanChart(memory: seq<Byte> -> bool)
    ensures ValidConfig(WIDE) && !ChartIsWidest(WIDE)
    ensures exists a, p4 ::
              && SetP4OK(DialectOf(WIDE), a, p4)
              && !AllowedCommand(DialectOf(WIDE), ExFrame(DialectOf(WIDE), a, p4), memory)
  {
    WideIsValid();
    assert MaxDigits(WIDE.exItems) == 1;
    assert EntryWidth(WIDE.exItems, WIDE.exWrite[0], false) == 2;
    SoundRowHolds(WIDE, 0);
    EverySetIsAdmittedExactly(WIDE, memory);
  }

  // ---- filtering the write table

  function ItemOf(items: seq<Item>, a: Address): Option<Item> {
    if items == [] then None
    else if items[|items| - 1].addr == a then Some(items[|items| - 1])
    else ItemOf(items[..|items| - 1], a)
  }

  /** `j` is the item that an index built in order keeps for `a`. */
  ghost predicate LastItem(items: seq<Item>, j: int, a: Address) {
    0 <= j < |items| && items[j].addr == a && forall k | j < k < |items| :: items[k].addr != a
  }

  lemma {:induction false} LastItemIsFound(items: seq<Item>, a: Address, j: int)
    requires LastItem(items, j, a)
    ensures ItemOf(items, a) == Some(items[j])
  {
    if j < |items| - 1 {
      LastItemIsFound(items[..|items| - 1], a, j);
    }
  }

  lemma {:induction false} FoundIsLastItem(items: seq<Item>, a: Address) returns (j: int)
    requires ItemOf(items, a).Some?
    ensures LastItem(items, j, a)
  {
    j := |items| - 1;
    if items[j].addr != a {
      j := FoundIsLastItem(items[..j], a);
    }
  }

  lemma {:induction false} MembersAreFound(items: seq<Item>, a: Address)
    requires Member(items, a)
    ensures ItemOf(items, a).Some?
  {
    var n := |items| - 1;
    if items[n].addr != a {
      var i :| 0 <= i < |items| && items[i].addr == a;
      assert items[..n][i].addr == a;
      MembersAreFound(items[..n], a);
    }
  }

  lemma ItemOfIsLast(items: seq<Item>, a: Address)
    ensures ItemOf(items, a).Some? <==> Member(items, a)
    ensures ItemOf(items, a).Some? <==> exists j :: LastItem(items, j, a)
    ensures forall j | LastItem(items, j, a) :: ItemOf(items, a) == Some(items[j])
  {
    if ItemOf(items, a).Some? {
      var j := FoundIsLastItem(items, a);
    } else if Member(items, a) {
      MembersAreFound(items, a);
    }
    forall j | LastItem(items, j, a)
      ensures ItemOf(items, a) == Some(items[j])
    {
      LastItemIsFound(items, a, j);
    }
  }

  ghost predicate AllMembers(rows: seq<Row>, items: seq<Item>) {
    forall k | 0 <= k < |rows| :: Member(items, rows[k].addr)
  }

  predicate Dropped(r: Row, items: seq<Item>, deny: Item -> bool, held: set<Address>) {
    || (ItemOf(items, r.addr).Some? && deny(ItemOf(items, r.addr).value))
    || r.addr in held
    || r.domain.Empty()
  }

  function Kept(rows: seq<Row>, items: seq<Item>, deny: Item -> bool, held: set<Address>): seq<Row> {
    if rows == [] then []
    else
      var r := rows[|rows| - 1];
      Kept(rows[..|rows| - 1], items, deny, held) + if Dropped(r, items, deny, held) then [] else [r]
  }

  method BuildByAddress(items: seq<Item>) returns (m: map<Address, Item>)
    ensures forall a :: ItemOf(items, a) == if a in m then Some(m[a]) else None
  {
    m := map[];
    var i := 0;
    while i < |items|
      invariant 0 <= i <= |items|
      invariant forall a :: ItemOf(items[..i], a) == if a in m then Some(m[a]) else None
    {
      assert items[..i + 1][..i] == items[..i];
      m := m[items[i].addr := items[i]];
      i := i + 1;
    }
    assert items[..i] == items;
  }

  /** Fails closed on an address the inventory does not have; else keeps, in order, what nothing drops. */
  method FilterEXWrite(rows: seq<Row>, items: seq<Item>, deny: Item -> bool, held: set<Address>)
    returns (r: Result<seq<Row>, Address>)
    ensures r.Ok? <==> (forall a | a in held :: Member(items, a)) && AllMembers(rows, items)
    ensures r.Ok? ==> r.value == Kept(rows, items, deny, held)
    ensures r.Err? ==> && !Member(items, r.error)
                       && (r.error in held || exists k | 0 <= k < |rows| :: rows[k].addr == r.error)
  {
    var byAddr := BuildByAddress(items);
    forall a
      ensures a in byAddr <==> Member(items, a)
    {
      ItemOfIsLast(items, a);
    }
    var todo := held;
    while todo != {}
      invariant todo <= held && forall a | a in held && a !in todo :: Member(items, a)
      decreases todo
    {
      var a :| a in todo;
      if a !in byAddr {
        return Err(a);
      }
      todo := todo - {a};
    }
    var out: seq<Row> := [];
    var i := 0;
    while i < |rows|
      invariant 0 <= i <= |rows| && out == Kept(rows[..i], items, deny, held)
      invariant forall k | 0 <= k < i :: Member(items, rows[k].addr)
    {
      assert rows[..i + 1][..i] == rows[..i];
      var row := rows[i];
      if row.addr !in byAddr {
        return Err(row.addr);
      }
      if !deny(byAddr[row.addr]) && row.addr !in held
         && !(row.domain.codes == [] && row.domain.hi == 0 && row.domain.lo == 0) {
        out := out + [row];
      }
      i := i + 1;
    }
    assert rows[..i] == rows;
    return Ok(out);
  }

  lemma {:induction false} KeptAreNotDropped(rows: seq<Row>, items: seq<Item>, deny: Item -> bool, held: set<Address>,
                                             k: nat)
    requires k < |Kept(rows, items, deny, held)|
    ensures !Dropped(Kept(rows, items, deny, held)[k], items, deny, held)
  {
    var n := |rows| - 1;
    if k < |Kept(rows[..n], items, deny, held)| {
      KeptAreNotDropped(rows[..n], items, deny, held, k);
    }
  }

  /** Bounds that are a range, or the two zeros of none. */
  predicate SoundRange(d: Domain) {
    d.lo <= d.hi && (d.hi == 0 ==> d.lo == 0)
  }

  /** A row whose item is not denied, whose address is not held, and whose domain is malformed or has a value. */
  ghost predicate Survives(r: Row, items: seq<Item>, deny: Item -> bool, held: set<Address>) {
    && (exists j :: LastItem(items, j, r.addr) && !deny(items[j])) && r.addr !in held
    && (!SoundRange(r.domain) || exists v: Int64 :: r.domain.Contains(v))
  }

  lemma SurvivesExactly(r: Row, items: seq<Item>, deny: Item -> bool, held: set<Address>)
    requires Member(items, r.addr)
    ensures Survives(r, items, deny, held) <==> !Dropped(r, items, deny, held)
  {
    ItemOfIsLast(items, r.addr);
    var d := r.domain;
    if d.codes != [] {
      assert d.Contains(d.codes[0]);
    } else if d.hi != 0 && d.lo <= d.hi {
      d.LowIsContained();
    }
  }

  /** Places in `rows`, in their order. */
  predicate InOrder(idx: seq<nat>, n: nat) {
    && (forall k | 0 <= k < |idx| :: idx[k] < n)
    && forall j, k | 0 <= j < k < |idx| :: idx[j] < idx[k]
  }

  ghost predicate Picks(kept: seq<Row>, rows: seq<Row>, idx: seq<nat>) {
    InOrder(idx, |rows|) && |idx| == |kept| && forall k | 0 <= k < |idx| :: kept[k] == rows[idx[k]]
  }

  lemma PickOneMore(kept: seq<Row>, rows: seq<Row>, idx: seq<nat>)
    requires rows != [] && Picks(kept, rows[..|rows| - 1], idx)
    ensures Picks(kept, rows, idx)
    ensures Picks(kept + [rows[|rows| - 1]], rows, idx + [|rows| - 1])
  {
  }

  /** `idx` are the places of the rows that survive. */
  ghost predicate AreSurvivors(idx: seq<nat>, rows: seq<Row>, items: seq<Item>, deny: Item -> bool,
                               held: set<Address>) {
    forall i | 0 <= i < |rows| :: i in idx <==> Survives(rows[i], items, deny, held)
  }

  lemma SurvivorsMore(idx: seq<nat>, rows: seq<Row>, items: seq<Item>, deny: Item -> bool, held: set<Address>)
    requires rows != [] && AreSurvivors(idx, rows[..|rows| - 1], items, deny, held)
    requires |rows| - 1 !in idx
    ensures var n := |rows| - 1;
            AreSurvivors(if Survives(rows[n], items, deny, held) then idx + [n] else idx, rows, items, deny, held)
  {
    var n := |rows| - 1;
    forall i | 0 <= i < n
      ensures i in idx <==> Survives(rows[i], items, deny, held)
    {
      assert rows[..n][i] == rows[i];
    }
  }

  /** The rows kept are those that survive, all of them, and in their order. */
  lemma {:induction false} SurvivorsAreKept(rows: seq<Row>, items: seq<Item>, deny: Item -> bool, held: set<Address>)
    returns (idx: seq<nat>)
    requires AllMembers(rows, items)
    ensures Picks(Kept(rows, items, deny, held), rows, idx) && AreSurvivors(idx, rows, items, deny, held)
  {
    if rows == [] {
      idx := [];
    } else {
      var n := |rows| - 1;
      var before := SurvivorsAreKept(rows[..n], items, deny, held);
      SurvivesExactly(rows[n], items, deny, held);
      PickOneMore(Kept(rows[..n], items, deny, held), rows, before);
      SurvivorsMore(before, rows, items, deny, held);
      idx := if Survives(rows[n], items, deny, held) then before + [n] else before;
    }
  }

  /** And every value of a surviving row can be set, in a dialect built from the rows kept. */
  lemma SurvivorsAreSettable(c: Config, rows: seq<Row>, deny: Item -> bool, held: set<Address>, i: nat, v: int)
    requires ValidConfig(c) && c.exWrite == Kept(rows, c.exItems, deny, held) && AllMembers(rows, c.exItems)
    requires i < |rows| && Survives(rows[i], c.exItems, deny, held)
    requires EntryWidth(c.exItems, rows[i], c.exWritePaper) != 0
    requires LowIsSound(rows[i].domain, EntryWidth(c.exItems, rows[i], c.exWritePaper))
    requires rows[i].domain.Contains(v)
    ensures exists p4 ::
              && SetP4OK(DialectOf(c), rows[i].addr, p4)
              && HasShape(p4, rows[i].domain.signed) && Decode(p4, rows[i].domain.signed) == v
  {
    var idx := SurvivorsAreKept(rows, c.exItems, deny, held);
    var k :| 0 <= k < |idx| && idx[k] == i;
    assert c.exWrite[k] == rows[i];
    EveryValueIsSettable(c, k);
    var p4 :| Sets(c, k, v, p4);
  }

  lemma {:induction false} UniqueItem(items: seq<Item>, k: nat)
    requires k < |items| && UniqueAddresses(items)
    ensures ItemOf(items, items[k].addr) == Some(items[k])
  {
    if k < |items| - 1 {
      UniqueItem(items[..|items| - 1], k);
    }
  }

  /**
   A denied or held address of a dialect built from filtered rows is never
   settable: it is not in the table, no value builds a Set for it, and the only
   frame the gate admits at its address is its read.
   */
  lemma DroppedIsNeverSettable(c: Config, rows: seq<Row>, deny: Item -> bool, held: set<Address>, k: nat,
                               frame: seq<Byte>, memory: seq<Byte> -> bool)
    requires ValidConfig(c) && c.exWrite == Kept(rows, c.exItems, deny, held)
    requires k < |c.exItems| && (deny(c.exItems[k]) || c.exItems[k].addr in held)
    ensures c.exItems[k].addr !in DialectOf(c).exWrite && !CanSetEX(DialectOf(c), c.exItems[k].addr)
    ensures forall value :: !SetP4OK(DialectOf(c), c.exItems[k].addr, value)
    ensures AllowedCommand(DialectOf(c), frame, memory) && EX + WireOf(c.exForm, c.exItems[k].addr) <= frame ==>
              frame == ExFrame(DialectOf(c), c.exItems[k].addr, [])
  {
    MenusAreValid(c);
    var a := c.exItems[k].addr;
    if a in DialectOf(c).exWrite {
      var i := EntryOf(c, a);
      KeptAreNotDropped(rows, c.exItems, deny, held, i);
      UniqueItem(c.exItems, k);
      assert false;
    }
    if AllowedCommand(DialectOf(c), frame, memory) && EX + WireOf(c.exForm, a) <= frame {
      BuiltIsReady(c);
      OnlyReadIsAdmitted(DialectOf(c), a, frame, memory);
    }
  }

  lemma OnlyReadIsAdmitted(d: Dialect, a: Address, frame: seq<Byte>, memory: seq<Byte> -> bool)
    requires Ready(d) && Member(d.exItems, a) && a !in d.exWrite
    requires AllowedCommand(d, frame, memory) && EX + WireOf(d.exForm, a) <= frame
    ensures frame == ExFrame(d, a, [])
  {
    RenderThenParse(d.exForm, d.exItems, a);
    PrefixFields(frame, WireOf(d.exForm, a));
    var b, p4 := AdmittedFrame(d, frame, memory);
    SameField(d, a, b, p4);
  }

  lemma SameField(d: Dialect, a: Address, b: Address, p4: seq<Byte>)
    requires Ready(d) && Member(d.exItems, a) && Member(d.exItems, b)
    requires |ExFrame(d, b, p4)| >= 2 + Width(d.exForm)
    requires ExFrame(d, b, p4)[2..2 + Width(d.exForm)] == WireOf(d.exForm, a)
    ensures a == b
  {
    FrameFields(d, b, p4);
    RenderThenParse(d.exForm, d.exItems, a);
  }

  // ---- the built-in dialect's own table

  /** Rows with no inventory item are dropped here, not refused; the row's own width is kept. */
  function Ft710Table(rows: seq<Row>, items: seq<Item>, denied: Item -> bool): map<Address, Descriptor> {
    if rows == [] then map[]
    else
      var r := rows[|rows| - 1];
      var t := Ft710Table(rows[..|rows| - 1], items, denied);
      if ItemOf(items, r.addr).None? || denied(ItemOf(items, r.addr).value) then t
      else t[r.addr := Descriptor(r.domain, r.observedWidth)]
  }

  method BuildFT710ExWrite(rows: seq<Row>, items: seq<Item>, denied: Item -> bool)
    returns (out: map<Address, Descriptor>)
    ensures out == Ft710Table(rows, items, denied)
  {
    var byAddr := BuildByAddress(items);
    out := map[];
    var i := 0;
    while i < |rows|
      invariant 0 <= i <= |rows| && out == Ft710Table(rows[..i], items, denied)
    {
      assert rows[..i + 1][..i] == rows[..i];
      var r := rows[i];
      if r.addr in byAddr && !denied(byAddr[r.addr]) {
        out := out[r.addr := Descriptor(r.domain, r.observedWidth)];
      }
      i := i + 1;
    }
    assert rows[..i] == rows;
  }

  /** An address is in the built-in table if and only if a row and an item that is not denied have it... */
  lemma {:induction false} Ft710TableExactly(rows: seq<Row>, items: seq<Item>, denied: Item -> bool, a: Address)
    ensures a in Ft710Table(rows, items, denied) <==>
              && (exists i | 0 <= i < |rows| :: rows[i].addr == a)
              && exists j :: LastItem(items, j, a) && !denied(items[j])
  {
    ItemOfIsLast(items, a);
    if rows != [] {
      var n := |rows| - 1;
      Ft710TableExactly(rows[..n], items, denied, a);
      assert (exists i | 0 <= i < |rows| :: rows[i].addr == a) <==>
             rows[n].addr == a || exists i | 0 <= i < n :: rows[..n][i].addr == a;
    }
  }

  /** ...and then it has the domain and the observed width of its last row. */
  lemma {:induction false} Ft710TableTakesRows(rows: seq<Row>, items: seq<Item>, denied: Item -> bool, i: nat)
    requires i < |rows| && forall k | i < k < |rows| :: rows[k].addr != rows[i].addr
    requires rows[i].addr in Ft710Table(rows, items, denied)
    ensures Ft710Table(rows, items, denied)[rows[i].addr] == Descriptor(rows[i].domain, rows[i].observedWidth)
  {
    var n := |rows| - 1;
    if i < n {
      Ft710TableTakesRows(rows[..n], items, denied, i);
    } else {
      Ft710TableExactly(rows, items, denied, rows[n].addr);
      ItemOfIsLast(items, rows[n].addr);
    }
  }

  /** Whatever the rows say, the built-in table has no denied address and none outside the inventory. */
  lemma {:induction false} Ft710TableIsClean(rows: seq<Row>, items: seq<Item>, denied: Item -> bool, a: Address)
    requires a in Ft710Table(rows, items, denied)
    ensures ItemOf(items, a).Some? && !denied(ItemOf(items, a).value)
  {
    var r := rows[|rows| - 1];
    if ItemOf(items, r.addr).None? || denied(ItemOf(items, r.addr).value) || r.addr != a {
      Ft710TableIsClean(rows[..|rows| - 1], items, denied, a);
    }
  }

  /** So a denied item of an inventory without repeats cannot be set through it, by builder or gate. */
  lemma Ft710DeniedIsNeverSettable(d: Dialect, rows: seq<Row>, denied: Item -> bool, k: nat,
                                   frame: seq<Byte>, memory: seq<Byte> -> bool)
    requires Ready(d) && UniqueAddresses(d.exItems) && d.exWrite == Ft710Table(rows, d.exItems, denied)
    requires k < |d.exItems| && denied(d.exItems[k])
    ensures forall value :: !SetP4OK(d, d.exItems[k].addr, value)
    ensures AllowedCommand(d, frame, memory) && EX + WireOf(d.exForm, d.exItems[k].addr) <= frame ==>
              frame == ExFrame(d, d.exItems[k].addr, [])
  {
    var a := d.exItems[k].addr;
    if a in d.exWrite {
      Ft710TableIsClean(rows, d.exItems, denied, a);
      UniqueItem(d.exItems, k);
      assert false;
    }
    if AllowedCommand(d, frame, memory) && EX + WireOf(d.exForm, a) <= frame {
      OnlyReadIsAdmitted(d, a, frame, memory);
    }
  }
}
