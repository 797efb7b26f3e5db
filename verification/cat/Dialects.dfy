/**
 A dialect built from a configuration, the EX frames it builds and parses, and the
 gate every outbound frame must pass.
 */
module Dialects {
  import opened Results
  import opened Wire
  import opened SlotSpaces
  import opened ExAddresses
  import opened ExValues
  import opened FrameRules
  import MemoryChannels

  datatype Descriptor = Descriptor(domain: Domain, width: int)

  datatype Config = Config(
    catID: seq<Byte>,
    modeNames: map<Byte, string>,
    slots: SlotSpace,
    exItems: seq<Item>,
    exForm: Form,
    exWrite: seq<Row>,
    exWritePaper: bool,
    frames: FrameConfig)

  /** The zero dialect has an empty identity and no mode table. */
  datatype Dialect = Dialect(
    catID: seq<Byte>,
    modeNames: Option<map<Byte, string>>,
    slots: SlotSpace,
    exItems: seq<Item>,
    exForm: Form,
    exP4Max: int,
    exWrite: map<Address, Descriptor>)

  // ---- construction

  /** V1 */
  predicate ValidCatID(id: seq<Byte>) {
    |id| == 4 && ValidWireString(id)
  }

  /** V2 */
  ghost predicate ValidModes(modes: map<Byte, string>) {
    && modes != map[]
    && (forall m | m in modes :: ValidWireByte(m) && modes[m] != "")
    && forall m, n | m in modes && n in modes && m != n :: modes[m] != modes[n]
  }

  /** The rules by their labels, in the order in which they run. */
  datatype Rule =
    V1 | V2 | V19 | V3 | V15 | V4 | V5 | V6 | V7 | V8 | V9 | V10 | V11 | V12 | V20 | V13 | V14 | V16 | V17 | V18

  const RULES: seq<Rule> := [V1, V2, V19, V3, V15, V4, V5, V6, V7, V8, V9, V10, V11, V12, V20, V13, V14, V16, V17, V18]

  /** V5 and V6 are asked after V19. */
  ghost predicate Passes(rule: Rule, c: Config) {
    match rule
    case V1 => ValidCatID(c.catID)
    case V2 => ValidModes(c.modeNames)
    case V19 => ValidDigits(c.slots)
    case V3 => ValidPairs(c.slots)
    case V15 => SlotSpaces.ValidForm(c.slots)
    case V4 => ValidSpecials(c.slots)
    case V5 => ValidDigits(c.slots) && ValidMemoryRange(c.slots)
    case V6 => ValidDigits(c.slots) && ValidSixtyRange(c.slots)
    case V7 => ValidShadowing(c.slots)
    case V8 => ValidItems(c.exForm, c.exItems)
    case V9 => ValidMt(c.frames.mt)
    case V10 => ValidClarifier(c.frames)
    case V11 => ValidWriteKind(c.frames.mwWriteKind)
    case V12 => ExAddresses.ValidForm(c.exForm, c.exItems)
    case V20 => ValidRows(c.exItems, c.exWrite, c.exWritePaper)
    case V13 => MemoryChannels.ValidPolicy(c.slots)
    case V14 => ValidP5(c.frames.p5)
    case V16 => ValidTones(c.frames.tones)
    case V17 => ValidShape(c.frames, c.slots.Digits())
    case V18 => ValidP9(c.frames.p9)
  }

  ghost predicate ValidConfig(c: Config) {
    forall rule: Rule :: Passes(rule, c)
  }

  lemma SlotsAreValid(c: Config)
    requires ValidConfig(c)
    ensures SlotSpaces.Valid(c.slots)
  {
    assert Passes(V19, c) && Passes(V3, c) && Passes(V15, c) && Passes(V4, c);
    assert Passes(V5, c) && Passes(V6, c) && Passes(V7, c);
  }

  lemma MenusAreValid(c: Config)
    requires ValidConfig(c)
    ensures ValidItems(c.exForm, c.exItems) && ExAddresses.ValidForm(c.exForm, c.exItems)
    ensures ValidRows(c.exItems, c.exWrite, c.exWritePaper)
  {
    assert Passes(V8, c) && Passes(V12, c) && Passes(V20, c);
  }

  lemma IdentityIsValid(c: Config)
    requires ValidConfig(c)
    ensures ValidCatID(c.catID)
  {
    assert Passes(V1, c);
  }

  function MaxDigits(items: seq<Item>): (m: int)
    ensures m >= 0 && forall i | 0 <= i < |items| :: items[i].digits <= m
    ensures m > 0 ==> exists i | 0 <= i < |items| :: items[i].digits == m
  {
    if items == [] then 0
    else
      var m := MaxDigits(items[..|items| - 1]);
      if items[|items| - 1].digits > m then items[|items| - 1].digits else m
  }

  method MaxEXP4Bytes(items: seq<Item>) returns (m: int)
    ensures m == MaxDigits(items)
  {
    m := 0;
    var i := 0;
    while i < |items|
      invariant 0 <= i <= |items| && m == MaxDigits(items[..i])
    {
      assert items[..i + 1][..i] == items[..i];
      if items[i].digits > m {
        m := items[i].digits;
      }
      i := i + 1;
    }
    assert items[..i] == items;
  }

  /** The width a row gives its table entry: the chart's digits on paper, else the observation. */
  function EntryWidth(items: seq<Item>, r: Row, paper: bool): int {
    if !paper then r.observedWidth
    else if DigitsOf(items, r.addr).Some? then DigitsOf(items, r.addr).value
    else 0
  }

  function Table(rows: seq<Row>, items: seq<Item>, paper: bool): map<Address, Descriptor> {
    if rows == [] then map[]
    else
      var r := rows[|rows| - 1];
      Table(rows[..|rows| - 1], items, paper)[r.addr := Descriptor(r.domain, EntryWidth(items, r, paper))]
  }

  method BuildConfigExWrite(rows: seq<Row>, items: seq<Item>, paper: bool) returns (out: map<Address, Descriptor>)
    ensures out == Table(rows, items, paper)
  {
    var digits := BuildDigits(items);
    out := map[];
    var i := 0;
    while i < |rows|
      invariant 0 <= i <= |rows| && out == Table(rows[..i], items, paper)
    {
      var r := rows[i];
      var w: int := r.observedWidth;
      if paper {
        w := if r.addr in digits then digits[r.addr] else 0;
      }
      assert rows[..i + 1][..i] == rows[..i];
      out := out[r.addr := Descriptor(r.domain, w)];
      i := i + 1;
    }
    assert rows[..i] == rows;
  }

  function DialectOf(c: Config): Dialect {
    Dialect(c.catID, Some(c.modeNames), c.slots, c.exItems, c.exForm, MaxDigits(c.exItems),
            Table(c.exWrite, c.exItems, c.exWritePaper))
  }

  method Check(rule: Rule, c: Config) returns (ok: bool)
    ensures ok == Passes(rule, c)
  {
    match rule
    case V1 => ok := ValidCatID(c.catID);
    case V2 => ok := ValidateModeNames(c.modeNames);
    case V19 => ok := ValidDigits(c.slots);
    case V3 => ok := ValidPairs(c.slots);
    case V15 => ok := SlotSpaces.ValidForm(c.slots);
    case V4 => ok := ValidSpecials(c.slots);
    case V5 => ok := ValidDigits(c.slots) && ValidMemoryRange(c.slots);
    case V6 => ok := ValidDigits(c.slots) && ValidSixtyRange(c.slots);
    case V7 => ok := ValidShadowing(c.slots);
    case V8 => ok := ValidateItems(c.exForm, c.exItems);
    case V9 => ok := ValidMt(c.frames.mt);
    case V10 => ok := ValidClarifier(c.frames);
    case V11 => ok := ValidWriteKind(c.frames.mwWriteKind);
    case V12 => ok := ExAddresses.ValidForm(c.exForm, c.exItems);
    case V20 => ok := ValidateRows(c.exItems, c.exWrite, c.exWritePaper);
    case V13 => ok := MemoryChannels.ValidPolicy(c.slots);
    case V14 => ok := ValidP5(c.frames.p5);
    case V16 => ok := ValidTones(c.frames.tones);
    case V17 => ok := ValidShape(c.frames, c.slots.Digits());
    case V18 => ok := ValidP9(c.frames.p9);
  }

  /** The order leaves no rule out. */
  lemma EveryRuleIsRun(rule: Rule)
    ensures exists k :: 0 <= k < |RULES| && RULES[k] == rule
  {
    assert RULES[0] == V1 && RULES[1] == V2 && RULES[2] == V19 && RULES[3] == V3 && RULES[4] == V15;
    assert RULES[5] == V4 && RULES[6] == V5 && RULES[7] == V6 && RULES[8] == V7 && RULES[9] == V8;
    assert RULES[10] == V9 && RULES[11] == V10 && RULES[12] == V11 && RULES[13] == V12 && RULES[14] == V20;
    assert RULES[15] == V13 && RULES[16] == V14 && RULES[17] == V16 && RULES[18] == V17 && RULES[19] == V18;
  }

  /** Refuses with the first rule that fails; else builds the dialect of the configuration. */
  method NewDialect(c: Config) returns (r: Result<Dialect, Rule>)
    ensures r.Ok? <==> ValidConfig(c)
    ensures r.Ok? ==> r.value == DialectOf(c)
    ensures r.Err? ==> exists k ::
              && 0 <= k < |RULES| && r.error == RULES[k] && !Passes(RULES[k], c)
              && forall j | 0 <= j < k :: Passes(RULES[j], c)
  {
    var i := 0;
    while i < |RULES|
      invariant 0 <= i <= |RULES| && forall j | 0 <= j < i :: Passes(RULES[j], c)
    {
      var ok := Check(RULES[i], c);
      if !ok {
        return Err(RULES[i]);
      }
      i := i + 1;
    }
    forall rule: Rule
      ensures Passes(rule, c)
    {
      EveryRuleIsRun(rule);
    }
    var table := BuildConfigExWrite(c.exWrite, c.exItems, c.exWritePaper);
    var p4Max := MaxEXP4Bytes(c.exItems);
    return Ok(Dialect(c.catID, Some(c.modeNames), c.slots, c.exItems, c.exForm, p4Max, table));
  }

  method ValidateModeNames(modes: map<Byte, string>) returns (ok: bool)
    ensures ok == ValidModes(modes)
  {
    if modes == map[] {
      return false;
    }
    var todo := modes.Keys;
    var seen: map<string, Byte> := map[];
    while todo != {}
      invariant todo <= modes.Keys
      invariant forall m | m in modes && m !in todo :: ValidWireByte(m) && modes[m] != "" && modes[m] in seen
      invariant forall name | name in seen :: seen[name] in modes && seen[name] !in todo && modes[seen[name]] == name
      invariant forall m, n | m in modes && n in modes && m !in todo && n !in todo && m != n :: modes[m] != modes[n]
      decreases todo
    {
      var m :| m in todo;
      if !ValidWireByte(m) || modes[m] == "" || modes[m] in seen {
        return false;
      }
      seen := seen[modes[m] := m];
      todo := todo - {m};
    }
    return true;
  }

  /** `byName` finds each mode by its name. */
  ghost predicate Inverts(byName: map<string, Byte>, modes: map<Byte, string>) {
    forall m | m in modes :: modes[m] in byName && byName[modes[m]] == m
  }

  /** V2: modes have wire bytes and names, and can be found by name, if and only if they pass. */
  lemma ModesInvertExactly(modes: map<Byte, string>)
    ensures ValidModes(modes) <==>
              && modes != map[] && (forall m | m in modes :: ValidWireByte(m) && modes[m] != "")
              && exists byName :: Inverts(byName, modes)
  {
    if ValidModes(modes) {
      var byName := map m | m in modes :: modes[m] := m;
      assert Inverts(byName, modes);
    }
  }

  /** V11, V13, V14, V16 and V18 refuse what is omitted and what names no value, and nothing else. */
  lemma EnumeratedRulesAreExact(c: Config)
    ensures Passes(V11, c) <==> c.frames.mwWriteKind in {48, 49, 50, 51, 53}
    ensures Passes(V13, c) <==> c.slots.mcSelects !in {UnsetPolicy, UndeclaredPolicy}
    ensures Passes(V14, c) <==> c.frames.p5 !in {P5Unset, P5Undeclared}
    ensures Passes(V16, c) <==> c.frames.tones !in {TonesUnset, TonesUndeclared}
    ensures Passes(V18, c) <==> c.frames.p9 !in {P9Unset, P9Undeclared}
  {
  }

  /** Each row's address has an entry, with the row's own domain and width... */
  lemma {:induction false} RowsAreInTable(rows: seq<Row>, items: seq<Item>, paper: bool, i: nat)
    requires i < |rows| && forall i, j | 0 <= i < j < |rows| :: rows[i].addr != rows[j].addr
    ensures var t := Table(rows, items, paper);
            rows[i].addr in t && t[rows[i].addr] == Descriptor(rows[i].domain, EntryWidth(items, rows[i], paper))
  {
    if i < |rows| - 1 {
      RowsAreInTable(rows[..|rows| - 1], items, paper, i);
    }
  }

  /** ...and an entry comes from a row. */
  lemma {:induction false} TableHasOnlyRows(rows: seq<Row>, items: seq<Item>, paper: bool, a: Address) returns (i: nat)
    requires a in Table(rows, items, paper)
    ensures i < |rows| && rows[i].addr == a
  {
    i := |rows| - 1;
    if rows[i].addr != a {
      i := TableHasOnlyRows(rows[..i], items, paper, a);
    }
  }
}
