/**
 EX frames and the outbound gate: what the builders build, what the gate admits,
 and exactly when the two are the same.
 */
module ExGate {
  import opened Results
  import opened Wire
  import FrameStream
  import opened SlotSpaces
  import opened ExAddresses
  import opened ExValues
  import opened Dialects
  import MemoryChannels

  const EX: seq<Byte> := [69, 88]
  const ID: seq<Byte> := [73, 68]
  const AI: seq<Byte> := [65, 73]
  const MR: seq<Byte> := [77, 82]
  const MW: seq<Byte> := [77, 87]
  const MT: seq<Byte> := [77, 84]

  // ---- frames

  function ExFrame(d: Dialect, a: Address, p4: seq<Byte>): seq<Byte> {
    EX + WireOf(d.exForm, a) + p4 + [SEMICOLON]
  }

  function ReadLen(d: Dialect): nat {
    2 + Width(d.exForm) + 1
  }

  /** At least one, so that a dialect with no inventory still has an ordered length window. */
  function P4MaxBytes(d: Dialect): int {
    if d.exP4Max < 1 then 1 else d.exP4Max
  }

  predicate SetP4OK(d: Dialect, a: Address, p4: seq<Byte>) {
    a in d.exWrite && Accepts(d.exWrite[a].domain, d.exWrite[a].width, p4)
  }

  predicate CanSetEX(d: Dialect, a: Address) {
    a in d.exWrite && d.exWrite[a].width != 0
  }

  method BuildEXRead(d: Dialect, a: Address) returns (r: Option<seq<Byte>>)
    ensures r == if Member(d.exItems, a) then Some(ExFrame(d, a, [])) else None
  {
    var wire := WireOf(d.exForm, a);
    if !Member(d.exItems, a) {
      return None;
    }
    var frame: seq<Byte> := EX;
    frame := frame + wire;
    frame := frame + [SEMICOLON];
    assert EX + wire + [] == EX + wire;
    return Some(frame);
  }

  method BuildEXSet(d: Dialect, a: Address, value: seq<Byte>) returns (r: Option<seq<Byte>>)
    ensures r == if SetP4OK(d, a, value) then Some(ExFrame(d, a, value)) else None
  {
    if !SetP4OK(d, a, value) {
      return None;
    }
    var frame: seq<Byte> := EX;
    frame := frame + WireOf(d.exForm, a);
    frame := frame + value;
    frame := frame + [SEMICOLON];
    return Some(frame);
  }

  function ParseEXAnswer(d: Dialect, frame: seq<Byte>): Option<(Address, seq<Byte>)> {
    var width := Width(d.exForm);
    if width == 0 then None
    else if |frame| < 2 + width + 2 || |frame| > 2 + width + P4MaxBytes(d) + 1 then None
    else if frame[..2] != EX || frame[|frame| - 1] != SEMICOLON then None
    else
      var addr := Parse(d.exForm, d.exItems, frame[2..2 + width]);
      if addr.None? then None else Some((addr.value, frame[2 + width..|frame| - 1]))
  }

  // ---- the gate

  predicate Configured(d: Dialect) {
    d.catID != [] && d.modeNames.Some?
  }

  predicate ExactlyOneTrailingSemicolon(frame: seq<Byte>) {
    FrameStream.FirstEnd(frame) < |frame| && FrameStream.FirstEnd(frame) == |frame| - 1
  }

  predicate ValidMRCommand(d: Dialect, frame: seq<Byte>) {
    var n := d.slots.Digits();
    && n >= 0 && |frame| == 2 + n + 1
    && (var k := Classify(d.slots, frame[2..2 + n]); k != Invalid && k != NoneSlot)
  }

  predicate ValidEXCommand(d: Dialect, frame: seq<Byte>) {
    if |frame| == ReadLen(d) then Parse(d.exForm, d.exItems, frame[2..2 + Width(d.exForm)]).Some?
    else
      var answer := ParseEXAnswer(d, frame);
      answer.Some? && SetP4OK(d, answer.value.0, answer.value.1)
  }

  /** `memory` judges the MW and MT frames. */
  predicate AllowedCommand(d: Dialect, frame: seq<Byte>, memory: seq<Byte> -> bool) {
    && Configured(d) && |frame| >= 3 && ExactlyOneTrailingSemicolon(frame)
    && var name := frame[..2];
       if name == ID then frame == ID + [SEMICOLON]
       else if name == AI then
         frame == AI + [SEMICOLON] || frame == AI + [ZERO, SEMICOLON] || frame == AI + [ZERO + 1, SEMICOLON]
       else if name == MR then ValidMRCommand(d, frame)
       else if name == MW || name == MT then memory(frame)
       else if name == MemoryChannels.MC then MemoryChannels.ValidMCCommand(d.slots, frame)
       else if name == EX then ValidEXCommand(d, frame)
       else false
  }

  // ---- exactness

  /** Past its first tests the gate is the judgement of one command. */
  lemma GateByName(d: Dialect, frame: seq<Byte>, memory: seq<Byte> -> bool)
    requires Configured(d) && |frame| >= 3 && ExactlyOneTrailingSemicolon(frame)
    ensures frame[..2] == EX ==> (AllowedCommand(d, frame, memory) <==> ValidEXCommand(d, frame))
    ensures frame[..2] == MR ==> (AllowedCommand(d, frame, memory) <==> ValidMRCommand(d, frame))
    ensures frame[..2] == MemoryChannels.MC ==>
              (AllowedCommand(d, frame, memory) <==> MemoryChannels.ValidMCCommand(d.slots, frame))
  {
  }

  lemma FrameHasOneEnd(d: Dialect, a: Address, p4: seq<Byte>)
    requires SEMICOLON !in p4
    ensures ExactlyOneTrailingSemicolon(ExFrame(d, a, p4))
  {
    var frame := ExFrame(d, a, p4);
    forall k | 0 <= k < |frame| - 1
      ensures frame[k] != SEMICOLON
    {
      if 2 <= k < 2 + |WireOf(d.exForm, a)| {
        assert frame[k] == WireOf(d.exForm, a)[k - 2];
      } else if k >= 2 {
        assert frame[k] == p4[k - 2 - |WireOf(d.exForm, a)|];
      }
    }
    FrameStream.EndIsUnique(frame, |frame| - 1);
  }

  /** Every member can be written in the dialect's form. */
  predicate Addressed(d: Dialect) {
    && ExAddresses.ValidForm(d.exForm, d.exItems)
    && forall i | 0 <= i < |d.exItems| :: ComponentsFit(d.exForm, d.exItems[i].addr)
  }

  /** What the rules give a built dialect, as far as EX goes. */
  predicate Ready(d: Dialect) {
    Configured(d) && Addressed(d)
  }

  lemma BuiltIsReady(c: Config)
    requires ValidConfig(c)
    ensures Ready(DialectOf(c))
  {
    IdentityIsValid(c);
    MenusAreValid(c);
  }

  /** A member's frame has its address field and its P4 where the parser looks for them. */
  lemma FrameFields(d: Dialect, a: Address, p4: seq<Byte>)
    requires Addressed(d) && Member(d.exItems, a)
    ensures var frame, width := ExFrame(d, a, p4), Width(d.exForm);
            && width >= 3 && |frame| == 2 + width + |p4| + 1
            && frame[..2] == EX && frame[2..2 + width] == WireOf(d.exForm, a)
            && frame[2 + width..|frame| - 1] == p4 && frame[|frame| - 1] == SEMICOLON
            && Parse(d.exForm, d.exItems, frame[2..2 + width]) == Some(a)
  {
    Widths();
    RenderThenParse(d.exForm, d.exItems, a);
  }

  lemma ReadIsAdmitted(d: Dialect, a: Address, memory: seq<Byte> -> bool)
    requires Ready(d) && Member(d.exItems, a)
    ensures AllowedCommand(d, ExFrame(d, a, []), memory)
  {
    FrameFields(d, a, []);
    FrameHasOneEnd(d, a, []);
  }

  /** The gate admits every read of a member. */
  lemma ReadsAreAdmitted(c: Config, a: Address, memory: seq<Byte> -> bool)
    requires ValidConfig(c) && Member(c.exItems, a)
    ensures AllowedCommand(DialectOf(c), ExFrame(DialectOf(c), a, []), memory)
  {
    BuiltIsReady(c);
    ReadIsAdmitted(DialectOf(c), a, memory);
  }

  lemma {:induction false} KnownDigitsIsMember(items: seq<Item>, a: Address)
    requires DigitsOf(items, a).Some?
    ensures Member(items, a)
  {
    if items[|items| - 1].addr != a {
      KnownDigitsIsMember(items[..|items| - 1], a);
      var i :| 0 <= i < |items| - 1 && items[..|items| - 1][i].addr == a;
      assert items[i].addr == a;
    }
  }

  /** Only an inventory member can be in the write table of a built dialect. */
  lemma WritableIsMember(c: Config, a: Address)
    requires ValidRows(c.exItems, c.exWrite, c.exWritePaper) && a in DialectOf(c).exWrite
    ensures Member(c.exItems, a)
  {
    var i := TableHasOnlyRows(c.exWrite, c.exItems, c.exWritePaper, a);
    assert ValidRow(c.exItems, c.exWrite[i], c.exWritePaper);
    KnownDigitsIsMember(c.exItems, a);
  }

  lemma AcceptedHasNoEnd(d: Dialect, a: Address, p4: seq<Byte>)
    requires SetP4OK(d, a, p4)
    ensures SEMICOLON !in p4 && |p4| >= 1
  {
    forall k | 0 <= k < |p4|
      ensures p4[k] != SEMICOLON
    {
      if d.exWrite[a].domain.signed && k > 0 {
        assert p4[k] == p4[1..][k - 1];
      }
    }
  }

  lemma SetIsValidIfNarrow(d: Dialect, a: Address, p4: seq<Byte>)
    requires Ready(d) && Member(d.exItems, a) && SetP4OK(d, a, p4) && |p4| >= 1
    ensures ValidEXCommand(d, ExFrame(d, a, p4)) <==> |p4| <= P4MaxBytes(d)
  {
    FrameFields(d, a, p4);
  }

  lemma SetIsAdmittedIfNarrow(d: Dialect, a: Address, p4: seq<Byte>, memory: seq<Byte> -> bool)
    requires Ready(d) && Member(d.exItems, a) && SetP4OK(d, a, p4)
    ensures AllowedCommand(d, ExFrame(d, a, p4), memory) <==> |p4| <= P4MaxBytes(d)
  {
    AcceptedHasNoEnd(d, a, p4);
    FrameHasOneEnd(d, a, p4);
    FrameFields(d, a, p4);
    GateByName(d, ExFrame(d, a, p4), memory);
    SetIsValidIfNarrow(d, a, p4);
  }

  /** A buildable Set is admitted exactly when its P4 is no wider than the widest digits of the chart. */
  lemma SetsAreAdmittedIfNarrow(c: Config, a: Address, p4: seq<Byte>, memory: seq<Byte> -> bool)
    requires ValidConfig(c) && SetP4OK(DialectOf(c), a, p4)
    ensures AllowedCommand(DialectOf(c), ExFrame(DialectOf(c), a, p4), memory) <==> |p4| <= P4MaxBytes(DialectOf(c))
  {
    BuiltIsReady(c);
    MenusAreValid(c);
    WritableIsMember(c, a);
    SetIsAdmittedIfNarrow(DialectOf(c), a, p4, memory);
  }

  lemma AdmittedFrame(d: Dialect, frame: seq<Byte>, memory: seq<Byte> -> bool) returns (a: Address, p4: seq<Byte>)
    requires Ready(d) && AllowedCommand(d, frame, memory) && frame[..2] == EX
    ensures Member(d.exItems, a) && frame == ExFrame(d, a, p4)
    ensures p4 == [] || (SetP4OK(d, a, p4) && ParseEXAnswer(d, frame) == Some((a, p4)))
  {
    GateByName(d, frame, memory);
    a, p4 := ValidFrame(d, frame);
  }

  lemma ValidFrame(d: Dialect, frame: seq<Byte>) returns (a: Address, p4: seq<Byte>)
    requires Addressed(d) && |frame| >= 3 && ExactlyOneTrailingSemicolon(frame)
    requires frame[..2] == EX && ValidEXCommand(d, frame)
    ensures Member(d.exItems, a) && frame == ExFrame(d, a, p4)
    ensures p4 == [] || (SetP4OK(d, a, p4) && ParseEXAnswer(d, frame) == Some((a, p4)))
  {
    Widths();
    var width := Width(d.exForm);
    var field := frame[2..2 + width];
    ParseThenRender(d.exForm, d.exItems, field);
    a := Parse(d.exForm, d.exItems, field).value;
    p4 := frame[2 + width..|frame| - 1];
    Reassemble(frame, width);
  }

  lemma Reassemble(frame: seq<Byte>, width: nat)
    requires |frame| >= width + 3 && frame[..2] == EX && frame[|frame| - 1] == SEMICOLON
    ensures frame == EX + frame[2..2 + width] + frame[2 + width..|frame| - 1] + [SEMICOLON]
  {
  }

  /** Whatever EX frame the gate admits, a builder builds it: it is the read of a member or a buildable Set. */
  lemma AdmittedIsBuilt(c: Config, frame: seq<Byte>, memory: seq<Byte> -> bool)
    requires ValidConfig(c) && AllowedCommand(DialectOf(c), frame, memory) && frame[..2] == EX
    ensures exists a, p4 ::
              && Member(c.exItems, a) && frame == ExFrame(DialectOf(c), a, p4)
              && (p4 == [] || SetP4OK(DialectOf(c), a, p4))
  {
    BuiltIsReady(c);
    var a, p4 := AdmittedFrame(DialectOf(c), frame, memory);
  }

  // ---- answers

  /** The inventory has an item of at least `n` digits. */
  predicate WithinChart(items: seq<Item>, n: int) {
    exists i | 0 <= i < |items| :: n <= items[i].digits
  }

  /** What every dialect in use has: an inventory, and slots, that passed their rules. */
  predicate Sound(d: Dialect) {
    && ExAddresses.ValidForm(d.exForm, d.exItems) && ValidItems(d.exForm, d.exItems)
    && d.exP4Max == MaxDigits(d.exItems) && SlotSpaces.Valid(d.slots)
  }

  lemma BuiltIsSound(c: Config)
    requires ValidConfig(c)
    ensures Sound(DialectOf(c)) && Configured(DialectOf(c))
  {
    IdentityIsValid(c);
    MenusAreValid(c);
    SlotsAreValid(c);
  }

  lemma ChartIsTheBound(d: Dialect, n: int)
    requires Sound(d) && d.exItems != []
    ensures n <= P4MaxBytes(d) <==> WithinChart(d.exItems, n)
  {
    assert 1 <= d.exItems[0].digits <= MaxDigits(d.exItems);
  }

  /**
   An answer parses, to an address and its P4 byte for byte, if and only if it is
   the frame of a member, settable or not, with a P4 no wider than the chart.
   */
  lemma AnswerParsesExactly(d: Dialect, frame: seq<Byte>, a: Address, p4: seq<Byte>)
    requires Sound(d)
    ensures ParseEXAnswer(d, frame) == Some((a, p4)) <==>
              Member(d.exItems, a) && p4 != [] && WithinChart(d.exItems, |p4|) && frame == ExFrame(d, a, p4)
  {
    Widths();
    if Member(d.exItems, a) {
      ChartIsTheBound(d, |p4|);
      FrameFields(d, a, p4);
    }
    if ParseEXAnswer(d, frame) == Some((a, p4)) {
      ParseThenRender(d.exForm, d.exItems, frame[2..2 + Width(d.exForm)]);
      Reassemble(frame, Width(d.exForm));
      ChartIsTheBound(d, |p4|);
    }
  }

  /** An answer is attributed to one address only: a matcher for a member's full wire passes no other's answer. */
  lemma MatcherAttributesExactly(c: Config, a: Address, exactLen: int, frame: seq<Byte>)
    requires ValidConfig(c) && Member(c.exItems, a)
    requires Matches(EX + WireOf(c.exForm, a), exactLen, frame) && ParseEXAnswer(DialectOf(c), frame).Some?
    ensures ParseEXAnswer(DialectOf(c), frame).value.0 == a
  {
    BuiltIsReady(c);
    RenderThenParse(c.exForm, c.exItems, a);
    PrefixFields(frame, WireOf(c.exForm, a));
  }

  lemma PrefixFields(frame: seq<Byte>, wire: seq<Byte>)
    requires EX + wire <= frame
    ensures frame[..2] == EX && frame[2..2 + |wire|] == wire
  {
    assert (EX + wire)[..2] == EX && (EX + wire)[2..2 + |wire|] == wire;
  }

  /** Indeed it passes exactly the answers of that member, of the given length if one is given. */
  lemma MatcherPassesExactly(d: Dialect, a: Address, b: Address, p4: seq<Byte>, exactLen: int)
    requires Addressed(d) && Member(d.exItems, a) && Member(d.exItems, b)
    ensures Matches(EX + WireOf(d.exForm, a), exactLen, ExFrame(d, b, p4)) <==>
              a == b && (exactLen <= 0 || exactLen == 2 + Width(d.exForm) + |p4| + 1)
    ensures Matches(ExFrame(d, b, p4), 0, ExFrame(d, b, p4))
  {
    FrameFields(d, b, p4);
    RenderThenParse(d.exForm, d.exItems, a);
    var frame := ExFrame(d, b, p4);
    if EX + WireOf(d.exForm, a) <= frame {
      PrefixFields(frame, WireOf(d.exForm, a));
    }
    assert EX + WireOf(d.exForm, b) <= frame by {
      assert frame[..2 + Width(d.exForm)] == EX + WireOf(d.exForm, b);
    }
  }

  /** PrefixLenMatcher */
  predicate Matches(prefix: seq<Byte>, exactLen: int, frame: seq<Byte>) {
    prefix <= frame && (exactLen > 0 ==> |frame| == exactLen)
  }

  // ---- lengths that must agree with one another

  /** V8's ceiling on digits is what the stream's default bound leaves a P4 beside the longest address. */
  lemma DigitsFillTheFrame(d: Dialect, a: Address, p4: seq<Byte>)
    requires Addressed(d) && Member(d.exItems, a)
    ensures |p4| <= MAX_EX_DIGITS ==> |ExFrame(d, a, p4)| <= FrameStream.DEFAULT_MAX_FRAME
    ensures d.exForm == Triple ==>
              (|p4| <= MAX_EX_DIGITS <==> |ExFrame(d, a, p4)| <= FrameStream.DEFAULT_MAX_FRAME)
  {
    Widths();
    FrameFields(d, a, p4);
  }

  function ParseIDAnswer(frame: seq<Byte>): Option<seq<Byte>> {
    if |frame| != 7 || frame[..2] != ID || frame[6] != SEMICOLON then None else Some(frame[2..6])
  }

  /** V1: an identity is what the radio's ID answer has room for, in bytes a frame may carry. */
  lemma IdentityFillsItsAnswer(id: seq<Byte>)
    ensures ValidCatID(id) <==> ValidWireString(id) && ParseIDAnswer(ID + id + [SEMICOLON]) == Some(id)
  {
    var frame := ID + id + [SEMICOLON];
    assert frame[..2] == ID;
    if |id| == 4 {
      assert frame[2..6] == id;
    }
  }
}
