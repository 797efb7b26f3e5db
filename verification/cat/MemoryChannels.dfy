/**
 The MC command, which recalls a channel: what may be sent, what may be answered,
 and whether the builder and the outbound gate mean the same by it.
 */
module MemoryChannels {
  import opened Results
  import opened Wire
  import opened SlotSpaces

  const MC_SET_LEN: nat := 6
  const MC: seq<Byte> := [77, 67]
  const MC_READ_FRAME: seq<Byte> := [77, 67, 59]

  datatype McError = NoMcSupport | NotAChannel | SlotPolicyUnset | OutsideSendDomain | BadAnswer

  /** V13 */
  predicate ValidPolicy(s: SlotSpace) {
    s.mcSelects == SelectsAll || s.mcSelects == SelectsMemoryPms || s.mcSelects == Unsupported
  }

  /** The read direction: every classified channel. */
  predicate ParseValid(s: SlotSpace, wire: seq<Byte>) {
    var k := Classify(s, wire);
    k == Memory || k == Pms || k == Sixty || k == Emg
  }

  predicate WritableSlot(s: SlotSpace, wire: seq<Byte>) {
    Classify(s, wire) == Memory || Classify(s, wire) == Pms
  }

  /** The send direction: what this dialect's own legend prints. */
  predicate SendValid(s: SlotSpace, wire: seq<Byte>) {
    match s.mcSelects
    case SelectsAll => ParseValid(s, wire)
    case SelectsMemoryPms => WritableSlot(s, wire)
    case _ => false
  }

  function McFrame(wire: seq<Byte>): seq<Byte> {
    MC + wire + [SEMICOLON]
  }

  method BuildMCSet(s: SlotSpace, slot: Slot) returns (r: Result<seq<Byte>, McError>)
    ensures r.Ok? <==> SendValid(s, slot.wire)
    ensures r.Ok? ==> r.value == McFrame(slot.wire)
    ensures r.Err? ==> r.error == if s.mcSelects == Unsupported then NoMcSupport
                                  else if !ParseValid(s, slot.wire) then NotAChannel
                                  else if s.mcSelects == SelectsMemoryPms then OutsideSendDomain
                                  else SlotPolicyUnset
  {
    if s.mcSelects == Unsupported {
      return Err(NoMcSupport);
    }
    if !ParseValid(s, slot.wire) {
      return Err(NotAChannel);
    }
    if !SendValid(s, slot.wire) {
      if s.mcSelects != SelectsAll && s.mcSelects != SelectsMemoryPms {
        return Err(SlotPolicyUnset);
      }
      return Err(OutsideSendDomain);
    }
    var frame: seq<Byte> := [];
    frame := frame + MC;
    frame := frame + slot.wire;
    frame := frame + [SEMICOLON];
    return Ok(frame);
  }

  function ParseMCAnswer(s: SlotSpace, frame: seq<Byte>): Result<Slot, McError> {
    if s.mcSelects == Unsupported then Err(NoMcSupport)
    else if |frame| != MC_SET_LEN || frame[..2] != MC || frame[5] != SEMICOLON then Err(BadAnswer)
    else
      var slot := ParseSlot(s, frame[2..5]);
      if slot.None? then Err(BadAnswer)
      else if !ParseValid(s, slot.value.wire) then Err(NotAChannel)
      else Ok(slot.value)
  }

  /** The gate's judgement of a frame that starts "MC" and ends in its only ';'. */
  predicate ValidMCCommand(s: SlotSpace, frame: seq<Byte>) {
    s.mcSelects != Unsupported
    && (|| frame == MC_READ_FRAME
        || (|frame| == MC_SET_LEN && ParseSlot(s, frame[2..5]).Some? && SendValid(s, frame[2..5])))
  }

  /** Whatever may be sent may also be answered, under every policy. */
  lemma SendWithinParse(s: SlotSpace, wire: seq<Byte>)
    requires SendValid(s, wire)
    ensures ParseValid(s, wire) && s.mcSelects != Unsupported
  {
  }

  lemma FrameParts(wire: seq<Byte>)
    ensures |McFrame(wire)| == |wire| + 3 && McFrame(wire)[..2] == MC && McFrame(wire)[2..|wire| + 2] == wire
    ensures McFrame(wire)[|wire| + 2] == SEMICOLON
    ensures wire != [] ==> McFrame(wire) != MC_READ_FRAME
  {
  }

  /** The builder would build the frame for `wire` exactly when the gate would pass it. */
  predicate Agree(s: SlotSpace, wire: seq<Byte>) {
    SendValid(s, wire) <==> ValidMCCommand(s, McFrame(wire))
  }

  /** The dialect has a channel in its send domain; a dash form is five bytes or nothing. */
  predicate CanSend(s: SlotSpace) {
    var writable := s.memoryHi > 0 || (s.pmsPairs > 0 && (s.pmsForm == DashToken ==> s.Digits() == 5));
    match s.mcSelects
    case SelectsAll => writable || s.sixtyHi > 0 || s.emergencyWire != []
    case SelectsMemoryPms => writable
    case _ => false
  }

  lemma SomethingIsSendable(s: SlotSpace) returns (wire: seq<Byte>)
    requires Valid(s) && CanSend(s)
    ensures SendValid(s, wire)
  {
    if s.memoryHi > 0 {
      wire := Render(s.memoryHi, s.Digits());
      MemorySlotsAreExact(s, s.memoryHi, wire);
    } else if s.pmsPairs > 0 && FormFits(s) {
      IntervalsCoincide(s);
      wire := PmsWire(s, 1, false);
      DocumentedIsPms(s, 1, false);
    } else if s.pmsPairs > 0 && s.pmsForm == Token {
      IntervalsCoincide(s);
      wire := [UPPER_P, ZERO + 1, UPPER_L, DASH, DASH];
      ArmGivesKind(s, wire, ArmTokenPms);
    } else if s.sixtyHi > 0 {
      wire := Render(s.sixtyLo, s.Digits());
      SixtySlotsAreExact(s, 1, wire);
    } else {
      wire := s.emergencyWire;
      EmgSlotIsExact(s, wire);
    }
  }

  /** Some channel can be sent if and only if the configuration has one in the policy's domain. */
  lemma SendableExactly(s: SlotSpace)
    requires Valid(s)
    ensures (exists wire :: SendValid(s, wire)) <==> CanSend(s)
  {
    IntervalsCoincide(s);
    if CanSend(s) {
      var wire := SomethingIsSendable(s);
    }
  }

  lemma AgreesExactly(s: SlotSpace, wire: seq<Byte>)
    requires ValidDigits(s) && wire != []
    ensures Agree(s, wire) <==> s.Digits() == 3 || !SendValid(s, wire)
  {
    FrameParts(wire);
    if |wire| == 3 {
      assert McFrame(wire)[2..5] == wire;
    }
  }

  /**
   Builder and gate agree on every slot if and only if slots are three bytes wide
   or the configuration has nothing to send: the gate's frame length is fixed at six.
   */
  lemma BuilderAndGateAgree(s: SlotSpace)
    requires Valid(s)
    ensures (forall wire | wire != [] :: Agree(s, wire)) <==> s.Digits() == 3 || !CanSend(s)
  {
    SendableExactly(s);
    forall wire: seq<Byte> | wire != []
      ensures Agree(s, wire) <==> s.Digits() == 3 || !SendValid(s, wire)
    {
      AgreesExactly(s, wire);
    }
    if CanSend(s) {
      var wire := SomethingIsSendable(s);
      assert wire != [];
    }
  }

  /** A five-byte dialect that passes every slot rule and declares MC builds frames its own gate refuses. */
  lemma FiveByteSlotsDisagree()
    ensures exists s: SlotSpace, wire: seq<Byte> :: Valid(s) && ValidPolicy(s) && wire != [] && !Agree(s, wire)
  {
    var s := SlotSpace(1, 99, 0, 0, 0, Unset, 0, [], [], 5, SelectsAll);
    PowersOfTen();
    var wire := SomethingIsSendable(s);
    AgreesExactly(s, wire);
    assert ValidPolicy(s) && !Agree(s, wire);
  }

  /** The radio's answer naming a slot that could be sent parses back to that slot... */
  lemma AnswerRoundTrip(s: SlotSpace, wire: seq<Byte>)
    requires s.Digits() == 3 && SendValid(s, wire)
    ensures ParseMCAnswer(s, McFrame(wire)) == Ok(Slot(wire, Classify(s, wire)))
  {
    FrameParts(wire);
    assert McFrame(wire)[2..5] == wire;
  }

  /** ...and an answer that parses is the frame of the slot it gives. */
  lemma AnswerIsItsSlot(s: SlotSpace, frame: seq<Byte>)
    requires ParseMCAnswer(s, frame).Ok?
    ensures var slot := ParseMCAnswer(s, frame).value;
            frame == McFrame(slot.wire) && ParseValid(s, slot.wire) && slot.kind == Classify(s, slot.wire)
  {
    assert frame == frame[..2] + frame[2..5] + [frame[5]];
  }

  /**
   Whatever the send policy, an answer parses to a slot if and only if MC is
   supported, slots are three bytes wide, and it is the frame of a form classified
   as that slot's kind of channel; of the forms it refuses only the one for no
   channel is told apart.
   */
  lemma AnswerParsesExactly(s: SlotSpace, frame: seq<Byte>, slot: Slot)
    requires ValidDigits(s)
    ensures ParseMCAnswer(s, frame) == Ok(slot) <==>
              && s.mcSelects != Unsupported && s.Digits() == 3 && slot.kind in {Memory, Pms, Sixty, Emg}
              && Classify(s, slot.wire) == slot.kind && frame == [77, 67] + slot.wire + [SEMICOLON]
    ensures ParseMCAnswer(s, frame) == Err(NotAChannel) <==>
              && s.mcSelects != Unsupported && s.Digits() == 3
              && exists wire :: Classify(s, wire) == NoneSlot && frame == [77, 67] + wire + [SEMICOLON]
    ensures ParseMCAnswer(s, frame) == Err(NoMcSupport) <==> s.mcSelects == Unsupported
  {
    FrameParts(slot.wire);
    if |frame| == MC_SET_LEN && frame[..2] == MC && frame[5] == SEMICOLON {
      assert frame == MC + frame[2..5] + [SEMICOLON];
    }
    forall wire | Classify(s, wire) == NoneSlot && frame == [77, 67] + wire + [SEMICOLON]
      ensures |wire| == s.Digits() && frame[2..2 + |wire|] == wire
    {
      FrameParts(wire);
    }
  }
}
