/**
 The MC and MR commands at the whole gate: what it admits is exactly what the
 builders build.
 */
module SlotGate {
  import opened Results
  import opened Wire
  import FrameStream
  import opened SlotSpaces
  import opened MemoryChannels
  import opened ExAddresses
  import opened FrameRules
  import opened Dialects
  import opened ExGate

  /** Slots of five bytes under a form that looks at three of them. */
  predicate TokenOnFiveBytes(s: SlotSpace) {
    s.pmsForm == Token && s.pmsPairs > 0 && s.Digits() == 5
  }

  /** Elsewhere a wire form that classifies at all has no ';' in it. */
  lemma ClassifiedHasNoEnd(s: SlotSpace, wire: seq<Byte>)
    requires Valid(s) && !TokenOnFiveBytes(s) && Classify(s, wire) != Invalid
    ensures SEMICOLON !in wire && |wire| == s.Digits()
  {
    if wire != s.noneWire && wire != s.emergencyWire && !AllDigits(wire) {
      if s.pmsForm == Token {
        assert wire == [wire[0], wire[1], wire[2]];
      } else {
        assert wire == [wire[0], wire[1], wire[2], wire[3], wire[4]];
      }
    }
  }

  lemma McFrameHasOneEnd(wire: seq<Byte>)
    requires SEMICOLON !in wire
    ensures ExactlyOneTrailingSemicolon(McFrame(wire))
  {
    var frame := McFrame(wire);
    forall k | 0 <= k < |frame| - 1
      ensures frame[k] != SEMICOLON
    {
      if k >= 2 {
        assert frame[k] == wire[k - 2];
      }
    }
    FrameStream.EndIsUnique(frame, |frame| - 1);
  }

  /** The gate admits the set of a wire form if and only if the builder builds it and it is three bytes wide. */
  lemma SetIsAdmittedExactly(d: Dialect, wire: seq<Byte>, memory: seq<Byte> -> bool)
    requires Configured(d) && Valid(d.slots) && wire != []
    ensures AllowedCommand(d, McFrame(wire), memory) <==> d.slots.Digits() == 3 && SendValid(d.slots, wire)
  {
    AgreesExactly(d.slots, wire);
    FrameParts(wire);
    var frame := McFrame(wire);
    if ExactlyOneTrailingSemicolon(frame) {
      GateByName(d, frame, memory);
      if ValidMCCommand(d.slots, frame) {
        SetIsThreeBytes(d.slots, wire);
      }
    } else if d.slots.Digits() == 3 && SendValid(d.slots, wire) {
      ClassifiedHasNoEnd(d.slots, wire);
      McFrameHasOneEnd(wire);
    }
  }

  lemma SetIsThreeBytes(s: SlotSpace, wire: seq<Byte>)
    requires wire != [] && ValidMCCommand(s, McFrame(wire))
    ensures s.Digits() == 3 && SendValid(s, wire)
  {
    FrameParts(wire);
    assert McFrame(wire)[2..5] == wire;
  }

  /**
   The whole gate admits exactly the sets the builder builds if and only if slots
   are three bytes wide or the configuration has nothing to send.
   */
  lemma BuildsExactlyWhatIsAdmitted(c: Config, memory: seq<Byte> -> bool)
    requires ValidConfig(c)
    ensures (forall wire | wire != [] ::
               SendValid(c.slots, wire) <==> AllowedCommand(DialectOf(c), McFrame(wire), memory)) <==>
              c.slots.Digits() == 3 || !CanSend(c.slots)
  {
    BuiltIsSound(c);
    SendableExactly(c.slots);
    forall wire: seq<Byte> | wire != []
      ensures AllowedCommand(DialectOf(c), McFrame(wire), memory) <==> c.slots.Digits() == 3 && SendValid(c.slots, wire)
    {
      SetIsAdmittedExactly(DialectOf(c), wire, memory);
    }
    if CanSend(c.slots) {
      var wire := SomethingIsSendable(c.slots);
      assert wire != [];
    }
  }

  /** And every MC frame the gate admits is the read request or such a set. */
  lemma AdmittedMcIsBuilt(d: Dialect, frame: seq<Byte>, memory: seq<Byte> -> bool)
    requires AllowedCommand(d, frame, memory) && frame[..2] == MC
    ensures d.slots.mcSelects != Unsupported
    ensures frame == MC_READ_FRAME || (|frame| == 6 && SendValid(d.slots, frame[2..5]) && frame == McFrame(frame[2..5]))
  {
    if frame != MC_READ_FRAME {
      assert frame[5] == SEMICOLON;
      assert frame == frame[..2] + frame[2..5] + [frame[5]];
    }
  }

  predicate Readable(s: SlotSpace, wire: seq<Byte>) {
    Classify(s, wire) != Invalid && Classify(s, wire) != NoneSlot
  }

  function MrFrame(wire: seq<Byte>): seq<Byte> {
    MR + wire + [SEMICOLON]
  }

  method BuildMRRead(s: SlotSpace, slot: Slot) returns (r: Option<seq<Byte>>)
    ensures r == if Readable(s, slot.wire) then Some(MrFrame(slot.wire)) else None
  {
    if !Readable(s, slot.wire) {
      return None;
    }
    var frame: seq<Byte> := MR;
    frame := frame + slot.wire;
    frame := frame + [SEMICOLON];
    return Some(frame);
  }

  lemma MrFrameEnds(wire: seq<Byte>)
    ensures MrFrame(wire)[..2] == MR && MrFrame(wire)[2..2 + |wire|] == wire && |MrFrame(wire)| == |wire| + 3
    ensures ExactlyOneTrailingSemicolon(MrFrame(wire)) <==> SEMICOLON !in wire
  {
    var frame := MrFrame(wire);
    if SEMICOLON in wire {
      var k :| 0 <= k < |wire| && wire[k] == SEMICOLON;
      assert frame[k + 2] == SEMICOLON;
    } else {
      forall k | 0 <= k < |frame| - 1
        ensures frame[k] != SEMICOLON
      {
        if k >= 2 {
          assert frame[k] == wire[k - 2];
        }
      }
      FrameStream.EndIsUnique(frame, |frame| - 1);
    }
  }

  /** The gate admits the read of a wire form if and only if it is readable and has no ';' in it. */
  lemma ReadIsAdmittedExactly(d: Dialect, wire: seq<Byte>, memory: seq<Byte> -> bool)
    requires Configured(d) && Valid(d.slots)
    ensures AllowedCommand(d, MrFrame(wire), memory) <==> Readable(d.slots, wire) && SEMICOLON !in wire
  {
    MrFrameEnds(wire);
    if SEMICOLON !in wire {
      GateByName(d, MrFrame(wire), memory);
    }
  }

  /** "P1L" and two more bytes, either of which may be anything. */
  const ENDS_INSIDE: seq<Byte> := [UPPER_P, ZERO + 1, UPPER_L, SEMICOLON, SEMICOLON]

  lemma EndsInsideIsReadable(s: SlotSpace)
    requires Valid(s) && TokenOnFiveBytes(s)
    ensures Classify(s, ENDS_INSIDE) == Pms
  {
    IntervalsCoincide(s);
    ArmGivesKind(s, ENDS_INSIDE, ArmTokenPms);
  }

  /**
   The gate admits exactly the reads the builder builds if and only if no token
   form looks at three bytes of five: there a ';' may follow in a slot that is
   readable, and the frame built for it is refused.
   */
  lemma ReadsExactlyWhatIsAdmitted(c: Config, memory: seq<Byte> -> bool)
    requires ValidConfig(c)
    ensures (forall wire :: Readable(c.slots, wire) <==> AllowedCommand(DialectOf(c), MrFrame(wire), memory)) <==>
              !TokenOnFiveBytes(c.slots)
  {
    BuiltIsSound(c);
    forall wire
      ensures AllowedCommand(DialectOf(c), MrFrame(wire), memory) <==> Readable(c.slots, wire) && SEMICOLON !in wire
    {
      ReadIsAdmittedExactly(DialectOf(c), wire, memory);
    }
    if TokenOnFiveBytes(c.slots) {
      EndsInsideIsReadable(c.slots);
      assert ENDS_INSIDE[3] == SEMICOLON;
      assert Readable(c.slots, ENDS_INSIDE) && !AllowedCommand(DialectOf(c), MrFrame(ENDS_INSIDE), memory);
    } else {
      forall wire | Readable(c.slots, wire)
        ensures SEMICOLON !in wire
      {
        ClassifiedHasNoEnd(c.slots, wire);
      }
    }
  }

  /** A configuration with such slots passes every rule. */
  const TOKENS: Config :=
    Config([48, 56, 48, 48], map[49 := "LSB"],
           SlotSpace(1, 99, 0, 0, 1, Token, 0, [], [], 5, SelectsAll), [], Triple, [], false,
           FrameConfig(MtPolicy(12, MtReadsReadable, MtShort, 32, 0, 0, P11Unset), 10, 9990, 49,
                       P5TxClar, TonesCtcss, 30, 9, P9Fixed00))

  lemma TokensAreValid()
    ensures ValidConfig(TOKENS) && TokenOnFiveBytes(TOKENS.slots)
  {
    PowersOfTen();
    assert 49 in TOKENS.modeNames;
  }

  /** So "P1L;;" is a writable slot, its read is built, and the gate refuses that. */
  lemma EndInsideSlotIsBuilt(memory: seq<Byte> -> bool)
    ensures ValidConfig(TOKENS) && Readable(TOKENS.slots, ENDS_INSIDE) && WritableSlot(TOKENS.slots, ENDS_INSIDE)
    ensures !AllowedCommand(DialectOf(TOKENS), MrFrame(ENDS_INSIDE), memory)
  {
    TokensAreValid();
    BuiltIsSound(TOKENS);
    EndsInsideIsReadable(TOKENS.slots);
    ReadIsAdmittedExactly(DialectOf(TOKENS), ENDS_INSIDE, memory);
    assert ENDS_INSIDE[3] == SEMICOLON;
  }
}
