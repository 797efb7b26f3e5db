/**
 The outbound gate of the binary family against the commands it stands guard over:
 it admits exactly the frames that say one of the documented commands, and the
 reply each of them announces is as long as what it carries.
 */
module CommandGate {
  import opened Results
  import opened WantQueue
  import opened Profiles
  import Bcd

  /** What a frame can say; `Clarify` has a layout nobody has been able to read. */
  datatype Command =
    | Store(channel: int)
    | SelectVfo(second: bool)
    | Clarify
    | SetFreq(tensOfHz: nat)
    | SetMode(name: string)
    | ReadDump
    | ReadMemoryNumber
    | ReadOperatingData
    | ReadBothVfos
    | ReadRecord(channel: int)
    | Shift(direction: Direction)
    | Tone(code: nat)
    | Offset(bounded: nat)
    | ReadIdentity(flagsOnly: bool)

  datatype Direction = Simplex | Minus | Plus

  const DIRECTIONS: map<Byte, Direction> := map[0 := Simplex, 1 := Minus, 2 := Plus]

  const TONES: nat := 33

  /** `n` consecutive channels from `base` on. */
  function ChannelsFrom(base: int, n: int): set<int>
    decreases n
  {
    if n <= 0 then {} else {base} + ChannelsFrom(base + 1, n - 1)
  }

  function Channels(p: Profile): set<int> {
    ChannelsFrom(p.slotBase, p.slotCount)
  }

  /** Arguments not named here are padding. */
  ghost predicate Says(p: Profile, frame: seq<Byte>, c: Command)
    requires p.Indexable()
  {
    && |frame| == 4 + 1
    && var args, op := frame[..4], frame[4];
       match c
       case Store(ch) => op == 0x03 && ch in Channels(p) && args[p.storeChanArg] == ch
       case SelectVfo(second) => op == 0x05 && args[0] == if second then 1 else 0
       case Clarify => op == 0x09
       case SetFreq(f) => op == 0x0A && Bcd.AllPairs(args) && Bcd.Value(args) == f
       case SetMode(name) => op == 0x0C && (args[0], name) in p.modes.Items
       case ReadDump => op == 0x10 && args[0] == 0
       case ReadMemoryNumber => op == 0x10 && args[0] == 1
       case ReadOperatingData => op == 0x10 && args[0] == 2
       case ReadBothVfos => op == 0x10 && args[0] == 3
       case ReadRecord(ch) => op == 0x10 && args[0] == 4 && ch in Channels(p) && args[3] == ch
       case Shift(d) => op == 0x84 && (args[0], d) in DIRECTIONS.Items
       case Tone(code) => op == 0x90 && code < TONES && args[0] == code
       case Offset(v) =>
         && op == 0xF9 && v < 3 && args[p.offsetZeroArg] == 0
         && args[if p.offsetBoundArg == 0 then 1 else p.offsetBoundArg] == v
       case ReadIdentity(flagsOnly) => op == 0xFA && args[3] == if flagsOnly then 1 else 0
  }

  // ---- the gate

  lemma {:induction false} ChannelsAreConsecutive(base: int, n: int, ch: int)
    ensures ch in ChannelsFrom(base, n) <==> base <= ch < base + n
    decreases n
  {
    if n > 0 {
      ChannelsAreConsecutive(base + 1, n - 1, ch);
    }
  }

  lemma ChannelsAreValid(p: Profile, ch: int)
    ensures ch in Channels(p) <==> p.ValidChannel(ch)
  {
    ChannelsAreConsecutive(p.slotBase, p.slotCount, ch);
  }

  /** A profile describes a radio if and only if it has a name, a channel, a mode, and replies that are not empty. */
  lemma ConfiguredExactly(p: Profile)
    ensures p.Configured() <==>
              p.model != "" && Channels(p) != {} && p.modes.Keys != {} && p.recordLen > 0 && p.fullDumpLen > 0
  {
    ChannelsAreValid(p, p.slotBase);
    if p.modes == map[] {
      assert |p.modes| == 0;
    } else {
      var m :| m in p.modes;
      assert m in p.modes.Keys;
    }
  }

  lemma SaidIsAdmitted(p: Profile, frame: seq<Byte>, c: Command)
    requires p.Configured() && p.Indexable() && Says(p, frame, c)
    ensures p.AllowedCommand(frame)
  {
    match c
    case Store(ch) => ChannelsAreValid(p, ch);
    case ReadRecord(ch) => ChannelsAreValid(p, ch);
    case SetFreq(_) =>
      forall i | 0 <= i < 4
        ensures Bcd.IsPair(frame[i])
      {
        assert Bcd.IsPair(frame[..4][i]);
      }
    case _ =>
  }

  function ReadingOf(u: Byte, ch: int): Command {
    if u == 0 then ReadDump
    else if u == 1 then ReadMemoryNumber
    else if u == 2 then ReadOperatingData
    else if u == 3 then ReadBothVfos
    else ReadRecord(ch)
  }

  lemma AdmittedSays(p: Profile, frame: seq<Byte>) returns (c: Command)
    requires p.Indexable() && p.AllowedCommand(frame)
    ensures Says(p, frame, c)
  {
    var op := frame[4];
    if op == OP_STORE {
      ChannelsAreValid(p, frame[p.storeChanArg]);
      c := Store(frame[p.storeChanArg]);
    } else if op == OP_AB_SELECT {
      c := SelectVfo(frame[0] == 1);
    } else if op == OP_CLARIFIER {
      c := Clarify;
    } else if op == OP_SET_FREQ {
      assert Bcd.AllPairs(frame[..4]);
      c := SetFreq(Bcd.Value(frame[..4]));
    } else if op == OP_SET_MODE {
      c := SetMode(p.modes[frame[0]]);
    } else if op == OP_STATUS_UPDATE {
      ChannelsAreValid(p, frame[3]);
      c := ReadingOf(frame[0], frame[3]);
    } else if op == OP_SHIFT {
      c := Shift(DIRECTIONS[frame[0]]);
    } else if op == OP_TONE {
      c := Tone(frame[0]);
    } else if op == OP_OFFSET {
      c := Offset(frame[p.BoundArg()]);
    } else {
      c := ReadIdentity(frame[3] == 1);
    }
  }

  /** The gate admits a frame if and only if the radio is configured and the frame says a command it has. */
  lemma AdmittedExactly(p: Profile, frame: seq<Byte>)
    requires p.Indexable()
    ensures p.AllowedCommand(frame) <==> p.Configured() && exists c :: Says(p, frame, c)
  {
    if p.AllowedCommand(frame) {
      var c := AdmittedSays(p, frame);
    } else if p.Configured() {
      forall c
        ensures !Says(p, frame, c)
      {
        if Says(p, frame, c) {
          SaidIsAdmitted(p, frame, c);
        }
      }
    }
  }

  const OPCODES: set<Byte> := {0x03, 0x05, 0x09, 0x0A, 0x0C, 0x10, 0x84, 0x90, 0xF9, 0xFA}

  /** A frame of any other opcode, as that for recalling a channel, is never admitted. */
  lemma OtherOpcodesAreRefused(p: Profile, frame: seq<Byte>)
    requires p.Indexable() && |frame| > 4 && frame[4] !in OPCODES
    ensures !p.AllowedCommand(frame)
  {
    AdmittedExactly(p, frame);
  }

  // ---- frequencies

  const FREQUENCIES: nat := 100_000_000

  lemma FourPairs()
    ensures Bcd.Hundreds(4) == FREQUENCIES
  {
    assert Bcd.Hundreds(1) == 100 && Bcd.Hundreds(2) == 10_000 && Bcd.Hundreds(3) == 1_000_000;
  }

  /** The frame that sets a frequency: every one that fits four bytes is built, and admitted. */
  method BuildSetFreq(p: Profile, tensOfHz: Bcd.Uint64) returns (r: Option<seq<Byte>>)
    requires p.Configured() && p.Indexable()
    ensures r.Some? <==> tensOfHz < FREQUENCIES
    ensures r.Some? ==> Says(p, r.value, SetFreq(tensOfHz)) && p.AllowedCommand(r.value)
  {
    FourPairs();
    var args := Bcd.EncodeBCD(tensOfHz, 4);
    if args.Err? {
      return None;
    }
    var frame: seq<Byte> := args.value + [OP_SET_FREQ];
    assert frame[..4] == args.value;
    SaidIsAdmitted(p, frame, SetFreq(tensOfHz));
    return Some(frame);
  }

  /** The gate's scan of the four bytes passes exactly what the decoder decodes. */
  method DecodeSetFreq(p: Profile, frame: seq<Byte>) returns (r: Option<Bcd.Uint64>)
    requires p.Configured() && p.Indexable() && |frame| == FRAME_LEN && frame[4] == OP_SET_FREQ
    ensures r.Some? <==> p.AllowedCommand(frame)
    ensures r.Some? ==> r.value < FREQUENCIES && Says(p, frame, SetFreq(r.value))
  {
    AdmittedExactly(p, frame);
    var v := Bcd.DecodeBCD(frame[..4]);
    if v.Err? {
      return None;
    }
    FourPairs();
    Bcd.ValueIsBounded(frame[..4]);
    assert Says(p, frame, SetFreq(v.value));
    return Some(v.value);
  }

  /** Two frames for one frequency are the same frame. */
  lemma FrequencyHasOneFrame(p: Profile, f: seq<Byte>, g: seq<Byte>, tensOfHz: nat)
    requires p.Indexable() && Says(p, f, SetFreq(tensOfHz)) && Says(p, g, SetFreq(tensOfHz))
    ensures f == g
  {
    Bcd.ValueIsInjective(f[..4], g[..4]);
    assert f == f[..4] + [f[4]] && g == g[..4] + [g[4]];
  }

  // ---- what a reply carries

  const VFO_LEN: nat := 9
  const STATUS_FLAGS_LEN: nat := 3
  const MODEL_ID_LEN: nat := 2

  function Sum(parts: seq<int>): int {
    if parts == [] then 0 else parts[0] + Sum(parts[1..])
  }

  /** The parts of the reply a command asks for; a command that sets something has none. */
  function Parts(p: Profile, c: Command): Option<seq<int>> {
    match c
    case ReadDump => Some([p.fullDumpLen])
    case ReadMemoryNumber => Some([1])
    case ReadOperatingData => Some([p.recordLen])
    case ReadBothVfos => Some([VFO_LEN, VFO_LEN])
    case ReadRecord(_) => Some([p.recordLen])
    case ReadIdentity(flagsOnly) =>
      Some([STATUS_FLAGS_LEN, if flagsOnly then STATUS_FLAGS_LEN else MODEL_ID_LEN])
    case _ => None
  }

  /** What NoteSent queues for a command is the length of what the radio will answer. */
  lemma AnnouncedIsTheReply(p: Profile, frame: seq<Byte>, c: Command)
    requires p.Indexable() && Says(p, frame, c)
    ensures p.ReplyLength(frame) == if Parts(p, c).Some? then Some(Sum(Parts(p, c).value)) else None
  {
    if c.ReadBothVfos? {
      assert Sum([VFO_LEN, VFO_LEN][1..]) == VFO_LEN;
    } else if c.ReadIdentity? {
      var parts := Parts(p, c).value;
      assert parts[1..] == [parts[1]];
      assert Sum(parts[1..]) == parts[1];
    }
  }

  /** Sending a command queues the length of its reply behind the others, and nothing when it has none. */
  lemma SendingQueuesTheReply(p: Profile, frame: seq<Byte>, c: Command, h: History)
    requires p.Indexable() && p.Configured() && Says(p, frame, c) && Positive(h.state.want)
    requires |h.state.want| < MAX_WANT_QUEUE
    ensures Happen(h, AsEvent(p, Sent(frame))) ==
            if Parts(p, c).Some? then h.(state := h.state.(want := h.state.want + [Sum(Parts(p, c).value)])) else h
  {
    AnnouncedIsTheReply(p, frame, c);
    if c.ReadBothVfos? {
      assert Sum([VFO_LEN, VFO_LEN][1..]) == VFO_LEN;
    }
  }

  // ---- the radios' own commands

  const MODES: map<Byte, string> := map[0 := "LSB", 1 := "USB", 2 := "CW", 3 := "AM", 4 := "FM"]

  const FT890: Profile := Profile("FT-890", 1, 33, 19, 649, MODES, 0, 0, 0)
  const FT900: Profile := Profile("FT-900", 1, 100, 19, 1941, MODES, 0, 0, 0)
  const FT1000MP: Profile := Profile("FT-1000MP", 1, 113, 16, 1863, map[0 := "LSB", 1 := "USB"], 3, 3, 2)

  /** The registered profiles are ones the other results speak of, and the probe of channel 33 reaches the wire. */
  lemma RadiosAreConfigured(p: Profile)
    requires p in {FT890, FT900, FT1000MP}
    ensures p.Configured() && p.Indexable() && p.DumpIsLongest() && p.MaxFrame() == p.fullDumpLen
    ensures p.AllowedCommand([4, 0, 0, 33, OP_STATUS_UPDATE])
  {
    assert 0 in MODES && 0 in FT1000MP.modes;
  }

  lemma LowPair(b: Byte)
    requires Bcd.IsPair(b)
    ensures b <= 2 <==> Bcd.PairValue(b) <= 2
  {
  }

  lemma OffsetIsBounded(p: Profile, bytes: seq<Byte>)
    requires p in {FT890, FT900} && |bytes| == 3 && Bcd.AllPairs(bytes)
    ensures p.AllowedCommand([0] + bytes + [OP_OFFSET]) <==> Bcd.Value(bytes) % 100 <= 2
  {
    RadiosAreConfigured(p);
    Bcd.FirstPair(bytes);
    LowPair(bytes[0]);
    var frame := [0] + bytes + [OP_OFFSET];
    assert frame[0] == 0 && frame[1] == bytes[0] && frame[4] == OP_OFFSET;
  }

  /**
   The FT-890's offset frame is a zero and the offset in Hz, last digits first; its
   gate bounds the byte with those, so it admits an offset exactly when its last
   two digits are at most 2.
   */
  method BuildOffset(p: Profile, hz: Bcd.Uint64) returns (r: Option<seq<Byte>>)
    requires p in {FT890, FT900}
    ensures r.Some? <==> hz < 1_000_000
    ensures r.Some? ==> (p.AllowedCommand(r.value) <==> hz % 100 <= 2)
  {
    assert Bcd.Hundreds(1) == 100 && Bcd.Hundreds(2) == 10_000;
    var bytes := Bcd.EncodeBCD(hz, 3);
    if bytes.Err? {
      return None;
    }
    OffsetIsBounded(p, bytes.value);
    return Some([0] + bytes.value + [OP_OFFSET]);
  }

  /** The FT-1000MP's is whole kHz, tens and ones before hundreds, and all that is built is admitted. */
  method BuildOffsetKhz(hz: Bcd.Uint64) returns (r: Option<seq<Byte>>)
    ensures r.Some? <==> hz <= 299_000 && hz % 1000 == 0
    ensures r.Some? ==> Says(FT1000MP, r.value, Offset(hz / 100_000)) && FT1000MP.AllowedCommand(r.value)
  {
    if hz > 299_000 || hz % 1000 != 0 {
      return None;
    }
    RadiosAreConfigured(FT1000MP);
    var khz := hz / 1000;
    assert Bcd.Hundreds(1) == 100;
    var low := Bcd.EncodeBCD(khz % 100, 1);
    var frame: seq<Byte> := [0] + low.value + [khz / 100, 0] + [OP_OFFSET];
    SaidIsAdmitted(FT1000MP, frame, Offset(hz / 100_000));
    return Some(frame);
  }
}
