/**
 The outbound gate as a whole: it admits a frame if and only if the frame is one
 of the requests a builder of the same dialect can make, and nothing under any
 other name.
 */
module WholeGate {
  import opened Results
  import opened Wire
  import FrameStream
  import opened SlotSpaces
  import opened ExAddresses
  import opened ExValues
  import opened Dialects
  import opened ExGate
  import MemoryChannels
  import SlotGate

  /** Every request but the memory frames, which are judged from outside. */
  datatype Request =
    | ReadIdentity
    | ReadAutoInformation
    | SetAutoInformation(on: bool)
    | ReadSelected
    | Select(slot: seq<Byte>)
    | ReadMemory(slot: seq<Byte>)
    | ReadMenu(addr: Address)
    | SetMenu(addr: Address, value: seq<Byte>)

  function FrameOf(d: Dialect, r: Request): seq<Byte> {
    match r
    case ReadIdentity => [73, 68, SEMICOLON]
    case ReadAutoInformation => [65, 73, SEMICOLON]
    case SetAutoInformation(on) => [65, 73, if on then ZERO + 1 else ZERO, SEMICOLON]
    case ReadSelected => [77, 67, SEMICOLON]
    case Select(slot) => [77, 67] + slot + [SEMICOLON]
    case ReadMemory(slot) => [77, 82] + slot + [SEMICOLON]
    case ReadMenu(a) => [69, 88] + WireOf(d.exForm, a) + [SEMICOLON]
    case SetMenu(a, value) => [69, 88] + WireOf(d.exForm, a) + value + [SEMICOLON]
  }

  /** The channels a policy lets a dialect select. */
  function Selectable(policy: McPolicy): set<Kind> {
    match policy
    case SelectsAll => {Memory, Pms, Sixty, Emg}
    case SelectsMemoryPms => {Memory, Pms}
    case _ => {}
  }

  /** The dialect can make the request, and it keeps to the frame lengths the gate knows. */
  ghost predicate CanMake(d: Dialect, r: Request) {
    match r
    case ReadIdentity => true
    case ReadAutoInformation => true
    case SetAutoInformation(_) => true
    case ReadSelected => d.slots.mcSelects != Unsupported
    case Select(slot) => d.slots.Digits() == 3 && Classify(d.slots, slot) in Selectable(d.slots.mcSelects)
    case ReadMemory(slot) => Classify(d.slots, slot) in {Memory, Pms, Sixty, Emg} && SEMICOLON !in slot
    case ReadMenu(a) => Member(d.exItems, a)
    case SetMenu(a, value) =>
      && Member(d.exItems, a) && a in d.exWrite && value != []
      && Spells(d.exWrite[a].domain, d.exWrite[a].width, value) && WithinChart(d.exItems, |value|)
  }

  ghost predicate IsRequest(d: Dialect, frame: seq<Byte>) {
    exists r :: CanMake(d, r) && frame == FrameOf(d, r)
  }

  predicate OneEnd(frame: seq<Byte>) {
    frame != [] && frame[|frame| - 1] == SEMICOLON && forall k | 0 <= k < |frame| - 1 :: frame[k] != SEMICOLON
  }

  predicate IsMemoryFrame(frame: seq<Byte>, memory: seq<Byte> -> bool) {
    |frame| >= 3 && (frame[..2] == [77, 87] || frame[..2] == [77, 84]) && OneEnd(frame) && memory(frame)
  }

  lemma OneEndExactly(frame: seq<Byte>)
    ensures OneEnd(frame) <==> ExactlyOneTrailingSemicolon(frame)
  {
    if OneEnd(frame) {
      FrameStream.EndIsUnique(frame, |frame| - 1);
    }
  }

  // ---- what the dialect can make is admitted

  lemma SelectIsAdmitted(d: Dialect, slot: seq<Byte>, memory: seq<Byte> -> bool)
    requires Configured(d) && Sound(d) && CanMake(d, Select(slot))
    ensures AllowedCommand(d, FrameOf(d, Select(slot)), memory)
  {
    SlotGate.SetIsAdmittedExactly(d, slot, memory);
  }

  lemma ReadIsAdmitted(d: Dialect, slot: seq<Byte>, memory: seq<Byte> -> bool)
    requires Configured(d) && Sound(d) && CanMake(d, ReadMemory(slot))
    ensures AllowedCommand(d, FrameOf(d, ReadMemory(slot)), memory)
  {
    SlotGate.ReadIsAdmittedExactly(d, slot, memory);
  }

  lemma MenuReadIsAdmitted(d: Dialect, a: Address, memory: seq<Byte> -> bool)
    requires Configured(d) && Sound(d) && CanMake(d, ReadMenu(a))
    ensures AllowedCommand(d, FrameOf(d, ReadMenu(a)), memory)
  {
    ExGate.ReadIsAdmitted(d, a, memory);
    assert ExFrame(d, a, []) == FrameOf(d, ReadMenu(a));
  }

  lemma MenuSetIsAdmitted(d: Dialect, a: Address, value: seq<Byte>, memory: seq<Byte> -> bool)
    requires Configured(d) && Sound(d) && CanMake(d, SetMenu(a, value))
    ensures AllowedCommand(d, FrameOf(d, SetMenu(a, value)), memory)
  {
    AcceptsExactly(d.exWrite[a].domain, d.exWrite[a].width, value);
    ChartIsTheBound(d, |value|);
    SetIsAdmittedIfNarrow(d, a, value, memory);
  }

  /** A request with no field to fill in. */
  predicate IsFixed(r: Request) {
    r.ReadIdentity? || r.ReadAutoInformation? || r.SetAutoInformation? || r.ReadSelected?
  }

  lemma FixedIsAdmitted(d: Dialect, r: Request, memory: seq<Byte> -> bool)
    requires Configured(d) && IsFixed(r) && CanMake(d, r)
    ensures AllowedCommand(d, FrameOf(d, r), memory)
  {
    var frame := FrameOf(d, r);
    OneEndExactly(frame);
    assert frame[..2] == [frame[0], frame[1]];
  }

  lemma RequestIsAdmitted(d: Dialect, r: Request, memory: seq<Byte> -> bool)
    requires Configured(d) && Sound(d) && CanMake(d, r)
    ensures AllowedCommand(d, FrameOf(d, r), memory)
  {
    match r
    case Select(slot) => SelectIsAdmitted(d, slot, memory);
    case ReadMemory(slot) => ReadIsAdmitted(d, slot, memory);
    case ReadMenu(a) => MenuReadIsAdmitted(d, a, memory);
    case SetMenu(a, value) => MenuSetIsAdmitted(d, a, value, memory);
    case _ => FixedIsAdmitted(d, r, memory);
  }

  // ---- what is admitted the dialect can make

  lemma AdmittedMenu(d: Dialect, frame: seq<Byte>, memory: seq<Byte> -> bool) returns (r: Request)
    requires Sound(d) && AllowedCommand(d, frame, memory) && frame[..2] == EX
    ensures CanMake(d, r) && frame == FrameOf(d, r)
  {
    var a, p4 := AdmittedFrame(d, frame, memory);
    if p4 == [] {
      r := ReadMenu(a);
      assert EX + WireOf(d.exForm, a) + [] == EX + WireOf(d.exForm, a);
    } else {
      r := SetMenu(a, p4);
      AcceptsExactly(d.exWrite[a].domain, d.exWrite[a].width, p4);
      AnswerParsesExactly(d, frame, a, p4);
    }
  }

  /** A frame is its name, what stands between, and its end. */
  lemma Parts(frame: seq<Byte>)
    requires |frame| >= 3 && frame[|frame| - 1] == SEMICOLON
    ensures frame == frame[..2] + frame[2..|frame| - 1] + [SEMICOLON]
  {
  }

  lemma AdmittedSelection(d: Dialect, frame: seq<Byte>, memory: seq<Byte> -> bool) returns (r: Request)
    requires Sound(d) && AllowedCommand(d, frame, memory) && frame[..2] == MemoryChannels.MC
    ensures CanMake(d, r) && frame == FrameOf(d, r)
  {
    SlotGate.AdmittedMcIsBuilt(d, frame, memory);
    r := if |frame| == 3 then ReadSelected else Select(frame[2..5]);
  }

  lemma AdmittedMemoryRead(d: Dialect, frame: seq<Byte>, memory: seq<Byte> -> bool) returns (r: Request)
    requires Sound(d) && AllowedCommand(d, frame, memory) && frame[..2] == MR
    ensures CanMake(d, r) && frame == FrameOf(d, r)
  {
    OneEndExactly(frame);
    Parts(frame);
    GateByName(d, frame, memory);
    r := ReadMemory(frame[2..|frame| - 1]);
  }

  lemma AdmittedLiteral(d: Dialect, frame: seq<Byte>, memory: seq<Byte> -> bool) returns (r: Request)
    requires AllowedCommand(d, frame, memory) && (frame[..2] == ID || frame[..2] == AI)
    ensures IsFixed(r) && CanMake(d, r) && frame == FrameOf(d, r)
  {
    r := if frame[..2] == ID then ReadIdentity
         else if |frame| == 3 then ReadAutoInformation
         else SetAutoInformation(frame[2] == ZERO + 1);
  }

  lemma AdmittedRequest(d: Dialect, frame: seq<Byte>, memory: seq<Byte> -> bool) returns (r: Request)
    requires Sound(d) && AllowedCommand(d, frame, memory) && frame[..2] != MW && frame[..2] != MT
    ensures CanMake(d, r) && frame == FrameOf(d, r)
  {
    if frame[..2] == EX {
      r := AdmittedMenu(d, frame, memory);
    } else if frame[..2] == MemoryChannels.MC {
      r := AdmittedSelection(d, frame, memory);
    } else if frame[..2] == MR {
      r := AdmittedMemoryRead(d, frame, memory);
    } else {
      r := AdmittedLiteral(d, frame, memory);
    }
  }

  lemma MemoryFrameExactly(d: Dialect, frame: seq<Byte>, memory: seq<Byte> -> bool)
    requires Configured(d) && |frame| >= 2 && (frame[..2] == MW || frame[..2] == MT)
    ensures AllowedCommand(d, frame, memory) <==> IsMemoryFrame(frame, memory)
  {
    OneEndExactly(frame);
  }

  /**
   Whatever the dialect, if its tables are sound: the gate admits a frame if and
   only if the dialect is configured and the frame is a request it can make, or a
   well-formed memory frame that passed its own judgement.
   */
  lemma AdmittedExactly(d: Dialect, frame: seq<Byte>, memory: seq<Byte> -> bool)
    requires Sound(d)
    ensures AllowedCommand(d, frame, memory) <==>
              Configured(d) && (IsRequest(d, frame) || IsMemoryFrame(frame, memory))
  {
    if Configured(d) && |frame| >= 2 && (frame[..2] == MW || frame[..2] == MT) {
      MemoryFrameExactly(d, frame, memory);
    } else if AllowedCommand(d, frame, memory) {
      var r := AdmittedRequest(d, frame, memory);
    }
    if Configured(d) && IsRequest(d, frame) {
      var r :| CanMake(d, r) && frame == FrameOf(d, r);
      RequestIsAdmitted(d, r, memory);
    }
  }

  /** In particular for every dialect that can be built. */
  lemma BuiltAdmitsExactly(c: Config, frame: seq<Byte>, memory: seq<Byte> -> bool)
    requires ValidConfig(c)
    ensures AllowedCommand(DialectOf(c), frame, memory) <==>
              IsRequest(DialectOf(c), frame) || IsMemoryFrame(frame, memory)
  {
    BuiltIsSound(c);
    AdmittedExactly(DialectOf(c), frame, memory);
  }

  const NAMES: set<seq<Byte>> := {[73, 68], [65, 73], [77, 82], [77, 87], [77, 84], [77, 67], [69, 88]}

  /** The gate fails closed: nothing passes under another name, and nothing for a dialect without identity or modes. */
  lemma NothingElseIsAdmitted(d: Dialect, frame: seq<Byte>, memory: seq<Byte> -> bool)
    requires d.catID == [] || d.modeNames.None? || |frame| < 2 || frame[..2] !in NAMES
    ensures !AllowedCommand(d, frame, memory)
  {
  }
}
