/**
 What varies between the radios of the family, the outbound gate on their
 five-byte commands, and the reply length each command announces.
 */
module Profiles {
  import opened Results
  import opened WantQueue

  const FRAME_LEN: nat := 5
  const VFO_BOTH_LEN: nat := 18

  const OP_STORE: Byte := 0x03
  const OP_AB_SELECT: Byte := 0x05
  const OP_CLARIFIER: Byte := 0x09
  const OP_SET_FREQ: Byte := 0x0A
  const OP_SET_MODE: Byte := 0x0C
  const OP_STATUS_UPDATE: Byte := 0x10
  const OP_SHIFT: Byte := 0x84
  const OP_TONE: Byte := 0x90
  const OP_OFFSET: Byte := 0xF9
  const OP_IDENTITY: Byte := 0xFA

  const U_FULL_DUMP: Byte := 0
  const U_MEMORY_NUMBER: Byte := 1
  const U_OPERATING_DATA: Byte := 2
  const U_BOTH_VFOS: Byte := 3
  const U_MEMORY_RECORD: Byte := 4

  const IDENTITY_SHORT: Byte := 0
  const IDENTITY_LONG: Byte := 1

  datatype Profile = Profile(
    model: string,
    slotBase: int,
    slotCount: int,
    recordLen: int,
    fullDumpLen: int,
    modes: map<Byte, string>,
    storeChanArg: int,
    offsetZeroArg: int,
    offsetBoundArg: int)
  {
    predicate Configured() {
      model != "" && slotCount > 0 && recordLen > 0 && fullDumpLen > 0 && |modes| > 0
    }

    /** The argument positions are positions; outside them the gate would index out of range. */
    predicate Indexable() {
      0 <= storeChanArg < 4 && 0 <= offsetZeroArg < 4 && 0 <= offsetBoundArg < 4
    }

    function BoundArg(): int {
      if offsetBoundArg != 0 then offsetBoundArg else 1
    }

    function MaxFrame(): int {
      if fullDumpLen > FRAME_LEN then fullDumpLen else FRAME_LEN
    }

    predicate ValidChannel(ch: int) {
      slotCount > 0 && ch >= slotBase && ch < slotBase + slotCount
    }

    function ReplyLength(frame: seq<Byte>): Option<int> {
      if |frame| != FRAME_LEN then None
      else if frame[4] == OP_IDENTITY then
        if frame[3] == IDENTITY_SHORT then Some(5) else if frame[3] == IDENTITY_LONG then Some(6) else None
      else if frame[4] != OP_STATUS_UPDATE then None
      else if frame[0] == U_FULL_DUMP then Some(fullDumpLen)
      else if frame[0] == U_MEMORY_NUMBER then Some(1)
      else if frame[0] == U_OPERATING_DATA then Some(recordLen)
      else if frame[0] == U_BOTH_VFOS then Some(VFO_BOTH_LEN)
      else if frame[0] == U_MEMORY_RECORD then Some(recordLen)
      else None
    }

    predicate AllowedCommand(frame: seq<Byte>)
      requires Indexable()
    {
      Configured() && |frame| == FRAME_LEN &&
      var op := frame[4];
      if op == OP_STORE then ValidChannel(frame[storeChanArg])
      else if op == OP_AB_SELECT then frame[0] == 0 || frame[0] == 1
      else if op == OP_CLARIFIER then true
      else if op == OP_SET_FREQ then forall i | 0 <= i < 4 :: frame[i] / 16 <= 9 && frame[i] % 16 <= 9
      else if op == OP_SET_MODE then frame[0] in modes
      else if op == OP_STATUS_UPDATE then
        frame[0] in {U_FULL_DUMP, U_MEMORY_NUMBER, U_OPERATING_DATA, U_BOTH_VFOS}
        || (frame[0] == U_MEMORY_RECORD && ValidChannel(frame[3]))
      else if op == OP_SHIFT then frame[0] <= 2
      else if op == OP_TONE then frame[0] <= 0x20
      else if op == OP_OFFSET then frame[offsetZeroArg] == 0 && frame[BoundArg()] <= 2
      else if op == OP_IDENTITY then frame[3] == IDENTITY_SHORT || frame[3] == IDENTITY_LONG
      else false
    }

    /** A full dump is long enough to hold the longest fixed reply and a record. */
    predicate DumpIsLongest() {
      VFO_BOTH_LEN <= fullDumpLen && recordLen <= fullDumpLen
    }
  }

  predicate Fits(p: Profile, frame: seq<Byte>) {
    p.ReplyLength(frame).Some? ==> 0 < p.ReplyLength(frame).value <= p.MaxFrame()
  }

  lemma RepliesFit(p: Profile, frame: seq<Byte>)
    requires p.Configured() && p.DumpIsLongest()
    ensures Fits(p, frame)
  {
  }

  /** Every reply the gate can let a caller ask for fits the buffer if and only if the dump is the longest. */
  lemma RepliesFitExactly(p: Profile)
    requires p.Configured() && p.Indexable()
    ensures (forall frame :: p.AllowedCommand(frame) ==> Fits(p, frame)) <==> p.DumpIsLongest()
  {
    if p.DumpIsLongest() {
      forall frame
        ensures Fits(p, frame)
      {
        RepliesFit(p, frame);
      }
    } else {
      var both := [U_BOTH_VFOS, 0, 0, 0, OP_STATUS_UPDATE];
      var data := [U_OPERATING_DATA, 0, 0, 0, OP_STATUS_UPDATE];
      assert p.AllowedCommand(both) && p.AllowedCommand(data);
      assert !Fits(p, both) || !Fits(p, data);
    }
  }

  /** Among the commands the gate admits, exactly the two reads announce a reply. */
  lemma OnlyReadsAnnounce(p: Profile, frame: seq<Byte>)
    requires p.Indexable() && p.AllowedCommand(frame)
    ensures p.ReplyLength(frame).Some? <==> frame[4] == OP_STATUS_UPDATE || frame[4] == OP_IDENTITY
  {
  }

  // ---- what a session does to the queue

  datatype Traffic = Sent(frame: seq<Byte>) | Retracted | Heard(chunk: seq<Byte>)

  /** NoteSent queues the announced length, if there is one. */
  function AsEvent(p: Profile, t: Traffic): Event {
    match t
    case Sent(frame) => Note(if p.ReplyLength(frame).Some? then p.ReplyLength(frame).value else 0)
    case Retracted => Cancel
    case Heard(chunk) => Arrive(chunk)
  }

  function AsEvents(p: Profile, ts: seq<Traffic>): (es: seq<Event>)
    ensures |es| == |ts|
    ensures forall i | 0 <= i < |ts| :: es[i] == AsEvent(p, ts[i])
  {
    seq(|ts|, i requires 0 <= i < |ts| => AsEvent(p, ts[i]))
  }

  lemma SessionNotesWithin(p: Profile, max: int, ts: seq<Traffic>)
    requires p.Configured() && p.DumpIsLongest() && max >= p.MaxFrame()
    ensures NotesWithin(AsEvents(p, ts), max)
  {
    var es := AsEvents(p, ts);
    forall i | 0 <= i < |es| && es[i].Note?
      ensures es[i].n <= max
    {
      RepliesFit(p, ts[i].frame);
    }
  }

  /**
   In any session of a profile whose dump is the longest reply, on an accumulator
   at least that large: outstanding lengths and buffer stay within the bound, the
   next push overflows only with nothing left to ask for, and it does not matter
   in how many chunks its bytes come.
   */
  lemma SessionsStayWithinBound(p: Profile, max: int, ts: seq<Traffic>)
    requires p.Configured() && p.DumpIsLongest() && max >= p.MaxFrame()
    ensures var s := HappenAll(Fresh(max), AsEvents(p, ts)).state;
            && Positive(s.want) && Within(s.want, max) && |s.want| <= MAX_WANT_QUEUE && |s.buf| <= s.max == max
            && (forall chunk :: PushTo(s, chunk).discarded.Some? ==> CutAll(s.buf + chunk, s.want).want == [])
            && (forall chunks | chunks != [] :: Agrees(s, chunks))
  {
    SessionNotesWithin(p, max, ts);
    BoundIsKept(Fresh(max), AsEvents(p, ts), max);
    var s := HappenAll(Fresh(max), AsEvents(p, ts)).state;
    forall chunk
      ensures PushTo(s, chunk).discarded.Some? ==> CutAll(s.buf + chunk, s.want).want == []
    {
      OverflowOnlyUnasked(s, chunk);
    }
    ChunkingNeverMatters(s);
  }

  /** Two sessions that differ only in the chunks they heard: the same replies up to the first loss, if there is one. */
  lemma SessionsIgnoreChunking(p: Profile, max: int, ts: seq<Traffic>, us: seq<Traffic>)
    requires p.Configured() && p.DumpIsLongest() && max >= p.MaxFrame()
    requires Coalesced(AsEvents(p, ts)) == Coalesced(AsEvents(p, us))
    ensures var r, q := HappenAll(Fresh(max), AsEvents(p, ts)), HappenAll(Fresh(max), AsEvents(p, us));
            (r.lost == 0 <==> q.lost == 0) && (r.lost == 0 ==> r == q)
    ensures RepliesToLoss(Fresh(max), AsEvents(p, ts)) == RepliesToLoss(Fresh(max), AsEvents(p, us))
  {
    SessionNotesWithin(p, max, ts);
    SessionNotesWithin(p, max, us);
    RechunkingNeverMatters(Fresh(max), AsEvents(p, ts), AsEvents(p, us));
  }

  // ---- the adapter

  /** An adapter for a configured profile, and none for any other. */
  method NewFraming(p: Profile) returns (f: Option<Framing>)
    ensures f.Some? <==> p.Configured()
    ensures f.Some? ==> fresh(f.value) && fresh(f.value.acc) && f.value.p == p && !f.value.handedOut
                        && f.value.acc.Valid() && f.value.acc.Current() == State([], [], p.MaxFrame())
  {
    if !p.Configured() {
      return None;
    }
    var framing := new Framing(p);
    return Some(framing);
  }

  class Framing {
    const p: Profile
    const acc: Accumulator
    var handedOut: bool

    constructor (p: Profile)
      ensures this.p == p && fresh(acc) && acc.Valid() && acc.Current() == State([], [], p.MaxFrame()) && !handedOut
    {
      this.p := p;
      acc := new Accumulator(p.MaxFrame());
      handedOut := false;
    }

    /** False where a second hand-out would panic. */
    method NewAccumulator(max: int) returns (ok: bool)
      modifies this, acc`max
      ensures ok == !old(handedOut) && handedOut
      ensures acc.Current() == old(acc.Current()).(max := if ok && max > 0 then max else old(acc.max))
    {
      ok := !handedOut;
      if ok {
        handedOut := true;
        if max > 0 {
          acc.max := max;
        }
      }
    }

    method NoteSent(frame: seq<Byte>)
      requires acc.Valid()
      modifies acc
      ensures acc.Valid()
      ensures acc.Current() == Happen(History(old(acc.Current()), [], 0), AsEvent(p, Sent(frame))).state
    {
      var n := p.ReplyLength(frame);
      if n.None? {
        return;
      }
      acc.NoteWant(n.value);
    }

    method CancelPendingWant()
      requires acc.Valid()
      modifies acc
      ensures acc.Valid()
      ensures acc.Current() == Happen(History(old(acc.Current()), [], 0), AsEvent(p, Retracted)).state
    {
      acc.CancelLastWant();
    }
  }
}
