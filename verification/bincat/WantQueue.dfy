/**
 The reassembler for replies that carry no terminator: a reply's length is known
 only from the request that asked for it, so the buffer is cut by a queue of
 expected lengths.
 */
module WantQueue {
  import opened Results

  type Byte = b: int | 0 <= b < 256

  const MAX_WANT_QUEUE: nat := 8

  datatype State = State(buf: seq<Byte>, want: seq<int>, max: int)

  /** What one push gives back: whole replies and, on overflow, how much was thrown away. */
  datatype Pushed = Pushed(state: State, frames: seq<seq<Byte>>, discarded: Option<nat>)

  /** Where the queue can cut the buffer: the replies it completes, and what is left. */
  datatype Cut = Cut(frames: seq<seq<Byte>>, buf: seq<Byte>, want: seq<int>)

  predicate Positive(want: seq<int>) {
    forall i | 0 <= i < |want| :: want[i] > 0
  }

  predicate Within(want: seq<int>, max: int) {
    forall i | 0 <= i < |want| :: want[i] <= max
  }

  function CutAll(buf: seq<Byte>, want: seq<int>): (c: Cut)
    requires Positive(want)
    decreases |want|
  {
    if want == [] || |buf| < want[0] then Cut([], buf, want)
    else
      var c := CutAll(buf[want[0]..], want[1..]);
      c.(frames := [buf[..want[0]]] + c.frames)
  }

  function WithWant(want: seq<int>, n: int): seq<int> {
    if n <= 0 then want
    else if |want| >= MAX_WANT_QUEUE then want[1..] + [n]
    else want + [n]
  }

  function WithoutLast(want: seq<int>): seq<int> {
    if want == [] then want else want[..|want| - 1]
  }

  function PushTo(s: State, chunk: seq<Byte>): Pushed
    requires Positive(s.want)
  {
    var c := CutAll(s.buf + chunk, s.want);
    if |c.buf| > s.max then Pushed(State([], [], s.max), c.frames, Some(|c.buf|))
    else Pushed(State(c.buf, c.want, s.max), c.frames, None)
  }

  // ---- the object

  class Accumulator {
    var buf: seq<Byte>
    var max: int
    var want: seq<int>

    constructor (max: int)
      ensures Current() == State([], [], max)
    {
      buf, this.max, want := [], max, [];
    }

    function Current(): State
      reads this
    {
      State(buf, want, max)
    }

    ghost predicate Valid()
      reads this
    {
      Positive(want) && |want| <= MAX_WANT_QUEUE
    }

    method NoteWant(n: int)
      requires Valid()
      modifies this`want
      ensures Valid() && want == WithWant(old(want), n)
    {
      if n <= 0 {
        return;
      }
      if |want| >= MAX_WANT_QUEUE {
        want := want[1..];
      }
      want := want + [n];
    }

    method CancelLastWant()
      requires Valid()
      modifies this`want
      ensures Valid() && want == WithoutLast(old(want))
    {
      if |want| == 0 {
        return;
      }
      want := want[..|want| - 1];
    }

    method Push(chunk: seq<Byte>) returns (frames: seq<seq<Byte>>, discarded: Option<nat>)
      requires Valid()
      modifies this`buf, this`want
      ensures Valid() && Pushed(Current(), frames, discarded) == PushTo(old(Current()), chunk)
    {
      buf := buf + chunk;
      frames := [];
      ghost var whole := CutAll(buf, want);
      while |want| > 0 && |buf| >= want[0]
        invariant Valid()
        invariant whole == CutAll(buf, want).(frames := frames + CutAll(buf, want).frames)
        decreases |want|
      {
        var n := want[0];
        frames := frames + [buf[..n]];
        buf := buf[n..];
        want := want[1..];
      }
      if |buf| > max {
        discarded := Some(|buf|);
        buf := [];
        want := [];
        return;
      }
      return frames, None;
    }
  }

  // ---- one push

  function Concat(frames: seq<seq<Byte>>): seq<Byte> {
    if frames == [] then [] else frames[0] + Concat(frames[1..])
  }

  lemma Associate<T>(a: seq<T>, b: seq<T>, c: seq<T>)
    ensures a + (b + c) == (a + b) + c
  {
  }

  lemma {:induction false} ConcatJoins(a: seq<seq<Byte>>, b: seq<seq<Byte>>)
    ensures Concat(a + b) == Concat(a) + Concat(b)
  {
    if a == [] {
      assert a + b == b;
    } else {
      assert (a + b)[1..] == a[1..] + b;
      ConcatJoins(a[1..], b);
    }
  }

  /** The replies have the wanted lengths in order, and cutting stops only when the next length is not there. */
  lemma {:induction false} CutLengths(buf: seq<Byte>, want: seq<int>)
    requires Positive(want)
    ensures var c := CutAll(buf, want);
            && |c.frames| <= |want| && c.want == want[|c.frames|..]
            && (forall i | 0 <= i < |c.frames| :: |c.frames[i]| == want[i])
            && (c.want != [] ==> |c.buf| < c.want[0])
    decreases |want|
  {
    if want != [] && |buf| >= want[0] {
      CutLengths(buf[want[0]..], want[1..]);
    }
  }

  /** Replies and remainder are the bytes that came in. */
  lemma {:induction false} CutConserves(buf: seq<Byte>, want: seq<int>)
    requires Positive(want)
    ensures Concat(CutAll(buf, want).frames) + CutAll(buf, want).buf == buf
    decreases |want|
  {
    if want != [] && |buf| >= want[0] {
      var rest := CutAll(buf[want[0]..], want[1..]);
      CutConserves(buf[want[0]..], want[1..]);
      assert CutAll(buf, want).frames[1..] == rest.frames;
      assert (buf[..want[0]] + Concat(rest.frames)) + rest.buf == buf[..want[0]] + (Concat(rest.frames) + rest.buf);
    }
  }

  /** A whole reply in front of the buffer comes out in front. */
  lemma CutCons(f: seq<Byte>, tail: seq<Byte>, want: seq<int>)
    requires Positive(want) && want != [] && |f| == want[0]
    ensures CutAll(f + tail, want) == CutAll(tail, want[1..]).(frames := [f] + CutAll(tail, want[1..]).frames)
  {
    assert (f + tail)[..|f|] == f && (f + tail)[|f|..] == tail;
  }

  /** Cutting in two goes is cutting once. */
  lemma {:induction false} CutResumes(buf: seq<Byte>, more: seq<Byte>, want: seq<int>)
    requires Positive(want)
    ensures var first := CutAll(buf, want);
            && Positive(first.want)
            && CutAll(buf + more, want)
            == CutAll(first.buf + more, first.want).(
                 frames := first.frames + CutAll(first.buf + more, first.want).frames)
    decreases |want|
  {
    if want != [] && |buf| >= want[0] {
      var f, tail := buf[..want[0]], buf[want[0]..];
      assert buf == f + tail && buf + more == f + (tail + more);
      CutCons(f, tail, want);
      CutCons(f, tail + more, want);
      CutResumes(tail, more, want[1..]);
    }
  }

  /** With no want more than one above the bound, a push overflows exactly when no want is left and too much is. */
  lemma OverflowOnlyUnasked(s: State, chunk: seq<Byte>)
    requires Positive(s.want) && Within(s.want, s.max + 1)
    ensures var c := CutAll(s.buf + chunk, s.want);
            PushTo(s, chunk).discarded.Some? <==> c.want == [] && |c.buf| > s.max
  {
    CutLengths(s.buf + chunk, s.want);
  }

  // ---- any chunking

  /** Pushes one chunk after another, up to the first overflow. */
  function PushAll(s: State, chunks: seq<seq<Byte>>): (p: Pushed)
    requires Positive(s.want)
    decreases |chunks|
  {
    if chunks == [] then Pushed(s, [], None)
    else
      CutLengths(s.buf + chunks[0], s.want);
      var p := PushTo(s, chunks[0]);
      if p.discarded.Some? then p
      else
        var q := PushAll(p.state, chunks[1..]);
        q.(frames := p.frames + q.frames)
  }

  /** One push of the whole and pushes in chunks come to the same. */
  ghost predicate Agrees(s: State, chunks: seq<seq<Byte>>)
    requires Positive(s.want)
  {
    var split, whole := PushAll(s, chunks), PushTo(s, Concat(chunks));
    && split.frames == whole.frames
    && (split.discarded.Some? <==> whole.discarded.Some?)
    && (split.discarded.None? ==> split.state == whole.state)
  }

  /** Two pushes are one, unless the first overflows, and then so does the one. */
  lemma TwoPushesAreOne(s: State, a: seq<Byte>, b: seq<Byte>)
    requires Positive(s.want) && Within(s.want, s.max + 1)
    ensures var first, whole := PushTo(s, a), PushTo(s, a + b);
            if first.discarded.Some? then whole.discarded.Some? && whole.frames == first.frames
            else && Positive(first.state.want) && Within(first.state.want, s.max + 1)
                 && whole == PushTo(first.state, b).(frames := first.frames + PushTo(first.state, b).frames)
  {
    Associate(s.buf, a, b);
    CutResumes(s.buf + a, b, s.want);
    CutLengths(s.buf + a, s.want);
    if PushTo(s, a).discarded.Some? {
      OverflowOnlyUnasked(s, a);
    }
  }

  /**
   However a stream is split into chunks, the replies are those of one push of
   the whole, an overflow is reported if and only if the whole reports one, and
   without an overflow the retained state is the same too.  Bytes nobody asked
   for may already be in the buffer when the wants are noted.
   */
  lemma {:induction false} SplitIndependent(s: State, chunks: seq<seq<Byte>>)
    requires Positive(s.want) && Within(s.want, s.max + 1) && chunks != []
    ensures Agrees(s, chunks)
    decreases |chunks|
  {
    var p := PushTo(s, chunks[0]);
    TwoPushesAreOne(s, chunks[0], Concat(chunks[1..]));
    if |chunks| == 1 {
      assert Concat(chunks) == chunks[0];
    } else if p.discarded.None? {
      SplitIndependent(p.state, chunks[1..]);
    }
  }

  // ---- how tight the bound is

  function Sum(want: seq<int>): int {
    if want == [] then 0 else want[0] + Sum(want[1..])
  }

  lemma {:induction false} SumIsNatural(want: seq<int>)
    requires Positive(want)
    ensures Sum(want) >= |want| && (want != [] ==> Sum(want) >= want[0])
  {
    if want != [] {
      SumIsNatural(want[1..]);
    }
  }

  lemma {:induction false} SumSnoc(want: seq<int>, k: nat)
    requires k < |want|
    ensures Sum(want[..k + 1]) == Sum(want[..k]) + want[k]
  {
    if k == 0 {
      assert want[..1] == [want[0]];
    } else {
      assert want[..k + 1][1..] == want[1..][..k];
      assert want[..k][1..] == want[1..][..k - 1];
      SumSnoc(want[1..], k - 1);
    }
  }

  /** Bytes enough for the first `k` wants, and too few for the next, complete exactly those `k`. */
  lemma {:induction false} CutCounts(buf: seq<Byte>, want: seq<int>, k: nat)
    requires Positive(want) && k <= |want| && Sum(want[..k]) <= |buf|
    requires k < |want| ==> |buf| < Sum(want[..k]) + want[k]
    ensures var c := CutAll(buf, want); |c.frames| == k && |c.buf| == |buf| - Sum(want[..k])
    decreases k
  {
    SumIsNatural(want[..k]);
    if k > 0 {
      assert want[..k][1..] == want[1..][..k - 1];
      SumIsNatural(want[1..][..k - 1]);
      CutCounts(buf[want[0]..], want[1..], k - 1);
    }
  }

  function Zeros(n: nat): seq<Byte> {
    seq(n, _ => 0)
  }

  /** A want two above the bound overflows in chunks and not in one push. */
  lemma WantTooLong(s: State, k: nat)
    requires Positive(s.want) && |s.buf| <= s.max && k < |s.want| && s.want[k] > s.max + 1
    ensures exists chunks | chunks != [] :: !Agrees(s, chunks)
  {
    var upto := Sum(s.want[..k]);
    SumIsNatural(s.want[..k]);
    SumSnoc(s.want, k);
    var head, tail := Zeros(upto + s.max + 1 - |s.buf|), Zeros(s.want[k] - s.max - 1);
    CutCounts(s.buf + head, s.want, k);
    assert PushTo(s, head).discarded.Some?;
    var whole := s.buf + (head + tail);
    if k + 1 < |s.want| {
      assert |whole| < Sum(s.want[..k + 1]) + s.want[k + 1];
    }
    CutCounts(whole, s.want, k + 1);
    assert Concat([head, tail]) == head + tail by {
      assert [head, tail][1..] == [tail];
      assert Concat([tail]) == tail;
    }
    assert !Agrees(s, [head, tail]);
  }

  /**
   In any state a history can reach, chunking never matters, for any stream, if
   and only if no want exceeds the bound by more than one.
   */
  lemma ChunkingNeverMatters(s: State)
    requires Positive(s.want) && |s.buf| <= s.max
    ensures (forall chunks | chunks != [] :: Agrees(s, chunks)) <==> Within(s.want, s.max + 1)
  {
    if Within(s.want, s.max + 1) {
      forall chunks: seq<seq<Byte>> | chunks != []
        ensures Agrees(s, chunks)
      {
        SplitIndependent(s, chunks);
      }
    } else {
      var k :| 0 <= k < |s.want| && s.want[k] > s.max + 1;
      WantTooLong(s, k);
    }
  }

  // ---- noting and cancelling

  /** Cancelling undoes noting exactly when the note went into a queue with room, or into none. */
  lemma CancelUndoesNote(want: seq<int>, n: int)
    requires |want| <= MAX_WANT_QUEUE
    ensures WithoutLast(WithWant(want, n)) == want <==>
              (n > 0 && |want| < MAX_WANT_QUEUE) || (n <= 0 && want == [])
  {
    if n > 0 {
      if |want| >= MAX_WANT_QUEUE {
        assert |WithoutLast(WithWant(want, n))| == |want| - 1 + 1 - 1;
      } else {
        assert WithoutLast(want + [n]) == want;
      }
    } else if want != [] {
      assert |WithoutLast(want)| == |want| - 1;
    }
  }

  // ---- whole histories

  datatype Event = Note(n: int) | Cancel | Arrive(chunk: seq<Byte>)

  /** After a history: the state, every reply given, and how many bytes overflows threw away. */
  datatype History = History(state: State, frames: seq<seq<Byte>>, lost: nat)

  /** An accumulator as it is handed out. */
  function Fresh(max: int): History {
    History(State([], [], max), [], 0)
  }

  function Happen(h: History, e: Event): (r: History)
    requires Positive(h.state.want)
    ensures Positive(r.state.want)
  {
    match e
    case Note(n) => h.(state := h.state.(want := WithWant(h.state.want, n)))
    case Cancel => h.(state := h.state.(want := WithoutLast(h.state.want)))
    case Arrive(chunk) =>
      CutLengths(h.state.buf + chunk, h.state.want);
      var p := PushTo(h.state, chunk);
      History(p.state, h.frames + p.frames, h.lost + if p.discarded.Some? then p.discarded.value else 0)
  }

  function HappenAll(h: History, es: seq<Event>): (r: History)
    requires Positive(h.state.want)
    decreases |es|
  {
    if es == [] then h else HappenAll(Happen(h, es[0]), es[1..])
  }

  function ChunkOf(e: Event): seq<Byte> {
    if e.Arrive? then e.chunk else []
  }

  function Arrived(es: seq<Event>): seq<Byte> {
    if es == [] then [] else ChunkOf(es[0]) + Arrived(es[1..])
  }

  /** All that a history still has: the replies' bytes and then the buffer. */
  function Kept(h: History): seq<Byte> {
    Concat(h.frames) + h.state.buf
  }

  lemma EventConserves(h: History, e: Event)
    requires Positive(h.state.want) && h.state.max >= 0
    ensures var r := Happen(h, e);
            && |Kept(r)| + r.lost == |Kept(h)| + h.lost + |ChunkOf(e)| && r.lost >= h.lost
            && (r.lost == h.lost ==> Kept(r) == Kept(h) + ChunkOf(e))
  {
    if e.Arrive? {
      var c := CutAll(h.state.buf + e.chunk, h.state.want);
      CutConserves(h.state.buf + e.chunk, h.state.want);
      ConcatJoins(h.frames, c.frames);
      Associate(Concat(h.frames), Concat(c.frames), c.buf);
      Associate(Concat(h.frames), h.state.buf, e.chunk);
      assert |Concat(c.frames)| + |c.buf| == |h.state.buf| + |e.chunk|;
      if |c.buf| <= h.state.max {
        assert Kept(Happen(h, e)) == Kept(h) + e.chunk;
      }
    } else {
      assert Kept(h) + ChunkOf(e) == Kept(h);
    }
  }

  /**
   Notes, cancels and arrivals in any order: every byte is in a reply, in the
   buffer, or reported lost; and if none is lost, replies and buffer are the stream.
   */
  lemma {:induction false} BytesAreConserved(h: History, es: seq<Event>)
    requires Positive(h.state.want) && h.state.max >= 0
    ensures var r := HappenAll(h, es);
            && |Kept(r)| + r.lost == |Kept(h)| + h.lost + |Arrived(es)| && r.lost >= h.lost
            && (r.lost == h.lost ==> Kept(r) == Kept(h) + Arrived(es))
    decreases |es|
  {
    if es == [] {
      assert Kept(h) + [] == Kept(h);
    } else {
      var h' := Happen(h, es[0]);
      EventConserves(h, es[0]);
      BytesAreConserved(h', es[1..]);
      assert Kept(h) + ChunkOf(es[0]) + Arrived(es[1..]) == Kept(h) + Arrived(es);
    }
  }

  predicate NotesWithin(es: seq<Event>, max: int) {
    forall i | 0 <= i < |es| && es[i].Note? :: es[i].n <= max
  }

  /** If nothing noted exceeds the bound, nothing outstanding ever does, and overflow means nobody asked. */
  lemma {:induction false} BoundIsKept(h: History, es: seq<Event>, bound: int)
    requires Positive(h.state.want) && Within(h.state.want, bound) && |h.state.want| <= MAX_WANT_QUEUE
    requires NotesWithin(es, bound)
    ensures var s := HappenAll(h, es).state;
            s.max == h.state.max && Positive(s.want) && Within(s.want, bound) && |s.want| <= MAX_WANT_QUEUE
    ensures 0 <= |h.state.buf| <= h.state.max ==> |HappenAll(h, es).state.buf| <= h.state.max
    decreases |es|
  {
    if es != [] {
      if es[0].Arrive? {
        CutLengths(h.state.buf + es[0].chunk, h.state.want);
      }
      BoundIsKept(Happen(h, es[0]), es[1..], bound);
    }
  }

  // ---- any chunking of a whole history

  lemma {:induction false} HappenAllJoins(h: History, es: seq<Event>, more: seq<Event>)
    requires Positive(h.state.want)
    ensures Positive(HappenAll(h, es).state.want) && HappenAll(h, es + more) == HappenAll(HappenAll(h, es), more)
    decreases |es|
  {
    if es == [] {
      assert es + more == more;
    } else {
      assert (es + more)[1..] == es[1..] + more;
      HappenAllJoins(Happen(h, es[0]), es[1..], more);
    }
  }

  /** Two arrivals are the one of both, unless that one overflows, and then the two lose bytes as well. */
  lemma ArrivalSplits(h: History, a: seq<Byte>, b: seq<Byte>)
    requires Positive(h.state.want) && Within(h.state.want, h.state.max + 1) && h.state.max >= 0
    ensures var two, one := Happen(Happen(h, Arrive(a)), Arrive(b)), Happen(h, Arrive(a + b));
            if PushTo(h.state, a + b).discarded.None? then two == one else two.lost > h.lost && one.lost > h.lost
  {
    TwoPushesAreOne(h.state, a, b);
    var first := PushTo(h.state, a);
    if first.discarded.None? {
      Associate(h.frames, first.frames, PushTo(first.state, b).frames);
    }
  }

  /**
   Anywhere in a history, an arrival that does not overflow may come in two parts
   instead: the same replies, and the same state at the end.
   */
  lemma SplittingNeverMatters(h: History, before: seq<Event>, a: seq<Byte>, b: seq<Byte>, after: seq<Event>)
    requires Positive(h.state.want) && Within(h.state.want, h.state.max + 1) && |h.state.want| <= MAX_WANT_QUEUE
    requires NotesWithin(before, h.state.max + 1) && h.state.max >= 0
    requires Positive(HappenAll(h, before).state.want) && PushTo(HappenAll(h, before).state, a + b).discarded.None?
    ensures HappenAll(h, before + [Arrive(a), Arrive(b)] + after) == HappenAll(h, before + [Arrive(a + b)] + after)
  {
    var mid := HappenAll(h, before);
    BoundIsKept(h, before, h.state.max + 1);
    ArrivalSplits(mid, a, b);
    Twice(mid, [Arrive(a), Arrive(b)]);
    Once(mid, [Arrive(a + b)]);
    HappenAllJoins(h, before + [Arrive(a), Arrive(b)], after);
    HappenAllJoins(h, before, [Arrive(a), Arrive(b)]);
    HappenAllJoins(h, before + [Arrive(a + b)], after);
    HappenAllJoins(h, before, [Arrive(a + b)]);
  }

  lemma Once(h: History, es: seq<Event>)
    requires Positive(h.state.want) && |es| == 1
    ensures HappenAll(h, es) == Happen(h, es[0])
  {
    assert HappenAll(h, es) == HappenAll(Happen(h, es[0]), es[1..]);
  }

  lemma Twice(h: History, es: seq<Event>)
    requires Positive(h.state.want) && |es| == 2
    ensures HappenAll(h, es) == Happen(Happen(h, es[0]), es[1])
  {
    Once(Happen(h, es[0]), es[1..]);
  }

  /** The history with every run of arrivals put together. */
  function Coalesced(es: seq<Event>): seq<Event>
    decreases |es|
  {
    if |es| < 2 then es
    else if es[0].Arrive? && es[1].Arrive? then Coalesced([Arrive(es[0].chunk + es[1].chunk)] + es[2..])
    else [es[0]] + Coalesced(es[1..])
  }

  /** What a history puts on the line and does to the queue, byte by byte. */
  datatype Mark = Came(b: Byte) | Noted(n: int) | Cancelled

  function MarksOf(e: Event): seq<Mark> {
    match e
    case Note(n) => [Noted(n)]
    case Cancel => [Cancelled]
    case Arrive(chunk) => seq(|chunk|, i requires 0 <= i < |chunk| => Came(chunk[i]))
  }

  function Marks(es: seq<Event>): seq<Mark> {
    if es == [] then [] else MarksOf(es[0]) + Marks(es[1..])
  }

  lemma MarksOfBoth(a: seq<Byte>, b: seq<Byte>, rest: seq<Event>)
    ensures Marks([Arrive(a + b)] + rest) == Marks([Arrive(a), Arrive(b)] + rest)
  {
    assert ([Arrive(a), Arrive(b)] + rest)[1..] == [Arrive(b)] + rest;
    assert ([Arrive(b)] + rest)[1..] == rest && ([Arrive(a + b)] + rest)[1..] == rest;
    assert MarksOf(Arrive(a + b)) == MarksOf(Arrive(a)) + MarksOf(Arrive(b));
  }

  /** Putting together keeps every byte, note and cancel in its place, and leaves no two arrivals side by side. */
  lemma {:induction false} CoalescedIsNormal(es: seq<Event>)
    ensures Marks(Coalesced(es)) == Marks(es)
    ensures es != [] ==> Coalesced(es) != [] && (Coalesced(es)[0].Arrive? <==> es[0].Arrive?)
    ensures forall i | 0 <= i < |Coalesced(es)| - 1 :: !(Coalesced(es)[i].Arrive? && Coalesced(es)[i + 1].Arrive?)
    decreases |es|
  {
    if |es| < 2 {
    } else if es[0].Arrive? && es[1].Arrive? {
      MarksOfBoth(es[0].chunk, es[1].chunk, es[2..]);
      assert es == [Arrive(es[0].chunk), Arrive(es[1].chunk)] + es[2..];
      CoalescedIsNormal([Arrive(es[0].chunk + es[1].chunk)] + es[2..]);
    } else {
      CoalescedIsNormal(es[1..]);
      assert ([es[0]] + Coalesced(es[1..]))[1..] == Coalesced(es[1..]);
    }
  }

  lemma {:induction false} CoalescingNeverMatters(h: History, es: seq<Event>)
    requires Positive(h.state.want) && Within(h.state.want, h.state.max + 1) && h.state.max >= 0
    requires NotesWithin(es, h.state.max + 1)
    ensures var split, whole := HappenAll(h, es), HappenAll(h, Coalesced(es));
            (split.lost == h.lost <==> whole.lost == h.lost) && (split.lost == h.lost ==> split == whole)
    decreases |es|
  {
    if |es| < 2 {
    } else if es[0].Arrive? && es[1].Arrive? {
      MergedFirst(h, es[0].chunk, es[1].chunk, es[2..]);
      assert es == [Arrive(es[0].chunk), Arrive(es[1].chunk)] + es[2..];
      CoalescingNeverMatters(h, [Arrive(es[0].chunk + es[1].chunk)] + es[2..]);
    } else {
      var h' := Happen(h, es[0]);
      NextIsWithin(h, es[0]);
      EventConserves(h, es[0]);
      assert ([es[0]] + Coalesced(es[1..]))[1..] == Coalesced(es[1..]);
      CoalescingNeverMatters(h', es[1..]);
      BytesAreConserved(h', es[1..]);
      BytesAreConserved(h', Coalesced(es[1..]));
    }
  }

  lemma NextIsWithin(h: History, e: Event)
    requires Positive(h.state.want) && Within(h.state.want, h.state.max + 1) && NotesWithin([e], h.state.max + 1)
    ensures var s := Happen(h, e).state; s.max == h.state.max && Positive(s.want) && Within(s.want, s.max + 1)
  {
    assert e == [e][0];
    if e.Arrive? {
      CutLengths(h.state.buf + e.chunk, h.state.want);
    }
  }

  lemma MergedFirst(h: History, a: seq<Byte>, b: seq<Byte>, rest: seq<Event>)
    requires Positive(h.state.want) && Within(h.state.want, h.state.max + 1) && h.state.max >= 0
    ensures var two, one := HappenAll(h, [Arrive(a), Arrive(b)] + rest), HappenAll(h, [Arrive(a + b)] + rest);
            two == one || (two.lost > h.lost && one.lost > h.lost)
  {
    ArrivalSplits(h, a, b);
    Twice(h, [Arrive(a), Arrive(b)]);
    Once(h, [Arrive(a + b)]);
    HappenAllJoins(h, [Arrive(a), Arrive(b)], rest);
    HappenAllJoins(h, [Arrive(a + b)], rest);
    BytesAreConserved(Happen(Happen(h, Arrive(a)), Arrive(b)), rest);
    BytesAreConserved(Happen(h, Arrive(a + b)), rest);
  }

  /** The replies given up to and with the first push that overflows. */
  function RepliesToLoss(h: History, es: seq<Event>): seq<seq<Byte>>
    requires Positive(h.state.want)
    decreases |es|
  {
    if es == [] then h.frames
    else
      var h' := Happen(h, es[0]);
      if h'.lost != h.lost then h'.frames else RepliesToLoss(h', es[1..])
  }

  /** Merging the first two arrivals leaves the replies up to the first overflow as they are. */
  lemma MergedReplies(h: History, a: seq<Byte>, b: seq<Byte>, es: seq<Event>)
    requires Positive(h.state.want) && Within(h.state.want, h.state.max + 1) && h.state.max >= 0
    requires |es| >= 2 && es[0] == Arrive(a) && es[1] == Arrive(b)
    ensures RepliesToLoss(h, es) == RepliesToLoss(h, [Arrive(a + b)] + es[2..])
  {
    TwoPushesAreOne(h.state, a, b);
    assert es[1..][1..] == es[2..] && ([Arrive(a + b)] + es[2..])[1..] == es[2..];
    var first := PushTo(h.state, a);
    if first.discarded.None? {
      Associate(h.frames, first.frames, PushTo(first.state, b).frames);
    }
  }

  lemma {:induction false} CoalescingKeepsReplies(h: History, es: seq<Event>)
    requires Positive(h.state.want) && Within(h.state.want, h.state.max + 1) && h.state.max >= 0
    requires NotesWithin(es, h.state.max + 1)
    ensures RepliesToLoss(h, es) == RepliesToLoss(h, Coalesced(es))
    decreases |es|
  {
    if |es| < 2 {
    } else if es[0].Arrive? && es[1].Arrive? {
      MergedReplies(h, es[0].chunk, es[1].chunk, es);
      CoalescingKeepsReplies(h, [Arrive(es[0].chunk + es[1].chunk)] + es[2..]);
    } else {
      assert ([es[0]] + Coalesced(es[1..]))[1..] == Coalesced(es[1..]);
      NextIsWithin(h, es[0]);
      CoalescingKeepsReplies(Happen(h, es[0]), es[1..]);
    }
  }

  /**
   Two histories that differ only in how the stream was chunked: one loses bytes
   if and only if the other does, the replies up to the first loss are the same,
   and without a loss so are all replies and the final state.
   */
  lemma RechunkingNeverMatters(h: History, es: seq<Event>, fs: seq<Event>)
    requires Positive(h.state.want) && Within(h.state.want, h.state.max + 1) && h.state.max >= 0
    requires NotesWithin(es, h.state.max + 1) && NotesWithin(fs, h.state.max + 1) && Coalesced(es) == Coalesced(fs)
    ensures HappenAll(h, es).lost == h.lost <==> HappenAll(h, fs).lost == h.lost
    ensures RepliesToLoss(h, es) == RepliesToLoss(h, fs)
    ensures HappenAll(h, es).lost == h.lost ==> HappenAll(h, es) == HappenAll(h, fs)
  {
    CoalescingNeverMatters(h, es);
    CoalescingNeverMatters(h, fs);
    CoalescingKeepsReplies(h, es);
    CoalescingKeepsReplies(h, fs);
  }
}
