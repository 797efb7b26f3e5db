/**
 Which request each reply answers.  Every noted length gets a number, and the
 ledger follows the numbers through a history: waiting, answered, or gone.
 */
module WantLedger {
  import opened Results
  import opened WantQueue

  datatype Ledger = Ledger(
    noted: seq<int>,        // every positive length ever noted
    waiting: seq<nat>,      // the numbers of those still queued
    answered: seq<nat>,     // the number each reply belongs to, in the order of the replies
    cancelled: set<nat>,    // taken back as the newest of the queue
    displaced: set<nat>,    // pushed out as the oldest of a full queue
    reset: set<nat>)        // queued when a push overflowed
  {
    ghost function Gone(): set<nat> {
      cancelled + displaced + reset
    }
  }

  const EMPTY: Ledger := Ledger([], [], [], {}, {}, {})

  /** A note queues a number behind at most seven others; a cancel takes the newest; replies take the oldest. */
  function Enter(l: Ledger, e: Event, p: Option<Pushed>): (r: Ledger)
    requires e.Arrive? ==> p.Some? && |p.value.frames| <= |l.waiting|
  {
    match e
    case Note(n) =>
      if n <= 0 then l
      else
        var full := |l.waiting| >= MAX_WANT_QUEUE;
        l.(noted := l.noted + [n],
           waiting := (if full then l.waiting[1..] else l.waiting) + [|l.noted|],
           displaced := if full then l.displaced + {l.waiting[0]} else l.displaced)
    case Cancel =>
      if l.waiting == [] then l
      else
        var last := |l.waiting| - 1;
        l.(waiting := l.waiting[..last], cancelled := l.cancelled + {l.waiting[last]})
    case Arrive(_) =>
      var k := |p.value.frames|;
      var l' := l.(answered := l.answered + l.waiting[..k], waiting := l.waiting[k..]);
      if p.value.discarded.None? then l'
      else l'.(waiting := [], reset := l.reset + Elements(l'.waiting))
  }

  function Elements(s: seq<nat>): set<nat> {
    set x | x in s
  }

  function PushOf(h: History, e: Event): Option<Pushed>
    requires Positive(h.state.want)
  {
    if e.Arrive? then Some(PushTo(h.state, e.chunk)) else None
  }

  predicate Below(numbers: seq<nat>, n: nat) {
    forall i | 0 <= i < |numbers| :: numbers[i] < n
  }

  /** The lengths that the numbers stand for. */
  function LengthsAt(noted: seq<int>, numbers: seq<nat>): (r: seq<int>)
    requires Below(numbers, |noted|)
    ensures |r| == |numbers|
    ensures forall i | 0 <= i < |r| :: r[i] == noted[numbers[i]]
  {
    seq(|numbers|, i requires 0 <= i < |numbers| => noted[numbers[i]])
  }

  function Lengths(frames: seq<seq<Byte>>): (r: seq<int>)
    ensures |r| == |frames|
    ensures forall i | 0 <= i < |r| :: r[i] == |frames[i]|
  {
    seq(|frames|, i requires 0 <= i < |frames| => |frames[i]|)
  }

  /** The numbers below `n` that are not gone, in the order they were given out. */
  ghost function Left(n: nat, gone: set<nat>): seq<nat> {
    if n == 0 then [] else Left(n - 1, gone) + if n - 1 in gone then [] else [n - 1]
  }

  // ---- striking numbers out

  lemma {:induction false} LeftAreBelow(n: nat, gone: set<nat>)
    ensures Below(Left(n, gone), n)
  {
    if n > 0 {
      LeftAreBelow(n - 1, gone);
    }
  }

  lemma {:induction false} GoneAbove(n: nat, gone: set<nat>, x: nat)
    requires x >= n
    ensures Left(n, gone + {x}) == Left(n, gone)
  {
    if n > 0 {
      GoneAbove(n - 1, gone, x);
    }
  }

  lemma {:induction false} StrikeOne(n: nat, gone: set<nat>, before: seq<nat>, x: nat, after: seq<nat>)
    requires Left(n, gone) == before + [x] + after
    ensures Left(n, gone + {x}) == before + after
  {
    var all := before + [x] + after;
    assert n > 0 && all[|before|] == x;
    if n - 1 in gone {
      StrikeOne(n - 1, gone, before, x, after);
    } else if after == [] {
      assert all[..|all| - 1] == before && all[|all| - 1] == x;
      GoneAbove(n - 1, gone, x);
    } else {
      var m := |after| - 1;
      assert all[..|all| - 1] == before + [x] + after[..m] && all[|all| - 1] == after[m];
      StrikeOne(n - 1, gone, before, x, after[..m]);
      LeftAreBelow(n - 1, gone);
      assert Left(n - 1, gone)[|before|] == x;
      assert before + after == (before + after[..m]) + [after[m]];
    }
  }

  lemma {:induction false} StrikeAll(n: nat, gone: set<nat>, before: seq<nat>, after: seq<nat>)
    requires Left(n, gone) == before + after
    ensures Left(n, gone + Elements(after)) == before
    decreases |after|
  {
    if after == [] {
      assert gone + Elements(after) == gone;
    } else {
      assert before + after == before + [after[0]] + after[1..];
      StrikeOne(n, gone, before, after[0], after[1..]);
      StrikeAll(n, gone + {after[0]}, before, after[1..]);
      assert gone + Elements(after) == gone + {after[0]} + Elements(after[1..]);
    }
  }

  // ---- the ledger is in order

  /** Answered and then waiting are exactly the numbers not gone, in order. */
  ghost predicate Ordered(l: Ledger) {
    && Below(l.answered, |l.noted|) && Below(l.waiting, |l.noted|)
    && (forall x: nat | x in l.Gone() :: x < |l.noted|)
    && l.answered + l.waiting == Left(|l.noted|, l.Gone())
  }

  lemma NumberAdded(noted: seq<int>, n: int, gone: set<nat>, answered: seq<nat>, waiting: seq<nat>)
    requires answered + waiting == Left(|noted|, gone) && |noted| !in gone
    ensures answered + (waiting + [|noted|]) == Left(|noted + [n]|, gone)
  {
    Associate(answered, waiting, [|noted|]);
  }

  lemma NoteKeepsOrder(l: Ledger, n: int)
    requires Ordered(l)
    ensures Ordered(Enter(l, Note(n), None))
  {
    if n > 0 {
      var r := Enter(l, Note(n), None);
      if |l.waiting| >= MAX_WANT_QUEUE {
        var x, rest := l.waiting[0], l.waiting[1..];
        Split(l.waiting, 1);
        Associate(l.answered, [x], rest);
        StrikeOne(|l.noted|, l.Gone(), l.answered, x, rest);
        assert r.Gone() == l.Gone() + {x};
        NumberAdded(l.noted, n, r.Gone(), l.answered, rest);
      } else {
        assert r.Gone() == l.Gone();
        NumberAdded(l.noted, n, l.Gone(), l.answered, l.waiting);
      }
    }
  }

  lemma Split<T>(s: seq<T>, k: nat)
    requires k <= |s|
    ensures s == s[..k] + s[k..]
    ensures k == 1 ==> s == [s[0]] + s[1..]
  {
  }

  lemma CancelKeepsOrder(l: Ledger)
    requires Ordered(l)
    ensures Ordered(Enter(l, Cancel, None))
  {
    if l.waiting != [] {
      var last := |l.waiting| - 1;
      assert l.waiting == l.waiting[..last] + [l.waiting[last]];
      Associate(l.answered, l.waiting[..last], [l.waiting[last]]);
      StrikeOne(|l.noted|, l.Gone(), l.answered + l.waiting[..last], l.waiting[last], []);
      assert Enter(l, Cancel, None).Gone() == l.Gone() + {l.waiting[last]};
    }
  }

  lemma ArriveKeepsOrder(l: Ledger, e: Event, p: Pushed)
    requires Ordered(l) && e.Arrive? && |p.frames| <= |l.waiting|
    ensures Ordered(Enter(l, e, Some(p)))
  {
    var done, rest := l.waiting[..|p.frames|], l.waiting[|p.frames|..];
    Split(l.waiting, |p.frames|);
    Associate(l.answered, done, rest);
    var r := Enter(l, e, Some(p));
    if p.discarded.Some? {
      StrikeAll(|l.noted|, l.Gone(), l.answered + done, rest);
      assert r.Gone() == l.Gone() + Elements(rest);
    } else {
      assert r.Gone() == l.Gone();
    }
  }

  // ---- the ledger tells the truth

  /** What the ledger says is what the accumulator did. */
  ghost predicate Tallies(h: History, l: Ledger) {
    && Positive(h.state.want) && Ordered(l)
    && Lengths(h.frames) == LengthsAt(l.noted, l.answered)
    && h.state.want == LengthsAt(l.noted, l.waiting)
  }

  lemma LengthsAfterNote(noted: seq<int>, n: int, numbers: seq<nat>)
    requires Below(numbers, |noted|)
    ensures LengthsAt(noted + [n], numbers) == LengthsAt(noted, numbers)
    ensures LengthsAt(noted + [n], numbers + [|noted|]) == LengthsAt(noted, numbers) + [n]
  {
  }

  lemma LengthsOfPart(noted: seq<int>, numbers: seq<nat>, k: nat)
    requires Below(numbers, |noted|) && k <= |numbers|
    ensures LengthsAt(noted, numbers[..k]) == LengthsAt(noted, numbers)[..k]
    ensures LengthsAt(noted, numbers[k..]) == LengthsAt(noted, numbers)[k..]
  {
  }

  lemma LengthsJoin(noted: seq<int>, a: seq<nat>, b: seq<nat>)
    requires Below(a, |noted|) && Below(b, |noted|)
    ensures LengthsAt(noted, a + b) == LengthsAt(noted, a) + LengthsAt(noted, b)
  {
  }

  lemma NoteTallies(h: History, l: Ledger, n: int)
    requires Tallies(h, l)
    ensures Tallies(Happen(h, Note(n)), Enter(l, Note(n), None))
  {
    NoteKeepsOrder(l, n);
    if n > 0 {
      LengthsAfterNote(l.noted, n, l.answered);
      if |l.waiting| >= MAX_WANT_QUEUE {
        LengthsOfPart(l.noted, l.waiting, 1);
        LengthsAfterNote(l.noted, n, l.waiting[1..]);
      } else {
        LengthsAfterNote(l.noted, n, l.waiting);
      }
    }
  }

  lemma CancelTallies(h: History, l: Ledger)
    requires Tallies(h, l)
    ensures Tallies(Happen(h, Cancel), Enter(l, Cancel, None))
  {
    CancelKeepsOrder(l);
    if l.waiting != [] {
      LengthsOfPart(l.noted, l.waiting, |l.waiting| - 1);
    }
  }

  /** The replies of one push have the lengths at the front of the queue. */
  lemma FramesAreWanted(s: State, chunk: seq<Byte>)
    requires Positive(s.want)
    ensures var p := PushTo(s, chunk);
            && |p.frames| <= |s.want| && Lengths(p.frames) == s.want[..|p.frames|]
            && p.state.want == (if p.discarded.Some? then [] else s.want[|p.frames|..])
  {
    CutLengths(s.buf + chunk, s.want);
  }

  lemma LengthsOfBoth(a: seq<seq<Byte>>, b: seq<seq<Byte>>)
    ensures Lengths(a + b) == Lengths(a) + Lengths(b)
  {
  }

  lemma ArriveTallies(h: History, l: Ledger, chunk: seq<Byte>)
    requires Tallies(h, l)
    ensures |PushTo(h.state, chunk).frames| <= |l.waiting|
    ensures Tallies(Happen(h, Arrive(chunk)), Enter(l, Arrive(chunk), Some(PushTo(h.state, chunk))))
  {
    var p := PushTo(h.state, chunk);
    var k := |p.frames|;
    FramesAreWanted(h.state, chunk);
    ArriveKeepsOrder(l, Arrive(chunk), p);
    LengthsOfBoth(h.frames, p.frames);
    LengthsOfPart(l.noted, l.waiting, k);
    LengthsJoin(l.noted, l.answered, l.waiting[..k]);
  }

  lemma EventTallies(h: History, l: Ledger, e: Event)
    requires Tallies(h, l)
    ensures e.Arrive? ==> |PushTo(h.state, e.chunk).frames| <= |l.waiting|
    ensures Tallies(Happen(h, e), Enter(l, e, PushOf(h, e)))
  {
    match e
    case Note(n) => NoteTallies(h, l, n);
    case Cancel => CancelTallies(h, l);
    case Arrive(chunk) => ArriveTallies(h, l, chunk);
  }

  /** The ledger of a history that goes on from `h`. */
  ghost function EnterAll(h: History, l: Ledger, es: seq<Event>): Ledger
    requires Tallies(h, l)
    decreases |es|
  {
    if es == [] then l
    else
      EventTallies(h, l, es[0]);
      EnterAll(Happen(h, es[0]), Enter(l, es[0], PushOf(h, es[0])), es[1..])
  }

  lemma {:induction false} HistoryTallies(h: History, l: Ledger, es: seq<Event>)
    requires Tallies(h, l)
    ensures Tallies(HappenAll(h, es), EnterAll(h, l, es))
    ensures EnterAll(h, l, es).noted == l.noted + Asked(es)
    decreases |es|
  {
    if es == [] {
      assert l.noted + [] == l.noted;
    } else {
      EventTallies(h, l, es[0]);
      var l' := Enter(l, es[0], PushOf(h, es[0]));
      HistoryTallies(Happen(h, es[0]), l', es[1..]);
      Associate(l.noted, AskedBy(es[0]), Asked(es[1..]));
      assert l'.noted == l.noted + AskedBy(es[0]);
    }
  }

  /** The positive lengths noted in a history. */
  function Asked(es: seq<Event>): seq<int> {
    if es == [] then [] else AskedBy(es[0]) + Asked(es[1..])
  }

  function AskedBy(e: Event): seq<int> {
    if e.Note? && e.n > 0 then [e.n] else []
  }

  /**
   Over any history of a new accumulator: the replies, and then what is still
   queued, have the lengths of exactly those requests that were not cancelled,
   displaced or reset, in the order in which they were noted.
   */
  lemma RepliesAnswerInOrder(max: int, es: seq<Event>)
    ensures Tallies(Fresh(max), EMPTY)
    ensures var h, l := HappenAll(Fresh(max), es), EnterAll(Fresh(max), EMPTY, es);
            && l.noted == Asked(es)
            && Below(Left(|Asked(es)|, l.Gone()), |Asked(es)|)
            && Lengths(h.frames) + h.state.want == LengthsAt(Asked(es), Left(|Asked(es)|, l.Gone()))
  {
    HistoryTallies(Fresh(max), EMPTY, es);
    var l := EnterAll(Fresh(max), EMPTY, es);
    LeftAreBelow(|Asked(es)|, l.Gone());
    LengthsJoin(l.noted, l.answered, l.waiting);
    assert [] + Asked(es) == Asked(es);
  }
}
