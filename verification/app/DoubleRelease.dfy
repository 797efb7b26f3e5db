/**
 What goes wrong without the front end's rule: a cancel or a second receive, begun
 at any point of a receive, releases the reservation, and the receive then releases
 it again, the second time somebody else's; and so it is with a receive of an
 attempt that is not armed yet, when its arming fails.
 */
module DoubleRelease {
  import opened Results
  import opened AppSections
  import opened Protocol
  import opened Reservation
  import opened CloneAttempts
  import opened Interleavings

  /** What the story is about: who is where, what is reserved, what the record says, and that `c` has a port. */
  datatype View = View(pcs: map<Tid, Pc>, log: seq<OpEvent>, taken: nat, opBusy: Option<Operation>, hasPort: bool)

  function ViewOf(s: Sys, c: nat): View {
    View(s.pcs, s.log, s.taken, s.app.opBusy, c in s.attempts && s.attempts[c].read.port.Some?)
  }

  /** On the way to releasing the reservation of attempt `c`. */
  predicate Ends(pc: Pc, c: nat) {
    Receiving(pc, c) || (pc.CnClose? && pc.c == c) || pc == OpRelease(c)
  }

  /** The steps still to go, if the slow work comes back with `o`. */
  function Left(pc: Pc, o: Outcome): nat {
    match pc
    case RcReceiving(_) => if o.ok then 5 else 4
    case RcStore(_, _) => 4
    case RcClose(_) => 3
    case RcClear(_) => 2
    case CnClose(_, _) => 2
    case OpRelease(_) => 1
    case _ => 0
  }

  lemma ReleaseSeen(s: Sys, t: Tid, c: nat, o: Outcome)
    requires PcAt(s, t) == Some(OpRelease(c))
    ensures ViewOf(Apply(s, Advance(t, o)), c)
         == ViewOf(s, c).(pcs := s.pcs - {t}, opBusy := None, log := s.log + [Released(c)])
  {
  }

  lemma EndingMove(s: Sys, pc: Pc, c: nat, o: Outcome)
    requires IsClone(pc) && Ends(pc, c) && ViewOf(s, c).hasPort
    ensures var m := StepClone(s, pc, o);
            && m.next.Some? && Ends(m.next.value, c) && Left(m.next.value, o) == Left(pc, o) - 1
            && ViewOf(m.sys, c) == ViewOf(s, c)
  {
  }

  lemma EndingStep(s: Sys, t: Tid, c: nat, o: Outcome)
    requires t in s.pcs && Ends(s.pcs[t], c) && s.pcs[t] != OpRelease(c) && ViewOf(s, c).hasPort
    ensures var s' := Apply(s, Advance(t, o));
            && t in s'.pcs && Ends(s'.pcs[t], c) && Left(s'.pcs[t], o) == Left(s.pcs[t], o) - 1
            && ViewOf(s', c) == ViewOf(s, c).(pcs := s.pcs[t := s'.pcs[t]])
  {
    EndingMove(s, s.pcs[t], c, o);
    assert Step(s, t, o) == StepClone(s, s.pcs[t], o);
  }

  lemma ArmSeen(s: Sys, w: Tid, c: nat)
    requires w !in s.pcs && s.app.opBusy.None? && c != s.taken
    ensures ViewOf(Apply(s, Start(w, CallArm)), c)
         == View(s.pcs[w := ArOpening(s.taken)], s.log + [Reserved(s.taken)], s.taken + 1, Some(ArmCloneOp),
                 ViewOf(s, c).hasPort)
  {
  }

  /** The two calls that the front end keeps away from a receive. */
  predicate Intrudes(call: Call) {
    call.CallCancelClone? || call.CallReceive?
  }

  function Entry(s: Sys, call: Call, c: nat): Pc
    requires Intrudes(call) && c in s.attempts
  {
    if call.CallCancelClone? then CnClose(c, s.attempts[c].read.port) else RcReceiving(c)
  }

  lemma IntruderSeen(s: Sys, v: Tid, call: Call, c: nat)
    requires v !in s.pcs && Intrudes(call) && s.app.cloneState == Some(c) && c in s.attempts
    ensures ViewOf(Apply(s, Start(v, call)), c) == ViewOf(s, c).(pcs := s.pcs[v := Entry(s, call, c)])
    ensures Ends(Entry(s, call, c), c)
  {
  }

  // ---- schedules put together

  ghost predicate Leads(s: Sys, es: seq<Event>, end: View, c: nat) {
    Schedule(s, es) && ViewOf(Reached(s, es), c) == end
  }

  lemma Before(s: Sys, e: Event, es: seq<Event>, end: View, c: nat)
    requires Enabled(s, e) && Leads(Apply(s, e), es, end, c)
    ensures Leads(s, [e] + es, end, c)
  {
    Prepend(s, e, Apply(s, e), es);
  }

  function Times(e: Event, n: nat): seq<Event> {
    if n == 0 then [] else [e] + Times(e, n - 1)
  }

  ghost function Ended(v: View, t: Tid, c: nat): View {
    v.(pcs := v.pcs - {t}, opBusy := None, log := v.log + [Released(c)])
  }

  /** A call on its way to the release runs to its end, and then the schedule goes on. */
  lemma {:induction false} RunsOut(s: Sys, t: Tid, c: nat, o: Outcome, es: seq<Event>, end: View)
    requires t in s.pcs && Ends(s.pcs[t], c) && ViewOf(s, c).hasPort
    requires forall q: Sys :: ViewOf(q, c) == Ended(ViewOf(s, c), t, c) ==> Leads(q, es, end, c)
    ensures Leads(s, Times(Advance(t, o), Left(s.pcs[t], o)) + es, end, c)
    decreases Left(s.pcs[t], o)
  {
    var e := Advance(t, o);
    var s' := Apply(s, e);
    var n := Left(s.pcs[t], o);
    if s.pcs[t] == OpRelease(c) {
      ReleaseSeen(s, t, c, o);
      assert Times(e, 1) == [e];
      Before(s, e, es, end, c);
    } else {
      EndingStep(s, t, c, o);
      assert s'.pcs - {t} == s.pcs - {t};
      RunsOut(s', t, c, o, es, end);
      Before(s, e, Times(e, n - 1) + es, end, c);
      assert Times(e, n) + es == [e] + (Times(e, n - 1) + es);
    }
  }

  /** The intruder runs to its end, somebody else arms, and the receive runs to its end. */
  ghost function Story(s: Sys, u: Tid, v: Tid, call: Call, w: Tid, c: nat, o: Outcome): seq<Event>
    requires u in s.pcs && Intrudes(call) && c in s.attempts
  {
    [Start(v, call)] + (Times(Advance(v, o), Left(Entry(s, call, c), o))
                        + ([Start(w, CallArm)] + Times(Advance(u, o), Left(s.pcs[u], o))))
  }

  /** Two releases of `c`, none of the new reservation, which is nevertheless gone. */
  ghost function TwiceReleased(s: Sys, u: Tid, w: Tid, c: nat): View {
    View(s.pcs[w := ArOpening(s.taken)] - {u}, s.log + [Released(c), Reserved(s.taken), Released(c)],
         s.taken + 1, None, true)
  }

  /** Somebody arms, and then the receive `u` ends under it. */
  lemma ReceiveEndsUnderArm(s: Sys, u: Tid, w: Tid, c: nat, o: Outcome)
    requires u in s.pcs && Ends(s.pcs[u], c) && ViewOf(s, c).hasPort
    requires w !in s.pcs && s.app.opBusy.None? && c != s.taken
    ensures Leads(s, [Start(w, CallArm)] + Times(Advance(u, o), Left(s.pcs[u], o)),
                  View(s.pcs[w := ArOpening(s.taken)] - {u}, s.log + [Reserved(s.taken), Released(c)],
                       s.taken + 1, None, true), c)
  {
    var s1 := Apply(s, Start(w, CallArm));
    ArmSeen(s, w, c);
    var end := Ended(ViewOf(s1, c), u, c);
    assert end.log == s.log + [Reserved(s.taken), Released(c)];
    RunsOut(s1, u, c, o, [], end);
    var es := Times(Advance(u, o), Left(s.pcs[u], o));
    assert es + [] == es;
    Before(s, Start(w, CallArm), es, end, c);
  }

  lemma OverlapEnds(s: Sys, u: Tid, w: Tid, c: nat, o: Outcome, q: Sys)
    requires u in s.pcs && Ends(s.pcs[u], c) && w !in s.pcs && c < s.taken
    requires ViewOf(q, c) == View(s.pcs, s.log + [Released(c)], s.taken, None, true)
    ensures Leads(q, [Start(w, CallArm)] + Times(Advance(u, o), Left(s.pcs[u], o)), TwiceReleased(s, u, w, c), c)
  {
    ReceiveEndsUnderArm(q, u, w, c, o);
    assert s.log + [Released(c)] + [Reserved(s.taken), Released(c)]
        == s.log + [Released(c), Reserved(s.taken), Released(c)];
  }

  lemma OverlapRuns(s: Sys, u: Tid, v: Tid, call: Call, w: Tid, c: nat, o: Outcome)
    requires u in s.pcs && Receiving(s.pcs[u], c) && v !in s.pcs && w !in s.pcs && Intrudes(call)
    requires s.app.cloneState == Some(c) && ViewOf(s, c).hasPort && c < s.taken
    ensures Leads(s, Story(s, u, v, call, w, c, o), TwiceReleased(s, u, w, c), c)
  {
    var s1 := Apply(s, Start(v, call));
    IntruderSeen(s, v, call, c);
    var rest := [Start(w, CallArm)] + Times(Advance(u, o), Left(s.pcs[u], o));
    forall q: Sys | ViewOf(q, c) == Ended(ViewOf(s1, c), v, c)
      ensures Leads(q, rest, TwiceReleased(s, u, w, c), c)
    {
      assert q.pcs == s.pcs;
      OverlapEnds(s, u, w, c, o, q);
    }
    RunsOut(s1, v, c, o, rest, TwiceReleased(s, u, w, c));
    Before(s, Start(v, call), Times(Advance(v, o), Left(s1.pcs[v], o)) + rest, TwiceReleased(s, u, w, c), c);
  }

  lemma ReceiverOwnsAttempt(s: Sys, u: Tid, c: nat)
    requires CloneInv(s) && u in s.pcs && Receiving(s.pcs[u], c)
    ensures s.app.cloneState == Some(c) && c in s.attempts && c < s.taken && ViewOf(s, c).hasPort
  {
    assert ClonePcInv(s, u, s.pcs[u]);
  }

  /**
   In any reachable state with a receive in progress, wherever it is, a cancel or
   another receive of the same attempt that runs to its end lets the next arm start
   and then loses that arm its reservation: two releases of one, none of the other,
   `opBusy` clear while the arm still believes it holds it.
   */
  lemma OverlapReleasesTwice(es: seq<Event>, u: Tid, v: Tid, call: Call, w: Tid, c: nat, o: Outcome)
    requires Run(INIT, es) && u in After(INIT, es).pcs && Receiving(After(INIT, es).pcs[u], c) && Intrudes(call)
    requires v !in After(INIT, es).pcs && w !in After(INIT, es).pcs
    ensures var s := After(INIT, es);
            c in s.attempts && Leads(s, Story(s, u, v, call, w, c, o), TwiceReleased(s, u, w, c), c)
  {
    Reachable(es);
    ReceiverOwnsAttempt(After(INIT, es), u, c);
    OverlapRuns(After(INIT, es), u, v, call, w, c, o);
  }

  // ---- a receive before the attempt is armed

  /** On the way to failing the arm of attempt `c`, which by then has had its port. */
  predicate Failing(pc: Pc, c: nat) {
    (Arming(pc, c) && !pc.ArReception?) || pc == OpRelease(c)
  }

  /** The steps still to go, if the port opens and arming on it fails. */
  function FailLeft(pc: Pc): nat {
    match pc
    case ArOpening(_) => 6
    case ArPublish(_, _) => 5
    case ArArming(_, _) => 4
    case ArFailed(_, _) => 3
    case ArAbandon(_) => 2
    case OpRelease(_) => 1
    case _ => 0
  }

  /** The first of six steps opens the port; arming on it is what fails. */
  function Fails(u: Tid, n: nat): seq<Event> {
    if n == 0 then [] else [Advance(u, Outcome(n == 6, 0))] + Fails(u, n - 1)
  }

  /** Call `t` is on that way, and nobody has cancelled the attempt. */
  ghost predicate FailsWell(s: Sys, t: Tid, c: nat) {
    && t in s.pcs && Failing(s.pcs[t], c) && c in s.attempts && !s.attempts[c].read.cancelled
    && (s.pcs[t].ArOpening? || s.pcs[t].ArPublish? || s.attempts[c].read.port.Some?)
  }

  lemma FailingOpens(s: Sys, pc: Pc, c: nat)
    requires Failing(pc, c) && IsOpening(pc) && c in s.attempts && !s.attempts[c].read.cancelled
    requires pc.ArOpening? || pc.ArPublish? || s.attempts[c].read.port.Some?
    ensures var m := StepOpening(s, pc, Outcome(pc.ArOpening?, 0));
            && m.next.Some? && Failing(m.next.value, c) && FailLeft(m.next.value) == FailLeft(pc) - 1
            && c in m.sys.attempts && !m.sys.attempts[c].read.cancelled
            && (m.next.value.ArPublish? || m.sys.attempts[c].read.port.Some?)
            && ViewOf(m.sys, c).(hasPort := true) == ViewOf(s, c).(hasPort := true)
  {
  }

  lemma FailingUnwinds(s: Sys, t: Tid, pc: Pc, c: nat)
    requires Failing(pc, c) && IsUnwinding(pc) && ViewOf(s, c).hasPort && !s.attempts[c].read.cancelled
    ensures var m := StepUnwinding(s, t, pc);
            && m.next.Some? && Failing(m.next.value, c) && FailLeft(m.next.value) == FailLeft(pc) - 1
            && m.sys.attempts == s.attempts && ViewOf(m.sys, c) == ViewOf(s, c)
  {
  }

  lemma FailStep(s: Sys, t: Tid, c: nat)
    requires FailsWell(s, t, c) && s.pcs[t] != OpRelease(c)
    ensures var s' := Apply(s, Advance(t, Outcome(FailLeft(s.pcs[t]) == 6, 0)));
            && FailsWell(s', t, c) && FailLeft(s'.pcs[t]) == FailLeft(s.pcs[t]) - 1
            && ViewOf(s', c).(hasPort := true) == ViewOf(s, c).(pcs := s.pcs[t := s'.pcs[t]], hasPort := true)
  {
    var pc := s.pcs[t];
    if IsOpening(pc) {
      FailingOpens(s, pc, c);
    } else {
      FailingUnwinds(s, t, pc, c);
    }
    CloningStep(s, t, Outcome(FailLeft(pc) == 6, 0));
  }

  lemma BeforeFails(s: Sys, t: Tid, n: nat, es: seq<Event>, end: View, c: nat)
    requires n > 0 && Enabled(s, Advance(t, Outcome(n == 6, 0)))
    requires Leads(Apply(s, Advance(t, Outcome(n == 6, 0))), Fails(t, n - 1) + es, end, c)
    ensures Leads(s, Fails(t, n) + es, end, c)
  {
    var e := Advance(t, Outcome(n == 6, 0));
    Before(s, e, Fails(t, n - 1) + es, end, c);
    assert Fails(t, n) + es == [e] + (Fails(t, n - 1) + es);
  }

  /** Where a call stands makes no difference to the view it ends in. */
  lemma EndedAlike(v: View, t: Tid, pc: Pc, c: nat)
    ensures Ended(v.(pcs := v.pcs[t := pc]), t, c) == Ended(v, t, c)
  {
    assert v.pcs[t := pc] - {t} == v.pcs - {t};
  }

  /** The arming call fails and releases the reservation, and then the schedule goes on. */
  lemma {:induction false} FailsOut(s: Sys, t: Tid, c: nat, es: seq<Event>, end: View)
    requires FailsWell(s, t, c)
    requires forall q: Sys :: ViewOf(q, c) == Ended(ViewOf(s, c).(hasPort := true), t, c) ==> Leads(q, es, end, c)
    ensures Leads(s, Fails(t, FailLeft(s.pcs[t])) + es, end, c)
    decreases FailLeft(s.pcs[t])
  {
    var n := FailLeft(s.pcs[t]);
    var e := Advance(t, Outcome(n == 6, 0));
    var s' := Apply(s, e);
    if s.pcs[t] == OpRelease(c) {
      ReleaseSeen(s, t, c, e.out);
      assert Fails(t, 1) == [e];
      Before(s, e, es, end, c);
    } else {
      FailStep(s, t, c);
      EndedAlike(ViewOf(s, c).(hasPort := true), t, s'.pcs[t], c);
      FailsOut(s', t, c, es, end);
      BeforeFails(s, t, n, es, end, c);
    }
  }

  /** A receive begins, the arm fails, somebody else arms, and the receive runs to its end. */
  ghost function UnarmedStory(s: Sys, u: Tid, v: Tid, w: Tid, c: nat, o: Outcome): seq<Event>
    requires u in s.pcs
  {
    [Start(v, CallReceive)] + (Fails(u, FailLeft(s.pcs[u]))
                               + ([Start(w, CallArm)] + Times(Advance(v, o), Left(RcReceiving(c), o))))
  }

  lemma ReceiveBesideArm(s: Sys, u: Tid, v: Tid, c: nat)
    requires FailsWell(s, u, c) && s.app.cloneState == Some(c) && v !in s.pcs
    ensures var s1 := Apply(s, Start(v, CallReceive));
            && FailsWell(s1, u, c) && FailLeft(s1.pcs[u]) == FailLeft(s.pcs[u])
            && ViewOf(s1, c) == ViewOf(s, c).(pcs := s.pcs[v := RcReceiving(c)])
  {
  }

  lemma ComesAndGoes(pcs: map<Tid, Pc>, u: Tid, v: Tid, w: Tid, a: Pc, b: Pc)
    requires v !in pcs && w !in pcs && v != w && u in pcs
    ensures (pcs[v := a] - {u})[w := b] - {v} == pcs[w := b] - {u}
  {
  }

  lemma UnarmedEnds(s: Sys, u: Tid, v: Tid, w: Tid, c: nat, o: Outcome, q: Sys)
    requires u in s.pcs && v !in s.pcs && w !in s.pcs && v != w && c < s.taken
    requires ViewOf(q, c) == View(s.pcs[v := RcReceiving(c)] - {u}, s.log + [Released(c)], s.taken, None, true)
    ensures Leads(q, [Start(w, CallArm)] + Times(Advance(v, o), Left(RcReceiving(c), o)), TwiceReleased(s, u, w, c), c)
  {
    ReceiveEndsUnderArm(q, v, w, c, o);
    ComesAndGoes(s.pcs, u, v, w, RcReceiving(c), ArOpening(s.taken));
    assert s.log + [Released(c)] + [Reserved(s.taken), Released(c)]
        == s.log + [Released(c), Reserved(s.taken), Released(c)];
  }

  lemma UnarmedRuns(s: Sys, u: Tid, v: Tid, w: Tid, c: nat, o: Outcome)
    requires FailsWell(s, u, c) && s.app.cloneState == Some(c) && c < s.taken
    requires v !in s.pcs && w !in s.pcs && v != w
    ensures Leads(s, UnarmedStory(s, u, v, w, c, o), TwiceReleased(s, u, w, c), c)
  {
    var s1 := Apply(s, Start(v, CallReceive));
    ReceiveBesideArm(s, u, v, c);
    var rest := [Start(w, CallArm)] + Times(Advance(v, o), Left(RcReceiving(c), o));
    forall q: Sys | ViewOf(q, c) == Ended(ViewOf(s1, c).(hasPort := true), u, c)
      ensures Leads(q, rest, TwiceReleased(s, u, w, c), c)
    {
      UnarmedEnds(s, u, v, w, c, o, q);
    }
    FailsOut(s1, u, c, rest, TwiceReleased(s, u, w, c));
    Before(s, Start(v, CallReceive), Fails(u, FailLeft(s.pcs[u])) + rest, TwiceReleased(s, u, w, c), c);
  }

  lemma ArmerFailsWell(s: Sys, u: Tid, c: nat)
    requires CloneInv(s) && u in s.pcs && Failing(s.pcs[u], c) && !s.pcs[u].OpRelease? && s.app.cloneState == Some(c)
    requires s.pcs[u].ArAbandon? && c in s.attempts ==> s.attempts[c].read.port.Some?
    ensures FailsWell(s, u, c) && c < s.taken
  {
    assert ClonePcInv(s, u, s.pcs[u]);
  }

  /**
   In any reachable state with an arm in progress that can still fail with its port
   open, a receive of the attempt and then that failure release the reservation
   twice, as above.
   */
  lemma UnarmedReleasesTwice(es: seq<Event>, u: Tid, v: Tid, w: Tid, c: nat, o: Outcome)
    requires Run(INIT, es) && After(INIT, es).app.cloneState == Some(c)
    requires u in After(INIT, es).pcs && Arming(After(INIT, es).pcs[u], c) && !After(INIT, es).pcs[u].ArReception?
    requires var s := After(INIT, es);
             s.pcs[u].ArAbandon? && c in s.attempts ==> s.attempts[c].read.port.Some?
    requires v !in After(INIT, es).pcs && w !in After(INIT, es).pcs && v != w
    ensures var s := After(INIT, es);
            Leads(s, UnarmedStory(s, u, v, w, c, o), TwiceReleased(s, u, w, c), c)
  {
    Reachable(es);
    ArmerFailsWell(After(INIT, es), u, c);
    UnarmedRuns(After(INIT, es), u, v, w, c, o);
  }
}
