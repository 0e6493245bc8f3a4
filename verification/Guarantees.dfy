/** What the invariant gives every federate, over all runs. */
module Guarantees {
  import opened FederationTime
  import opened Messages
  import opened Queues
  import opened TimeState
  import opened RtigState
  import opened World
  import opened CausalSafety
  import opened WorldInvariant

  // ---- Arrivals ----

  // No event reaches a constrained federate below its LBTS, its time or its sender's clock,
  // and no message ever makes an RTIA throw.
  lemma CausalArrival(w: World, j: Handle)
    requires Reachable(w) && j in w.rtias && j in w.down && w.down[j] != []
    requires RegulatorInTime(w.rtias[j], w.down[j][0])
    ensures Receive(w.rtias[j], w.down[j][0]).Some?
    ensures w.down[j][0].Timed? ==> var s, e := w.rtias[j], w.down[j][0].event;
      && e.src in s.clocks && s.clocks[e.src].Le(e.date)
      && (s.constrained ==> s.Lbts().Le(e.date) && s.now.Le(e.date))
  {
    ReachableInvariant(w);
    StreamIsReadable(w, j);
    RtiaReadKeepsInvariant(w, j);
    assert UpOk(w, j);
    if w.down[j][0].Timed? {
      var e := w.down[j][0].event;
      assert Fits(Get(w.rtias[j].clocks, e.src), w.down[j][0], e.src);
    }
  }

  // The RTIG refuses no promise and no change of regulation.
  lemma NothingIsRefused(w: World, h: Handle, subscribers: set<Handle>)
    requires Reachable(w) && h in w.rtias && h in w.up && w.up[h] != []
    ensures Process(w.rtig, w.up[h][0], subscribers).ok || w.up[h][0].Constraining?
  {
    ReachableInvariant(w);
    UpHead(w, h);
    ProcessForwards(w.rtig, w.up[h][0], h, subscribers);
  }

  // ---- A clock bounds everything in flight and everything sent later ----

  predicate NoRegulatorOff(stream: seq<Message>, i: Handle) {
    RegulatorOff(i) !in stream
  }

  predicate EventsFrom(stream: seq<Message>, i: Handle, bound: Time) {
    forall m :: m in stream && m.Timed? && m.event.src == i ==> bound.Le(m.event.date)
  }

  lemma {:induction false} ClockBoundsStream(clock: Option<Time>, stream: seq<Message>, i: Handle, bound: Time)
    requires Honest(clock, stream, i) && NoRegulatorOff(stream, i)
    requires clock.Some? && bound.Le(clock.value)
    ensures EventsFrom(stream, i, bound)
    ensures var after := ClockAfter(clock, stream, i); after.Some? && bound.Le(after.value)
    decreases |stream|
  {
    if stream != [] {
      assert stream[0] in stream;
      assert NoRegulatorOff(stream[1..], i);
      ClockBoundsStream(Heard(clock, stream[0], i), stream[1..], i, bound);
    }
  }

  // Everything of i on its way to j, or still to be sent, is dated at least `bound`.
  ghost predicate Bounded(w: World, i: Handle, j: Handle, bound: Time) {
    && i in w.rtias && i in w.up && j in w.down
    && w.rtias[i].regulating && bound.Le(Horizon(w.rtias[i]))
    && EventsFrom(w.up[i], i, bound)
    && EventsFrom(w.down[j], i, bound)
  }

  // The clock that j holds for i bounds all of i's events to come, unless i stops regulating.
  lemma ClockBoundsFlight(w: World, i: Handle, j: Handle)
    requires Reachable(w) && i in w.rtias && j in w.rtias && i in w.rtias[j].clocks && i != j
    requires i in w.up && j in w.down
    requires NoRegulatorOff(w.up[i], i) && NoRegulatorOff(w.down[j], i)
    ensures Bounded(w, i, j, w.rtias[j].clocks[i])
  {
    ReachableInvariant(w);
    var bound := w.rtias[j].clocks[i];
    assert LinkOk(w, i, j) && UpOk(w, i);
    ClockBoundsStream(Some(bound), w.down[j], i, bound);
    ClockBoundsStream(Get(w.rtig.regulators, i), w.up[i], i, bound);
  }

  predicate StopsRegulating(e: Step, i: Handle) {
    e.DisableRegulation? && e.h == i
  }

  predicate KeepsRegulating(steps: seq<Step>, i: Handle) {
    forall n :: 0 <= n < |steps| ==> !StopsRegulating(steps[n], i)
  }

  lemma OnlyDisableSendsOff(s: Rtia, e: Step)
    requires IsLocal(e) && !e.DisableRegulation?
    ensures NoRegulatorOff(Local(s, e).sent, s.me)
  {
  }

  lemma LocalKeepsBound(s: Rtia, e: Step, bound: Time)
    requires IsLocal(e) && !e.DisableRegulation? && e.h == s.me
    requires Consistent(s) && Disciplined(s, e) && s.regulating && bound.Le(Horizon(s))
    ensures var o := Local(s, e);
      o.rtia.regulating && bound.Le(Horizon(o.rtia)) && EventsFrom(o.sent, s.me, bound)
  {
    hide Local, Horizon;
    LocalKeepsWord(s, e);
    OnlyDisableSendsOff(s, e);
    assert Covers(Some(bound), s);
    ClockBoundsStream(Some(bound), Local(s, e).sent, s.me, bound);
  }

  lemma RtigReadKeepsBound(w: World, h: Handle, subscribers: set<Handle>, i: Handle, j: Handle, bound: Time)
    requires Invariant(w) && h in w.rtias && h in w.up && w.up[h] != [] && i in w.rtias && j in w.rtias
    requires Bounded(w, i, j, bound)
    ensures Bounded(RtigRead(w, h, subscribers), i, j, bound)
  {
    hide Horizon, RtigRead, Process, For, Invariant, UpOk, LinkOk, DownOk, FlagsOk;
    var m := w.up[h][0];
    RtigReadFacts(w, h, subscribers);
    RtigReadShape(w, h, subscribers);
    var f := For(Process(w.rtig, m, subscribers).responses, j);
    assert EventsFrom(f, i, bound) by {
      assert m in w.up[h];
    }
  }

  lemma RtigReadFacts(w: World, h: Handle, subscribers: set<Handle>)
    requires Invariant(w) && h in w.rtias && w.up[h] != []
    ensures SpokenBy(w.up[h][0], h)
    ensures forall j :: j in w.rtias ==>
      Forwards(For(Process(w.rtig, w.up[h][0], subscribers).responses, j), w.up[h][0], h, j)
  {
    UpHead(w, h);
    ProcessForwards(w.rtig, w.up[h][0], h, subscribers);
  }

  lemma RtiaReadKeepsBound(w: World, h: Handle, i: Handle, j: Handle, bound: Time)
    requires Invariant(w) && h in w.rtias && w.down[h] != [] && RegulatorInTime(w.rtias[h], w.down[h][0])
    requires i in w.rtias && j in w.rtias && Bounded(w, i, j, bound)
    ensures Bounded(RtiaRead(w, h), i, j, bound)
  {
    hide Horizon, Receive, UpOk, LinkOk, DownOk, FlagsOk;
    StreamIsReadable(w, h);
    ReceiveIsCovered(w.rtias[h], w.down[h][0]);
  }

  lemma StepKeepsBound(w: World, e: Step, i: Handle, j: Handle, bound: Time)
    requires Invariant(w) && Allowed(w, e) && !StopsRegulating(e, i)
    requires i in w.rtias && j in w.rtias && Bounded(w, i, j, bound)
    ensures Bounded(Next(w, e), i, j, bound)
  {
    hide Invariant, Horizon, Local, RtigRead, RtiaRead;
    InvariantKeys(w);
    if e.RtigReads? {
      RtigReadKeepsBound(w, e.h, e.subscribers, i, j, bound);
    } else if e.RtiaReads? {
      RtiaReadKeepsBound(w, e.h, i, j, bound);
    } else if IsLocal(e) && e.h == i {
      RtiaOf(w, i);
      LocalKeepsBound(w.rtias[i], e, bound);
    }
  }

  lemma RtiaOf(w: World, h: Handle)
    requires Invariant(w) && h in w.rtias
    ensures w.rtias[h].me == h && Consistent(w.rtias[h])
  {
    assert UpOk(w, h);
  }

  lemma {:induction false} RunKeepsBound(w: World, steps: seq<Step>, i: Handle, j: Handle, bound: Time)
    requires Invariant(w) && IsRun(w, steps) && KeepsRegulating(steps, i)
    requires i in w.rtias && j in w.rtias && Bounded(w, i, j, bound)
    ensures Bounded(After(w, steps), i, j, bound)
    decreases |steps|
  {
    if steps != [] {
      StepKeepsInvariant(w, steps[0]);
      StepKeepsBound(w, steps[0], i, j, bound);
      StepKeepsMembers(w, steps[0]);
      assert KeepsRegulating(steps[1..], i);
      RunKeepsBound(Next(w, steps[0]), steps[1..], i, j, bound);
    }
  }

  lemma StepKeepsMembers(w: World, e: Step)
    requires Invariant(w) && Allowed(w, e)
    ensures w.rtias.Keys <= Next(w, e).rtias.Keys
  {
    hide Invariant, Receive, Process, Local, Initial, Add;
  }

  // At any later time, everything of i in flight or to be sent is dated at least what j's clock said.
  lemma ClockBoundsTheFuture(w: World, steps: seq<Step>, i: Handle, j: Handle)
    requires Reachable(w) && i in w.rtias && j in w.rtias && i in w.rtias[j].clocks && i != j
    requires i in w.up && j in w.down
    requires NoRegulatorOff(w.up[i], i) && NoRegulatorOff(w.down[j], i)
    requires IsRun(w, steps) && KeepsRegulating(steps, i)
    ensures Bounded(After(w, steps), i, j, w.rtias[j].clocks[i])
  {
    ReachableInvariant(w);
    ClockBoundsFlight(w, i, j);
    RunKeepsBound(w, steps, i, j, w.rtias[j].clocks[i]);
  }

  // ---- Barriers: dates below which a federate is finished ----

  predicate Beyond(b: Time, date: Time, strict: bool) {
    if strict then b.Lt(date) else b.Le(date)
  }

  // Nothing dated before `b` (or, when strict, at `b`) can still be delivered.
  ghost predicate Floor(s: Rtia, b: Time, strict: bool) {
    && s.constrained
    && Beyond(b, s.Lbts(), strict)
    && (forall e :: e in s.tsos ==> Beyond(b, e.date, strict))
  }

  ghost predicate Barrier(s: Rtia, b: Time, strict: bool) {
    Floor(s, b, strict) && b.Le(Goal(s))
  }

  // A step of a constrained federate: it stays constrained, no event appears, and its goal moves
  // on or back to an event it holds.
  ghost predicate Proceeds(s: Rtia, s': Rtia) {
    && s'.me == s.me && s'.clocks == s.clocks && s'.constrained
    && (s'.tsos == s.tsos || (s.tsos != [] && s'.tsos == s.tsos[1..]))
    && (Goal(s).Le(Goal(s')) || (s.tsos != [] && Goal(s') == s.tsos[0].date))
  }

  lemma TimeAdvanceProceeds(s: Rtia)
    requires s.constrained && (s.advance == TAR || s.advance == TARA)
    ensures Proceeds(s, TimeAdvance(s).rtia)
  {
  }

  lemma NextEventAdvanceProceeds(s: Rtia)
    requires s.constrained && s.advance == NER
    ensures Proceeds(s, NextEventAdvance(s).rtia)
  {
    NextEventForms(s);
    hide NextEventAdvance, TargetReached, Rtia.Lbts;
  }

  lemma TickProceeds(s: Rtia)
    requires Consistent(s) && s.constrained
    ensures Proceeds(s, Tick(s).rtia)
  {
    if s.commands == [] && !(FifoOpen(s) && s.fifos != []) {
      if s.advance == TAR || s.advance == TARA {
        TimeAdvanceProceeds(s);
      } else if s.advance == NER {
        NextEventAdvanceProceeds(s);
      }
    }
  }

  lemma RequestProceeds(s: Rtia, advance: Advance, date: Time)
    requires s.constrained && Disciplined(s, Request(s.me, advance, date))
    ensures Proceeds(s, Local(s, Request(s.me, advance, date)).rtia)
  {
    RequestForms(s, s.me, advance, date);
    hide Local, Disciplined;
  }

  lemma LocalProceeds(s: Rtia, e: Step)
    requires IsLocal(e) && e.h == s.me && Consistent(s) && Disciplined(s, e) && s.constrained
    ensures Proceeds(s, Local(s, e).rtia)
  {
    if e.TickAt? {
      TickProceeds(s);
    } else if e.Request? {
      RequestProceeds(s, e.advance, e.date);
    }
  }

  lemma ProceedingKeepsFloor(s: Rtia, s': Rtia, b: Time, strict: bool)
    requires Proceeds(s, s') && Floor(s, b, strict)
    ensures Floor(s', b, strict)
    ensures Barrier(s, b, strict) ==> Barrier(s', b, strict)
  {
  }

  lemma ReceiveKeepsFloor(s: Rtia, m: Message, b: Time, strict: bool)
    requires Consistent(s) && Floor(s, b, strict) && ToldTo(m, s.me) && Receive(s, m).Some?
    requires forall i :: Fits(Get(s.clocks, i), m, i)
    requires m.RegulatorOn? && m.src != s.me ==> Beyond(b, m.date, strict)
    ensures Floor(Receive(s, m).value, b, strict)
  {
    match m
    case Timed(event) =>
      assert Fits(Get(s.clocks, event.src), m, event.src);
      InsertedMembers(s.tsos, event);
    case _ =>
  }

  // The steps that change the RTIA of j.
  predicate Touches(e: Step, j: Handle) {
    (IsLocal(e) || e.RtiaReads?) && e.h == j
  }

  lemma OthersLeaveRtia(w: World, e: Step, j: Handle)
    requires Allowed(w, e) && j in w.rtias && !Touches(e, j)
    ensures j in Next(w, e).rtias && Next(w, e).rtias[j] == w.rtias[j]
  {
    hide Receive, Process, Local, Initial, Add;
  }

  // Reading a RegulatorOn that is dated too low is the only way to lose a floor.
  predicate ReadsAbove(w: World, e: Step, j: Handle, b: Time, strict: bool) {
    e == RtiaReads(j) && j in w.down && w.down[j] != [] && w.down[j][0].RegulatorOn? && w.down[j][0].src != j
    ==> Beyond(b, w.down[j][0].date, strict)
  }

  lemma StepKeepsFloor(w: World, e: Step, j: Handle, b: Time, strict: bool)
    requires Invariant(w) && Allowed(w, e) && j in w.rtias && Floor(w.rtias[j], b, strict)
    requires ReadsAbove(w, e, j, b, strict)
    ensures j in Next(w, e).rtias && Floor(Next(w, e).rtias[j], b, strict)
    ensures Barrier(w.rtias[j], b, strict) ==> Barrier(Next(w, e).rtias[j], b, strict)
  {
    hide Invariant, Receive, Process, Local, Proceeds, ToldTo, Fits, Beyond;
    InvariantKeys(w);
    RtiaOf(w, j);
    if !Touches(e, j) {
      OthersLeaveRtia(w, e, j);
    } else if IsLocal(e) {
      LocalProceeds(w.rtias[j], e);
      ProceedingKeepsFloor(w.rtias[j], Local(w.rtias[j], e).rtia, b, strict);
    } else {
      StreamIsReadable(w, j);
      ReadNeverThrows(w, j);
      ReceiveKeepsFloor(w.rtias[j], w.down[j][0], b, strict);
      ReceiveKeepsGoal(w.rtias[j], w.down[j][0]);
    }
  }

  lemma ReadNeverThrows(w: World, j: Handle)
    requires Invariant(w) && j in w.rtias && w.down[j] != [] && RegulatorInTime(w.rtias[j], w.down[j][0])
    ensures Receive(w.rtias[j], w.down[j][0]).Some?
  {
    RtiaReadKeepsInvariant(w, j);
  }

  lemma ReceiveKeepsGoal(s: Rtia, m: Message)
    requires Receive(s, m).Some?
    ensures Goal(Receive(s, m).value) == Goal(s)
  {
  }

  lemma StepKeepsBarrier(w: World, e: Step, j: Handle, b: Time, strict: bool)
    requires Invariant(w) && Allowed(w, e) && j in w.rtias && Barrier(w.rtias[j], b, strict)
    ensures j in Next(w, e).rtias && Barrier(Next(w, e).rtias[j], b, strict)
  {
    RtiaOf(w, j);
    StepKeepsFloor(w, e, j, b, strict);
  }

  lemma {:induction false} RunKeepsBarrier(w: World, steps: seq<Step>, j: Handle, b: Time, strict: bool)
    requires Invariant(w) && IsRun(w, steps) && j in w.rtias && Barrier(w.rtias[j], b, strict)
    ensures j in After(w, steps).rtias && Barrier(After(w, steps).rtias[j], b, strict)
    decreases |steps|
  {
    hide Invariant, Barrier;
    if steps != [] {
      StepKeepsInvariant(w, steps[0]);
      StepKeepsBarrier(w, steps[0], j, b, strict);
      RunKeepsBarrier(Next(w, steps[0]), steps[1..], j, b, strict);
    }
  }

  // ---- Grants ----

  // A grant of `date` out of state `s` finishes everything up to that date.
  ghost predicate GrantFinishes(s: Rtia, s': Rtia, date: Time) {
    && s'.now == date && s.now.Le(date) && s'.advance == Idle
    && s'.commands == s.commands && s'.fifos == s.fifos
    && (forall e :: e in s'.tsos ==> date.Lt(e.date))
    && Barrier(s', date, s.advance != TARA)
  }

  lemma SortedBeyond(q: seq<Event>, bound: Time)
    requires Sorted(q) && !Gives(q, bound)
    ensures forall e :: e in q ==> bound.Lt(e.date)
  {
    forall e | e in q ensures bound.Lt(e.date) {
      var k :| 0 <= k < |q| && q[k] == e;
      assert q[0].date.Le(q[k].date);
    }
  }

  lemma TimeAdvanceGrantFinishes(s: Rtia, date: Time)
    requires Consistent(s) && s.constrained && (s.advance == TAR || s.advance == TARA)
    requires Granted(date) in TimeAdvance(s).told
    ensures GrantFinishes(s, TimeAdvance(s).rtia, date)
  {
    SortedBeyond(s.tsos, s.date);
  }

  lemma NextEventGrantFinishes(s: Rtia, date: Time)
    requires Consistent(s) && s.constrained && s.advance == NER && Granted(date) in NextEventAdvance(s).told
    ensures GrantFinishes(s, NextEventAdvance(s).rtia, date)
  {
    SortedBeyond(s.tsos, Target(s));
  }

  lemma GrantLeavesNothingBehind(s: Rtia, date: Time)
    requires Consistent(s) && s.constrained && Granted(date) in Tick(s).told
    ensures s.commands == [] && s.fifos == [] && s.advance != Idle
    ensures GrantFinishes(s, Tick(s).rtia, date)
  {
    assert s.advance != NERA;
    hide GrantFinishes, Consistent;
    if s.commands == [] && !(FifoOpen(s) && s.fifos != []) {
      if s.advance == TAR || s.advance == TARA {
        TimeAdvanceGrantFinishes(s, date);
      } else if s.advance == NER {
        NextEventGrantFinishes(s, date);
      }
    }
  }

  // A tick that raises a barrier raises it for good.
  lemma TickRaisesBarrier(w: World, j: Handle, b: Time, strict: bool, steps: seq<Step>)
    requires Reachable(w) && Allowed(w, TickAt(j)) && Barrier(Tick(w.rtias[j]).rtia, b, strict)
    requires IsRun(Next(w, TickAt(j)), steps)
    ensures var w' := After(Next(w, TickAt(j)), steps);
      Invariant(w') && j in w'.rtias && Barrier(w'.rtias[j], b, strict)
  {
    hide Tick, Barrier, Invariant, Reachable, IsRun, After;
    ReachableInvariant(w);
    StepKeepsInvariant(w, TickAt(j));
    RunKeepsInvariant(Next(w, TickAt(j)), steps);
    RunKeepsBarrier(Next(w, TickAt(j)), steps, j, b, strict);
  }

  // Once `date` is granted, no event dated up to it (before it, after a TARA) arrives any more.
  lemma NothingLateAfterGrant(w: World, j: Handle, date: Time, steps: seq<Step>)
    requires Reachable(w) && Allowed(w, TickAt(j)) && w.rtias[j].constrained && Granted(date) in Tick(w.rtias[j]).told
    requires IsRun(Next(w, TickAt(j)), steps)
    ensures var w' := After(Next(w, TickAt(j)), steps);
      j in w'.rtias && j in w'.down && w'.down[j] != [] && w'.down[j][0].Timed?
      ==> Beyond(date, w'.down[j][0].event.date, w.rtias[j].advance != TARA)
  {
    hide Tick, Invariant, Reachable, IsRun, After, Next;
    ReachableInvariant(w);
    RtiaOf(w, j);
    GrantLeavesNothingBehind(w.rtias[j], date);
    TickRaisesBarrier(w, j, date, w.rtias[j].advance != TARA, steps);
    ArrivalBeyond(After(Next(w, TickAt(j)), steps), j, date, w.rtias[j].advance != TARA);
  }

  lemma ArrivalBeyond(w: World, j: Handle, b: Time, strict: bool)
    requires Invariant(w) && j in w.rtias && Floor(w.rtias[j], b, strict)
    ensures w.down[j] != [] && w.down[j][0].Timed? ==> Beyond(b, w.down[j][0].event.date, strict)
  {
    if w.down[j] != [] && w.down[j][0].Timed? {
      StreamIsReadable(w, j);
      var e := w.down[j][0].event;
      assert Fits(Get(w.rtias[j].clocks, e.src), w.down[j][0], e.src);
    }
  }

  // ---- Time never goes back, whether or not the federate is constrained ----

  // The outcome moves time on, and to the date it grants, if it grants one.
  ghost predicate MovesTimeOn(s: Rtia, o: Outcome) {
    s.now.Le(o.rtia.now) && forall date :: Granted(date) in o.told ==> o.rtia.now == date
  }

  lemma TimeAdvanceKeepsTime(s: Rtia)
    requires s.now.Le(s.date)
    ensures MovesTimeOn(s, TimeAdvance(s))
  {
    hide Rtia.Lbts;
  }

  lemma NextEventAdvanceKeepsTime(s: Rtia)
    requires s.now.Le(s.date) && s.now.Le(Target(s))
    ensures MovesTimeOn(s, NextEventAdvance(s))
  {
    hide Rtia.Lbts;
  }

  lemma TargetIsAhead(s: Rtia)
    requires Consistent(s) && s.advance != Idle
    ensures s.now.Le(s.date) && s.now.Le(Target(s))
  {
    if s.tsos != [] {
      assert s.tsos[0] in s.tsos;
    }
  }

  lemma TickKeepsTime(s: Rtia)
    requires Consistent(s)
    ensures MovesTimeOn(s, Tick(s))
  {
    hide Consistent, TimeAdvance, NextEventAdvance;
    if s.advance != Idle {
      TargetIsAhead(s);
      if s.advance == TAR || s.advance == TARA {
        TimeAdvanceKeepsTime(s);
      } else {
        NextEventAdvanceKeepsTime(s);
      }
    }
  }

  lemma LocalKeepsTime(s: Rtia, e: Step)
    requires IsLocal(e) && Disciplined(s, e) && !e.TickAt?
    ensures Local(s, e).rtia.now == s.now
  {
    if e.Request? {
      RequestForms(s, e.h, e.advance, e.date);
      hide Local, Disciplined;
    } else {
      hide Disciplined;
    }
  }

  lemma ReceiveKeepsTime(s: Rtia, m: Message)
    requires Receive(s, m).Some?
    ensures Receive(s, m).value.now == s.now
  {
  }

  lemma StepKeepsTime(w: World, e: Step, j: Handle)
    requires Invariant(w) && Allowed(w, e) && j in w.rtias
    ensures j in Next(w, e).rtias && w.rtias[j].now.Le(Next(w, e).rtias[j].now)
  {
    hide Invariant, Receive, Process, Tick, Consistent;
    InvariantKeys(w);
    RtiaOf(w, j);
    if !Touches(e, j) {
      OthersLeaveRtia(w, e, j);
    } else if e.TickAt? {
      TickKeepsTime(w.rtias[j]);
    } else if IsLocal(e) {
      LocalKeepsTime(w.rtias[j], e);
    } else if Receive(w.rtias[j], w.down[j][0]).Some? {
      ReceiveKeepsTime(w.rtias[j], w.down[j][0]);
    }
  }

  lemma {:induction false} RunKeepsTime(w: World, steps: seq<Step>, j: Handle)
    requires Invariant(w) && IsRun(w, steps) && j in w.rtias
    ensures j in After(w, steps).rtias && w.rtias[j].now.Le(After(w, steps).rtias[j].now)
    decreases |steps|
  {
    hide Invariant, Next, Allowed;
    if steps != [] {
      StepKeepsInvariant(w, steps[0]);
      StepKeepsTime(w, steps[0], j);
      RunKeepsTime(Next(w, steps[0]), steps[1..], j);
    }
  }

  // A tick of j would grant the date.
  ghost predicate Grants(w: World, j: Handle, date: Time) {
    j in w.rtias && Granted(date) in Tick(w.rtias[j]).told
  }

  // Granted times never decrease.
  lemma GrantsAscend(w: World, j: Handle, date: Time, steps: seq<Step>, later: Time)
    requires Reachable(w) && Allowed(w, TickAt(j)) && Grants(w, j, date)
    requires IsRun(Next(w, TickAt(j)), steps) && Grants(After(Next(w, TickAt(j)), steps), j, later)
    ensures date.Le(later)
  {
    hide Tick, Invariant, Reachable, IsRun, After, Consistent;
    ReachableInvariant(w);
    RtiaOf(w, j);
    TickKeepsTime(w.rtias[j]);
    StepKeepsInvariant(w, TickAt(j));
    var w1 := Next(w, TickAt(j));
    RunKeepsTime(w1, steps, j);
    RunKeepsInvariant(w1, steps);
    RtiaOf(After(w1, steps), j);
    TickKeepsTime(After(w1, steps).rtias[j]);
  }

  // ---- Order of delivery ----

  // Delivering `e` out of `s` leaves nothing earlier to deliver.
  ghost predicate DeliveryFinishes(s: Rtia, s': Rtia, e: Event) {
    s.constrained && s.tsos != [] && e == s.tsos[0] && Barrier(s', e.date, false)
  }

  lemma TimeAdvanceDelivers(s: Rtia, e: Event)
    requires Consistent(s) && (s.advance == TAR || s.advance == TARA) && InOrder(e) in TimeAdvance(s).told
    ensures DeliveryFinishes(s, TimeAdvance(s).rtia, e)
  {
  }

  lemma NextEventDelivers(s: Rtia, e: Event)
    requires Consistent(s) && s.advance == NER && InOrder(e) in NextEventAdvance(s).told
    ensures DeliveryFinishes(s, NextEventAdvance(s).rtia, e)
  {
  }

  lemma DeliveryRaisesBarrier(s: Rtia, e: Event)
    requires Consistent(s) && InOrder(e) in Tick(s).told
    ensures DeliveryFinishes(s, Tick(s).rtia, e)
  {
    assert s.advance != NERA;
    hide DeliveryFinishes, Consistent, TimeAdvance, NextEventAdvance;
    if s.commands == [] && !(FifoOpen(s) && s.fifos != []) {
      if s.advance == TAR || s.advance == TARA {
        TimeAdvanceDelivers(s, e);
      } else if s.advance == NER {
        NextEventDelivers(s, e);
      }
    }
  }

  // A tick of j would deliver the event.
  ghost predicate Delivers(w: World, j: Handle, e: Event) {
    j in w.rtias && InOrder(e) in Tick(w.rtias[j]).told
  }

  // Over any run, whatever mix of requests, events come to a federate in time stamp order.
  lemma DeliveredInOrder(w: World, j: Handle, e: Event, steps: seq<Step>, later: Event)
    requires Reachable(w) && Allowed(w, TickAt(j)) && Delivers(w, j, e)
    requires IsRun(Next(w, TickAt(j)), steps) && Delivers(After(Next(w, TickAt(j)), steps), j, later)
    ensures e.date.Le(later.date)
  {
    hide Tick, Invariant, Reachable, IsRun, After, Next;
    ReachableInvariant(w);
    RtiaOf(w, j);
    DeliveryRaisesBarrier(w.rtias[j], e);
    TickRaisesBarrier(w, j, e.date, false, steps);
    var w' := After(Next(w, TickAt(j)), steps);
    RtiaOf(w', j);
    DeliveryRaisesBarrier(w'.rtias[j], later);
    assert later in w'.rtias[j].tsos;
  }

  // ---- The minimum next event time ----

  // In no step of the run does j learn of a regulator dated before `b`.
  ghost predicate LearnsAbove(w: World, steps: seq<Step>, j: Handle, b: Time)
    requires IsRun(w, steps)
    decreases |steps|
  {
    steps == [] || (ReadsAbove(w, steps[0], j, b, false) && LearnsAbove(Next(w, steps[0]), steps[1..], j, b))
  }

  lemma {:induction false} RunKeepsFloor(w: World, steps: seq<Step>, j: Handle, b: Time)
    requires Invariant(w) && IsRun(w, steps) && LearnsAbove(w, steps, j, b)
    requires j in w.rtias && Floor(w.rtias[j], b, false)
    ensures j in After(w, steps).rtias && Floor(After(w, steps).rtias[j], b, false)
    decreases |steps|
  {
    hide Invariant, Floor;
    if steps != [] {
      StepKeepsInvariant(w, steps[0]);
      StepKeepsFloor(w, steps[0], j, b, false);
      RunKeepsFloor(Next(w, steps[0]), steps[1..], j, b);
    }
  }

  // The minimum next event time bounds every later delivery in time stamp order.
  lemma MinNextEventTimeBounds(w: World, j: Handle, steps: seq<Step>, later: Event)
    requires Reachable(w) && j in w.rtias && w.rtias[j].constrained
    requires IsRun(w, steps) && LearnsAbove(w, steps, j, MinNextEventTime(w.rtias[j]))
    requires Delivers(After(w, steps), j, later)
    ensures MinNextEventTime(w.rtias[j]).Le(later.date)
  {
    hide Tick, Invariant, Reachable, IsRun, After, MinNextEventTime, LearnsAbove;
    ReachableInvariant(w);
    RtiaOf(w, j);
    MinNextEventTimeIsFloor(w.rtias[j]);
    RunKeepsInvariant(w, steps);
    RunKeepsFloor(w, steps, j, MinNextEventTime(w.rtias[j]));
    var w' := After(w, steps);
    RtiaOf(w', j);
    DeliveryRaisesBarrier(w'.rtias[j], later);
    assert later in w'.rtias[j].tsos;
  }

  lemma MinNextEventTimeIsFloor(s: Rtia)
    requires Consistent(s) && s.constrained
    ensures Floor(s, MinNextEventTime(s), false)
  {
    forall e | e in s.tsos ensures MinNextEventTime(s).Le(e.date) {
      var k :| 0 <= k < |s.tsos| && s.tsos[k] == e;
      assert s.tsos[0].date.Le(s.tsos[k].date);
    }
  }
}
