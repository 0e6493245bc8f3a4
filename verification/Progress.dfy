/** The federation never stalls: with every federate waiting and nothing in flight, a tick of the one
    that promised least moves it on, and only so many null messages lead to any date.
 */
module Progress {
  import opened FederationTime
  import opened Messages
  import opened TimeState
  import opened RtigState
  import opened World
  import opened CausalSafety
  import opened WorldInvariant
  import opened Guarantees
  import opened Promises
  import opened TimeLaws

  // ---- Promises come in time ----

  // The federate holds back no promise: it has sent the last it made, and a pending advance is promised, and
  // more than promised if it must lie below the others' clocks.
  ghost predicate Timely(promise: Option<Time>, s: Rtia) {
    && ZERO.Le(s.now)
    && (promise.None? ==> s.lastNull == ZERO)
    && (promise.Some? ==>
          && s.lastNull.Le(promise.value)
          && (s.advance == TAR ==> s.date.Lt(promise.value) || promise.value == Infinity)
          && (s.advance == TARA ==> s.date.Le(promise.value)))
  }

  lemma PromiseIsTimely(s: Rtia, promise: Option<Time>, t: Time)
    requires promise.Some? == s.regulating && Timely(promise, s.(advance := Idle))
    ensures var after := ClockAfter(promise, PromiseSent(s, t), s.me);
      && after.Some? == s.regulating
      && (s.regulating ==> t.Plus(s.lookahead).Le(after.value) && promise.value.Le(after.value))
      && Timely(after, AfterPromise(s, t).(advance := Idle))
  {
    if PromiseSent(s, t) != [] {
      assert PromiseSent(s, t)[1..] == [];
    }
  }

  lemma RequestIsTimely(s: Rtia, advance: Advance, date: Time, promise: Option<Time>)
    requires Consistent(s) && advance != NERA && promise.Some? == s.regulating && Timely(promise, s)
    ensures var o := Local(s, Request(s.me, advance, date)); Timely(ClockAfter(promise, o.sent, s.me), o.rtia)
  {
    if RequestError(s, date) == NoError {
      PromiseIsTimely(if advance == TAR then WithSomeLookahead(s) else s.(kind := AfterTaraOrNera), promise, date);
    }
  }

  // What the tick of a pending next event request promises.
  ghost function NextPromise(s: Rtia): Time {
    if !s.constrained then s.date else if TargetReached(s, Target(s)) then Target(s) else s.Lbts()
  }

  lemma NextEventShape(s: Rtia)
    requires Consistent(s) && s.advance == NER
    ensures var o := NextEventAdvance(s);
      && o.sent == PromiseSent(s, NextPromise(s))
      && o.rtia.lastNull == AfterPromise(s, NextPromise(s)).lastNull
      && o.rtia.regulating == s.regulating && s.now.Le(o.rtia.now)
      && (o.rtia.advance == Idle || o.rtia.advance == NER)
  {
    TargetIsAhead(s);
    NextEventPromises(s);
    NextEventForms(s);
    hide NextEventAdvance, TargetReached, Consistent, Rtia.Lbts;
  }

  lemma NextEventPromises(s: Rtia)
    ensures var o := NextEventAdvance(s);
      o.sent == PromiseSent(s, NextPromise(s)) && o.rtia.lastNull == AfterPromise(s, NextPromise(s)).lastNull
  {
    hide Rtia.Lbts;
  }

  lemma TimeAdvanceShape(s: Rtia)
    requires Consistent(s) && (s.advance == TAR || s.advance == TARA)
    ensures var o := TimeAdvance(s);
      && o.sent == [] && o.rtia.lastNull == s.lastNull && s.now.Le(o.rtia.now)
      && (o.rtia.advance == Idle ||
          (o.rtia.advance == s.advance && o.rtia.date == s.date))
  {
  }

  lemma TickIsTimely(s: Rtia, promise: Option<Time>)
    requires Consistent(s) && promise.Some? == s.regulating && Timely(promise, s)
    ensures Timely(ClockAfter(promise, Tick(s).sent, s.me), Tick(s).rtia)
  {
    hide TimeAdvance, NextEventAdvance, Consistent, ClockAfter, NextPromise, PromiseSent;
    assert ClockAfter(promise, [], s.me) == promise by { NothingHeard(promise, s.me); }
    if s.advance == NER {
      NextEventShape(s);
      PromiseIsTimely(s, promise, NextPromise(s));
    } else if s.advance == TAR || s.advance == TARA {
      TimeAdvanceShape(s);
    } else {
      assert s.advance != NERA by { NeverNera(s); }
    }
  }

  lemma NothingHeard(promise: Option<Time>, me: Handle)
    ensures ClockAfter(promise, [], me) == promise
  {
  }

  lemma NeverNera(s: Rtia)
    requires Consistent(s)
    ensures s.advance != NERA
  {
  }

  lemma SwitchIsTimely(s: Rtia, e: Step, promise: Option<Time>)
    requires IsLocal(e) && !e.Request? && !e.TickAt? && !e.DisableRegulation? && e.h == s.me
    requires Consistent(s) && Disciplined(s, e) && promise.Some? == s.regulating && Timely(promise, s)
    ensures var o := Local(s, e); Timely(ClockAfter(promise, o.sent, s.me), o.rtia)
  {
    var sent := Local(s, e).sent;
    if sent != [] {
      assert sent == [sent[0]];
      OneHeard(promise, sent[0], s.me);
    }
  }

  lemma LocalIsTimely(s: Rtia, e: Step, promise: Option<Time>)
    requires IsLocal(e) && !e.DisableRegulation? && e.h == s.me
    requires Consistent(s) && Disciplined(s, e) && Covers(promise, s) && Timely(promise, s)
    ensures var o := Local(s, e); Timely(ClockAfter(promise, o.sent, s.me), o.rtia)
  {
    hide Local, Timely, Consistent, ClockAfter;
    if e.TickAt? {
      TickIsTimely(s, promise);
      TickIsLocal(s, e);
    } else if e.Request? {
      RequestIsLocal(s, e);
      if e.advance != NERA {
        RequestIsTimely(s, e.advance, e.date, promise);
      } else {
        NothingHeard(promise, s.me);
      }
    } else {
      SwitchIsTimely(s, e, promise);
    }
  }

  lemma RequestIsLocal(s: Rtia, e: Step)
    requires e.Request? && Disciplined(s, e)
    ensures e.advance == NERA ==> Local(s, e) == Quiet(s)
    ensures e.h == s.me ==> e == Request(s.me, e.advance, e.date)
  {
  }

  // ---- Over runs in which no federate stops regulating ----

  ghost predicate AllTimely(w: World) {
    forall h :: h in w.rtias ==> Timely(Promise(w, h), w.rtias[h])
  }

  lemma ReceiveIsTimely(s: Rtia, m: Message, promise: Option<Time>)
    requires Receive(s, m).Some? && Timely(promise, s)
    ensures Timely(promise, Receive(s, m).value)
  {
  }

  lemma RtiaReadIsTimely(w: World, h: Handle)
    requires Invariant(w) && AllTimely(w) && h in w.rtias && w.down[h] != []
    requires RegulatorInTime(w.rtias[h], w.down[h][0])
    ensures AllTimely(RtiaRead(w, h))
  {
    hide Invariant, Timely, Receive, Promise;
    InvariantKeys(w);
    var w' := RtiaRead(w, h);
    ReadNeverThrows(w, h);
    ReceiveIsTimely(w.rtias[h], w.down[h][0], Promise(w, h));
    forall k | k in w'.rtias ensures Timely(Promise(w', k), w'.rtias[k]) {
      OtherStepsKeepPromise(w, RtiaReads(h), k);
      assert Timely(Promise(w, k), w.rtias[k]);
    }
  }

  lemma JoinIsTimely(w: World, h: Handle)
    requires Invariant(w) && AllTimely(w) && Allowed(w, Join(h))
    ensures AllTimely(Joined(w, h))
  {
    hide UpOk, LinkOk, DownOk, Timely, Promise, Initial;
    var w' := Joined(w, h);
    JoinShape(w, h);
    NewcomerIsTimely(w, h);
    forall k | k in w'.rtias ensures Timely(Promise(w', k), w'.rtias[k]) {
      OtherStepsKeepPromise(w, Join(h), k);
    }
  }

  lemma NewcomerIsTimely(w: World, h: Handle)
    requires FlagsOk(w.rtig) && h !in w.rtig.members
    ensures Timely(Promise(Joined(w, h), h), Joined(w, h).rtias[h])
  {
  }

  lemma LocalStepIsTimely(w: World, e: Step)
    requires Invariant(w) && AllTimely(w) && Allowed(w, e) && IsLocal(e) && !e.DisableRegulation?
    ensures AllTimely(Next(w, e))
  {
    hide Invariant, Timely, Promise, Local, Consistent;
    InvariantKeys(w);
    var w' := Next(w, e);
    forall k | k in w'.rtias ensures Timely(Promise(w', k), w'.rtias[k]) {
      LocalMovesPromise(w, e, k);
      if k == e.h {
        PromiseCovers(w, k);
        assert Timely(Promise(w, k), w.rtias[k]);
        LocalIsTimely(w.rtias[k], e, Promise(w, k));
      } else {
        NothingHeard(Promise(w, k), k);
      }
    }
  }

  lemma PromiseCovers(w: World, h: Handle)
    requires Invariant(w) && h in w.rtias
    ensures Consistent(w.rtias[h]) && w.rtias[h].me == h && Covers(Promise(w, h), w.rtias[h])
  {
    assert UpOk(w, h);
  }

  lemma StepIsTimely(w: World, e: Step)
    requires Invariant(w) && AllTimely(w) && Allowed(w, e) && !e.DisableRegulation?
    ensures AllTimely(Next(w, e))
  {
    hide Invariant, Timely, Promise, Local, Receive, Process, Initial, Add, RtiaRead, Joined;
    InvariantKeys(w);
    if IsLocal(e) {
      LocalStepIsTimely(w, e);
    } else if e.RtiaReads? {
      RtiaReadIsTimely(w, e.h);
    } else if e.Join? {
      JoinIsTimely(w, e.h);
    } else {
      forall k | k in w.rtias ensures Timely(Promise(Next(w, e), k), w.rtias[k]) {
        OtherStepsKeepPromise(w, e, k);
      }
    }
  }

  predicate NoDisabling(steps: seq<Step>) {
    forall i :: 0 <= i < |steps| ==> !steps[i].DisableRegulation?
  }

  lemma {:induction false} RunIsTimely(w: World, steps: seq<Step>)
    requires Invariant(w) && AllTimely(w) && IsRun(w, steps) && NoDisabling(steps)
    ensures Invariant(After(w, steps)) && AllTimely(After(w, steps))
    decreases |steps|
  {
    hide Invariant, AllTimely;
    if steps != [] {
      StepKeepsInvariant(w, steps[0]);
      StepIsTimely(w, steps[0]);
      assert NoDisabling(steps[1..]);
      RunIsTimely(Next(w, steps[0]), steps[1..]);
    }
  }

  // ---- No deadlock ----

  // A federate that waits for an advance.
  predicate Waits(s: Rtia) {
    s.regulating && s.constrained && s.advance != Idle && s.lookahead > 0.0
  }

  // Everyone regulates, is constrained and waits for an advance, and nothing is in flight.
  ghost predicate AllWaiting(w: World) {
    forall h :: h in w.rtias ==>
      && Waits(w.rtias[h])
      && h in w.up && w.up[h] == [] && h in w.down && w.down[h] == []
  }

  ghost predicate PromisedLeast(w: World, i: Handle) {
    && i in w.rtias && Promise(w, i).Some? && Promise(w, i).value.At?
    && forall k :: k in w.rtias ==> Promise(w, k).Some? && Promise(w, i).value.Le(Promise(w, k).value)
  }

  // The tick of a federate whose LBTS reaches its own promise.
  lemma TickActs(s: Rtia, promise: Time)
    requires Consistent(s) && s.regulating && s.constrained && s.advance != Idle && s.lookahead > 0.0
    requires Timely(Some(promise), s) && promise.At? && promise.Le(s.Lbts())
    ensures var o := Tick(s);
      o.told != [] || (s.advance == NER && o.sent == [Null(s.me, s.Lbts().Plus(s.lookahead))] && o.rtia.advance == NER)
  {
    hide Consistent;
    NeverNera(s);
  }

  lemma LbtsOfLeast(w: World, i: Handle)
    requires Invariant(w) && AllWaiting(w) && PromisedLeast(w, i)
    ensures Promise(w, i).value.Le(w.rtias[i].Lbts())
  {
    hide UpOk, DownOk, Consistent;
    var s := w.rtias[i];
    PromiseCovers(w, i);
    forall k | k in s.clocks && k != i ensures Promise(w, i).value.Le(s.clocks[k]) {
      assert LinkOk(w, k, i);
      assert Get(s.clocks, k) == Get(w.rtig.regulators, k);
      assert k in w.rtig.members && k in w.rtias;
      assert Promise(w, k) == Get(w.rtig.regulators, k);
    }
  }

  // When all wait, a tick of the federate that promised least tells it something (a command, a
  // message or the grant) or sends a promise that lies higher by at least its lookahead.
  lemma NoDeadlock(steps: seq<Step>, i: Handle)
    requires IsRun(EMPTY, steps) && NoDisabling(steps)
    requires AllWaiting(After(EMPTY, steps)) && PromisedLeast(After(EMPTY, steps), i)
    ensures var w := After(EMPTY, steps); var o := Tick(w.rtias[i]);
      o.told != [] ||
      (|o.sent| == 1 && o.sent[0].Null? && o.sent[0].src == i
       && Promise(w, i).value.Plus(w.rtias[i].lookahead).Le(o.sent[0].date))
  {
    assert Invariant(EMPTY);
    hide Invariant, AllWaiting, Tick, Timely, Consistent;
    var w := After(EMPTY, steps);
    RunIsTimely(EMPTY, steps);
    LeastActs(w, i);
  }

  lemma LeastActs(w: World, i: Handle)
    requires Invariant(w) && AllTimely(w) && AllWaiting(w) && PromisedLeast(w, i)
    ensures var o := Tick(w.rtias[i]);
      o.told != [] ||
      (o.sent == [Null(i, w.rtias[i].Lbts().Plus(w.rtias[i].lookahead))] && o.rtia.advance == NER
       && Promise(w, i).value.Plus(w.rtias[i].lookahead).Le(w.rtias[i].Lbts().Plus(w.rtias[i].lookahead)))
  {
    hide Invariant, Tick, Consistent;
    LbtsOfLeast(w, i);
    PromiseCovers(w, i);
    TickActs(w.rtias[i], Promise(w, i).value);
  }

  // ---- How many null messages it takes ----

  predicate OnlyReads(steps: seq<Step>) {
    forall i :: 0 <= i < |steps| ==> steps[i].RtigReads? || steps[i].RtiaReads?
  }

  // One round of null messages: the federate that promised least ticks and is told nothing, and what
  // it sends is read until nothing is in flight.
  ghost predicate IsRound(w: World, w': World, i: Handle, flush: seq<Step>) {
    && AllWaiting(w) && PromisedLeast(w, i) && AllWaiting(w')
    && Tick(w.rtias[i]).told == []
    && OnlyReads(flush)
    && IsRun(w, [TickAt(i)] + flush) && After(w, [TickAt(i)] + flush) == w'
  }

  // All ask for the same dates with the same lookaheads.
  ghost predicate SameRequests(w: World, w': World) {
    && w'.rtias.Keys == w.rtias.Keys
    && forall h :: h in w.rtias ==>
         w'.rtias[h].lookahead == w.rtias[h].lookahead && w'.rtias[h].date == w.rtias[h].date
  }

  lemma ReceiveKeepsRequest(s: Rtia, m: Message)
    requires Receive(s, m).Some?
    ensures Receive(s, m).value.lookahead == s.lookahead && Receive(s, m).value.date == s.date
  {
  }

  lemma RtiaReadKeepsRequests(w: World, h: Handle)
    requires h in w.rtias && h in w.down && w.down[h] != []
    ensures SameRequests(w, RtiaRead(w, h))
  {
    hide Receive;
    if Receive(w.rtias[h], w.down[h][0]).Some? {
      ReceiveKeepsRequest(w.rtias[h], w.down[h][0]);
    }
  }

  lemma RtigReadKeepsRequests(w: World, h: Handle, subscribers: set<Handle>)
    requires h in w.up && w.up[h] != []
    ensures SameRequests(w, RtigRead(w, h, subscribers))
  {
    hide Process, For;
  }

  lemma ReadKeepsRequests(w: World, e: Step)
    requires Invariant(w) && Allowed(w, e) && (e.RtigReads? || e.RtiaReads?)
    ensures SameRequests(w, Next(w, e))
  {
    hide Invariant, RtigRead, RtiaRead, SameRequests;
    if e.RtiaReads? {
      RtiaReadKeepsRequests(w, e.h);
    } else {
      RtigReadKeepsRequests(w, e.h, e.subscribers);
    }
  }

  lemma {:induction false} ReadsKeepPromises(w: World, flush: seq<Step>)
    requires Invariant(w) && AllTimely(w) && IsRun(w, flush) && OnlyReads(flush)
    ensures var w' := After(w, flush);
      && Invariant(w') && AllTimely(w') && SameRequests(w, w')
      && forall h :: Promise(w', h) == Promise(w, h)
    decreases |flush|
  {
    hide Invariant, AllTimely, Promise, Next;
    if flush != [] {
      var w1 := Next(w, flush[0]);
      StepKeepsInvariant(w, flush[0]);
      StepIsTimely(w, flush[0]);
      ReadKeepsRequests(w, flush[0]);
      forall h ensures Promise(w1, h) == Promise(w, h) {
        OtherStepsKeepPromise(w, flush[0], h);
      }
      assert OnlyReads(flush[1..]);
      ReadsKeepPromises(w1, flush[1..]);
    }
  }

  // The promises after a round: that of `i` is higher by its lookahead at least, the others as they were.
  ghost predicate Raises(w: World, w': World, i: Handle) {
    && i in w.rtias && Promise(w, i).Some? && Promise(w', i).Some?
    && Promise(w, i).value.Plus(w.rtias[i].lookahead).Le(Promise(w', i).value)
    && (forall h :: h != i ==> Promise(w', h) == Promise(w, h))
    && SameRequests(w, w')
  }

  lemma QuietTickKeepsRequest(s: Rtia)
    requires Tick(s).told == []
    ensures Tick(s).rtia.lookahead == s.lookahead && Tick(s).rtia.date == s.date
  {
    hide Rtia.Lbts;
  }

  lemma TickMoves(w: World, i: Handle, h: Handle)
    requires Invariant(w) && Allowed(w, TickAt(i))
    ensures Next(w, TickAt(i)).rtias == w.rtias[i := Tick(w.rtias[i]).rtia]
    ensures Promise(Next(w, TickAt(i)), h)
         == if h == i then ClockAfter(Promise(w, h), Tick(w.rtias[i]).sent, i) else Promise(w, h)
  {
    hide Tick, Invariant, Promise, Disciplined;
    LocalMovesPromise(w, TickAt(i), h);
    NothingHeard(Promise(w, h), h);
  }

  lemma TickRaises(w: World, i: Handle)
    requires Invariant(w) && AllTimely(w) && AllWaiting(w) && PromisedLeast(w, i) && Allowed(w, TickAt(i))
    requires Tick(w.rtias[i]).told == []
    ensures Raises(w, Next(w, TickAt(i)), i)
  {
    LeastRaises(w, i);
    QuietTickKeepsRequest(w.rtias[i]);
    hide *;
    forall h {
      TickMoves(w, i, h);
    }
    assert SameRequests(w, Next(w, TickAt(i))) by { TickKeepsRequests(w, i); }
    RaisesIf(w, Next(w, TickAt(i)), i);
  }

  lemma RaisesIf(w: World, w': World, i: Handle)
    requires SameRequests(w, w') && i in w.rtias && Promise(w, i).Some? && Promise(w', i).Some?
    requires Promise(w, i).value.Plus(w.rtias[i].lookahead).Le(Promise(w', i).value)
    requires forall h :: h != i ==> Promise(w', h) == Promise(w, h)
    ensures Raises(w, w', i)
  {
  }

  lemma TickKeepsRequests(w: World, i: Handle)
    requires Invariant(w) && Allowed(w, TickAt(i)) && Tick(w.rtias[i]).rtia.lookahead == w.rtias[i].lookahead
    requires Tick(w.rtias[i]).rtia.date == w.rtias[i].date
    ensures SameRequests(w, Next(w, TickAt(i)))
  {
    hide Tick, Invariant, Promise, Disciplined;
    TickMoves(w, i, i);
  }

  lemma LeastRaises(w: World, i: Handle)
    requires Invariant(w) && AllTimely(w) && AllWaiting(w) && PromisedLeast(w, i)
    requires Tick(w.rtias[i]).told == []
    ensures var raised := ClockAfter(Promise(w, i), Tick(w.rtias[i]).sent, i);
      Promise(w, i).Some? && raised.Some? && Promise(w, i).value.Plus(w.rtias[i].lookahead).Le(raised.value)
  {
    LeastActs(w, i);
    PromiseSome(w, i);
    hide *;
    NullRaises(Promise(w, i).value, Tick(w.rtias[i]).sent[0].date, w.rtias[i].lookahead, i);
  }

  lemma NullRaises(promise: Time, date: Time, lookahead: real, h: Handle)
    requires promise.Plus(lookahead).Le(date)
    ensures var raised := ClockAfter(Some(promise), [Null(h, date)], h);
      raised.Some? && promise.Plus(lookahead).Le(raised.value)
  {
    OneHeard(Some(promise), Null(h, date), h);
  }

  lemma PromiseSome(w: World, i: Handle)
    requires PromisedLeast(w, i)
    ensures Promise(w, i).Some?
  {
  }

  lemma RoundRaises(w: World, w': World, i: Handle, flush: seq<Step>)
    requires Invariant(w) && AllTimely(w) && IsRound(w, w', i, flush)
    ensures Invariant(w') && AllTimely(w') && Raises(w, w', i)
  {
    hide Invariant, AllTimely, AllWaiting, Promise, Tick, PromisedLeast;
    var steps := [TickAt(i)] + flush;
    assert steps[1..] == flush;
    StepKeepsInvariant(w, TickAt(i));
    StepIsTimely(w, TickAt(i));
    TickRaises(w, i);
    ReadsKeepPromises(Next(w, TickAt(i)), flush);
  }

  // The raises by `lookahead` that lift a promise to `goal` or beyond.
  ghost function Needed(promise: Option<Time>, lookahead: real, goal: real): nat
    requires lookahead > 0.0
  {
    if promise.Some? && promise.value.At? && promise.value.t < goal then
      QuotientIsPositive(goal - promise.value.t, lookahead);
      ((goal - promise.value.t) / lookahead).Floor + 1
    else 0
  }

  lemma QuotientIsPositive(a: real, c: real)
    requires a > 0.0 && c > 0.0
    ensures a / c >= 0.0
  {
    assert a / c * c == a;
  }

  lemma QuotientDrops(a: real, b: real, c: real)
    requires c > 0.0 && b <= a - c
    ensures b / c <= a / c - 1.0
  {
    assert (a / c - 1.0) * c == a - c && b / c * c == b;
    CancelFactor(b / c, a / c - 1.0, c);
  }

  lemma CancelFactor(x: real, y: real, c: real)
    requires c > 0.0 && x * c <= y * c
    ensures x <= y
  {
    assert (x - y) * c <= 0.0;
  }

  lemma RaiseIsNeeded(promise: Time, raised: Time, lookahead: real, goal: real)
    requires lookahead > 0.0 && promise.At? && promise.t < goal && promise.Plus(lookahead).Le(raised)
    ensures Needed(Some(raised), lookahead, goal) < Needed(Some(promise), lookahead, goal)
  {
    QuotientIsPositive(goal - promise.t, lookahead);
    if raised.At? {
      QuotientDrops(goal - promise.t, goal - raised.t, lookahead);
    }
  }

  ghost predicate PositiveLookaheads(w: World) {
    forall h :: h in w.rtias ==> w.rtias[h].lookahead > 0.0
  }

  // The raises all of `who` need together.
  ghost function Budget(w: World, who: set<Handle>, goal: real): nat
    requires who <= w.rtias.Keys && PositiveLookaheads(w)
  {
    if who == {} then 0 else
      var h :| h in who;
      Needed(Promise(w, h), w.rtias[h].lookahead, goal) + Budget(w, who - {h}, goal)
  }

  lemma {:induction false} BudgetSplits(w: World, who: set<Handle>, h: Handle, goal: real)
    requires who <= w.rtias.Keys && PositiveLookaheads(w) && h in who
    ensures Budget(w, who, goal) == Needed(Promise(w, h), w.rtias[h].lookahead, goal) + Budget(w, who - {h}, goal)
  {
    hide Needed, Promise;
    var k :| k in who
      && Budget(w, who, goal) == Needed(Promise(w, k), w.rtias[k].lookahead, goal) + Budget(w, who - {k}, goal);
    if k != h {
      BudgetSplits(w, who - {k}, h, goal);
      BudgetSplits(w, who - {h}, k, goal);
      assert who - {k} - {h} == who - {h} - {k};
    }
  }

  lemma {:induction false} BudgetFrame(w: World, w': World, who: set<Handle>, goal: real)
    requires who <= w.rtias.Keys && PositiveLookaheads(w) && PositiveLookaheads(w') && SameRequests(w, w')
    requires forall h :: h in who ==> Promise(w', h) == Promise(w, h)
    ensures Budget(w', who, goal) == Budget(w, who, goal)
  {
    hide Needed, Promise;
    if who != {} {
      var h :| h in who;
      BudgetSplits(w, who, h, goal);
      BudgetSplits(w', who, h, goal);
      BudgetFrame(w, w', who - {h}, goal);
    }
  }

  lemma RaiseSpendsBudget(w: World, w': World, i: Handle, goal: real)
    requires Raises(w, w', i) && PositiveLookaheads(w) && PositiveLookaheads(w')
    requires Promise(w, i).value.At? && Promise(w, i).value.t < goal
    ensures Budget(w', w'.rtias.Keys, goal) < Budget(w, w.rtias.Keys, goal)
  {
    hide Needed, Promise, Budget;
    BudgetSplits(w, w.rtias.Keys, i, goal);
    BudgetSplits(w', w.rtias.Keys, i, goal);
    BudgetFrame(w, w', w.rtias.Keys - {i}, goal);
    RaiseIsNeeded(Promise(w, i).value, Promise(w', i).value, w.rtias[i].lookahead, goal);
  }

  // Rounds, each started while the least promise is still below `goal`.
  ghost predicate AreRounds(worlds: seq<World>, movers: seq<Handle>, flushes: seq<seq<Step>>, goal: real) {
    && |worlds| == |movers| + 1 && |flushes| == |movers|
    && forall n :: 0 <= n < |movers| ==>
         && IsRound(worlds[n], worlds[n + 1], movers[n], flushes[n])
         && Promise(worlds[n], movers[n]).value.t < goal
  }

  lemma WaitingLookaheads(w: World)
    requires AllWaiting(w)
    ensures PositiveLookaheads(w)
  {
  }

  lemma {:induction false} RoundsSpendBudget(worlds: seq<World>, movers: seq<Handle>, flushes: seq<seq<Step>>,
                                             goal: real)
    requires AreRounds(worlds, movers, flushes, goal)
    requires Invariant(worlds[0]) && AllTimely(worlds[0]) && PositiveLookaheads(worlds[0])
    ensures |movers| <= Budget(worlds[0], worlds[0].rtias.Keys, goal)
    decreases |movers|
  {
    hide Invariant, AllTimely, Raises, Budget, PositiveLookaheads;
    if movers != [] {
      var w, w', i := worlds[0], worlds[1], movers[0];
      RoundRaises(w, w', i, flushes[0]);
      WaitingLookaheads(w');
      RaiseSpendsBudget(w, w', i, goal);
      RoundsSpendBudget(worlds[1..], movers[1..], flushes[1..], goal);
    }
  }

  // However the federation came to wait, the rounds of null messages that start below `goal` are
  // bounded by what the promises of all federates lack, measured in lookaheads.
  lemma NullMessagesAreBounded(steps: seq<Step>, worlds: seq<World>, movers: seq<Handle>, flushes: seq<seq<Step>>,
                               goal: real)
    requires IsRun(EMPTY, steps) && NoDisabling(steps)
    requires AreRounds(worlds, movers, flushes, goal) && worlds[0] == After(EMPTY, steps)
    requires AllWaiting(worlds[0])
    ensures PositiveLookaheads(worlds[0]) && |movers| <= Budget(worlds[0], worlds[0].rtias.Keys, goal)
  {
    assert Invariant(EMPTY);
    hide Invariant, AllTimely, AreRounds;
    RunIsTimely(EMPTY, steps);
    WaitingLookaheads(worlds[0]);
    RoundsSpendBudget(worlds, movers, flushes, goal);
  }
}
