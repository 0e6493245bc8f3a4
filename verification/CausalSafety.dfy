/** No event reaches a constrained federate below the least clock it holds.

    For each federate i and each receiver j the invariant follows the promises of i from the
    federate to the RTIG and on to j: whatever the clock says at one point of a stream,
    every event of i further back in that stream is dated no earlier.
 */
module CausalSafety {
  import opened FederationTime
  import opened Lbts
  import opened Messages
  import opened Queues
  import opened TimeState
  import opened World

  // ---- One clock along one stream ----

  // The clock of `src` after message `m`.
  function Heard(clock: Option<Time>, m: Message, src: Handle): Option<Time> {
    match m
    case Null(h, date) => if h == src && clock.Some? then Some(Advanced(clock.value, date)) else clock
    case RegulatorOn(h, date) => if h == src then Some(date) else clock
    case RegulatorOff(h) => if h == src then None else clock
    case _ => clock
  }

  function ClockAfter(clock: Option<Time>, stream: seq<Message>, src: Handle): Option<Time>
    decreases |stream|
  {
    if stream == [] then clock else ClockAfter(Heard(clock, stream[0], src), stream[1..], src)
  }

  // Whether `m` may follow a point at which the clock of `src` is `clock`.
  predicate Fits(clock: Option<Time>, m: Message, src: Handle) {
    match m
    case Null(h, _) => h == src ==> clock.Some?
    case RegulatorOn(h, _) => h == src ==> clock.None?
    case RegulatorOff(h) => h == src ==> clock.Some?
    case Timed(event) => event.src == src ==> clock.Some? && clock.value.Le(event.date)
    case _ => true
  }

  predicate Honest(clock: Option<Time>, stream: seq<Message>, src: Handle)
    decreases |stream|
  {
    stream == [] || (Fits(clock, stream[0], src) && Honest(Heard(clock, stream[0], src), stream[1..], src))
  }

  lemma {:induction false} HonestConcat(clock: Option<Time>, a: seq<Message>, b: seq<Message>, src: Handle)
    ensures ClockAfter(clock, a + b, src) == ClockAfter(ClockAfter(clock, a, src), b, src)
    ensures Honest(clock, a + b, src) <==> Honest(clock, a, src) && Honest(ClockAfter(clock, a, src), b, src)
    decreases |a|
  {
    if a == [] {
      assert a + b == b;
    } else {
      assert (a + b)[1..] == a[1..] + b && (a + b)[0] == a[0];
      HonestConcat(Heard(clock, a[0], src), a[1..], b, src);
    }
  }

  predicate About(m: Message, src: Handle) {
    match m
    case Null(h, _) => h == src
    case RegulatorOn(h, _) => h == src
    case RegulatorOff(h) => h == src
    case Timed(event) => event.src == src
    case _ => false
  }

  // A stream that never mentions `src` tells nothing of its clock.
  lemma {:induction false} HonestSilence(clock: Option<Time>, stream: seq<Message>, src: Handle)
    requires forall m :: m in stream ==> !About(m, src)
    ensures ClockAfter(clock, stream, src) == clock && Honest(clock, stream, src)
    decreases |stream|
  {
    if stream != [] {
      assert stream[0] in stream;
      HonestSilence(clock, stream[1..], src);
    }
  }

  // ---- What a federate may still send ----

  // A lower bound on the date of every event the federate may send from now on.
  ghost function Horizon(s: Rtia): Time {
    var base := if s.advance == Idle then s.now
                else if (s.advance == NER || s.advance == NERA) && s.constrained then
                  Min(s.date, Min(s.FirstTso(), s.Lbts()))
                else s.date;
    base.Plus(if s.kind == AfterTarOrNerZeroLookahead then EPSILON2 else s.lookahead)
  }

  ghost predicate Consistent(s: Rtia) {
    && Sorted(s.tsos)
    && (if s.constrained then
          s.now.Le(s.Lbts()) && forall e :: e in s.tsos ==> s.now.Le(e.date)
        else s.tsos == [])
    && s.now.Le(Goal(s))
    && s.advance != NERA
    && (s.regulating ==>
          0.0 <= s.lookahead &&
          if s.kind == AfterTarOrNerZeroLookahead then s.lookahead == (if s.advance == Idle then 0.0 else EPSILON2)
          else s.lookahead != EPSILON2)
  }

  // `promise` is what the federate last promised; it has one exactly while it regulates.
  ghost predicate Covers(promise: Option<Time>, s: Rtia) {
    && promise.Some? == s.regulating
    && (promise.Some? ==> promise.value.Le(Horizon(s)))
  }

  predicate SpokenBy(m: Message, h: Handle) {
    match m
    case Null(src, _) => src == h
    case RegulatorOn(src, _) => src == h
    case RegulatorOff(src) => src == h
    case Constraining(src, _) => src == h
    case Timed(event) => event.src == h
    case Plain(src, _) => src == h
    case _ => false
  }

  // ---- Steps of one RTIA ----

  // An outcome that keeps promises: it follows any promise that covers the state before.
  ghost predicate KeepsWord(s: Rtia, o: Outcome) {
    && Consistent(o.rtia)
    && o.rtia.me == s.me && o.rtia.clocks == s.clocks
    && (forall m :: m in o.sent ==> SpokenBy(m, s.me))
    && (forall p :: Covers(p, s) ==>
          Honest(p, o.sent, s.me) && Covers(ClockAfter(p, o.sent, s.me), o.rtia))
  }

  // Making a promise for `t` is safe when nothing below `t` plus the lookahead can be sent.
  lemma PromiseKeepsWord(s: Rtia, s1: Rtia, t: Time)
    requires s1.regulating == s.regulating && s1.me == s.me
    requires s.regulating ==> Horizon(s).Le(Horizon(s1)) && t.Plus(s1.lookahead).Le(Horizon(s1))
    ensures forall m :: m in PromiseSent(s1, t) ==> SpokenBy(m, s.me)
    ensures forall p :: Covers(p, s) ==>
      Honest(p, PromiseSent(s1, t), s.me) && Covers(ClockAfter(p, PromiseSent(s1, t), s.me), s1)
  {
    forall p | Covers(p, s)
      ensures Honest(p, PromiseSent(s1, t), s.me) && Covers(ClockAfter(p, PromiseSent(s1, t), s.me), s1)
    {
      OnePromise(p, s, s1, t);
    }
  }

  lemma OnePromise(p: Option<Time>, s: Rtia, s1: Rtia, t: Time)
    requires s1.regulating == s.regulating && s1.me == s.me && Covers(p, s)
    requires s.regulating ==> Horizon(s).Le(Horizon(s1)) && t.Plus(s1.lookahead).Le(Horizon(s1))
    ensures Honest(p, PromiseSent(s1, t), s.me) && Covers(ClockAfter(p, PromiseSent(s1, t), s.me), s1)
  {
    hide Horizon;
    var sent := PromiseSent(s1, t);
    if sent != [] {
      assert sent[1..] == [];
    }
  }

  // A request that pends as `s1`, with its promise.
  lemma RequestIsPromised(s: Rtia, s0: Rtia, s1: Rtia, o: Outcome, date: Time)
    requires Consistent(s1) && s1.regulating == s.regulating && s1.me == s.me && s1.clocks == s.clocks
    requires s1 == s0.(advance := s1.advance, date := s1.date)
    requires o.rtia == AfterPromise(s0, date).(advance := s1.advance, date := s1.date)
    requires o.sent == PromiseSent(s0, date)
    requires s.regulating ==> Horizon(s).Le(Horizon(s1)) && date.Plus(s1.lookahead).Le(Horizon(s1))
    ensures KeepsWord(s, o)
  {
    PromiseKeepsWord(s, s1, date);
    PromiseLeaves(s0, date);
    LastNullIsAside(s1, o.rtia);
    hide Horizon, Consistent, AfterPromise;
  }

  // The last null message has no part in what may be sent.
  lemma LastNullIsAside(s: Rtia, s': Rtia)
    requires s' == s.(lastNull := s'.lastNull)
    ensures Horizon(s') == Horizon(s) && (Consistent(s') <==> Consistent(s))
  {
  }

  lemma TimeAdvanceRequestKeepsWord(s: Rtia, date: Time)
    requires Consistent(s)
    ensures KeepsWord(s, TimeAdvanceRequest(s, date))
  {
    if RequestError(s, date) == NoError {
      var s1 := WithSomeLookahead(s).(advance := TAR, date := date);
      assert s.regulating ==> Horizon(s).Le(Horizon(s1)) && date.Plus(s1.lookahead).Le(Horizon(s1));
      RequestIsPromised(s, WithSomeLookahead(s), s1, TimeAdvanceRequest(s, date), date);
    }
  }

  lemma TimeAdvanceRequestAvailableKeepsWord(s: Rtia, date: Time)
    requires Consistent(s) && Disciplined(s, Request(s.me, TARA, date))
    ensures KeepsWord(s, TimeAdvanceRequestAvailable(s, date))
  {
    if RequestError(s, date) == NoError {
      var s1 := s.(kind := AfterTaraOrNera, advance := TARA, date := date);
      assert s.regulating ==> Horizon(s).Le(Horizon(s1)) && date.Plus(s1.lookahead).Le(Horizon(s1));
      RequestIsPromised(s, s.(kind := AfterTaraOrNera), s1, TimeAdvanceRequestAvailable(s, date), date);
    }
  }

  lemma NextEventRequestKeepsWord(s: Rtia, date: Time)
    requires Consistent(s)
    ensures KeepsWord(s, NextEventRequest(s, date))
  {
    if RequestError(s, date) == NoError {
      var s1 := NextEventRequest(s, date).rtia;
      assert Consistent(s1);
      assert s.regulating ==> Horizon(s).Le(Horizon(s1));
      hide Horizon, Consistent;
    }
  }

  lemma GrantIsCovered(s: Rtia)
    requires Consistent(s) && s.advance != Idle
    requires s.constrained ==> s.date.Le(s.Lbts()) && !Gives(s.tsos, s.date)
    ensures Consistent(AfterGrant(s, s.date))
    ensures s.regulating ==> Horizon(s).Le(Horizon(AfterGrant(s, s.date)))
  {
    forall e | e in s.tsos ensures s.date.Le(e.date) {
      var k :| 0 <= k < |s.tsos| && s.tsos[k] == e;
      assert s.tsos[0].date.Le(e.date);
    }
  }

  lemma DeliveryIsCovered(s: Rtia, bound: Time)
    requires Consistent(s) && Gives(s.tsos, bound)
    ensures Consistent(Deliver(s, bound).rtia)
    ensures s.regulating ==> Horizon(s).Le(Horizon(Deliver(s, bound).rtia))
  {
    var rest := s.tsos[1..];
    if rest != [] {
      assert rest[0] == s.tsos[1] && s.tsos[0].date.Le(s.tsos[1].date);
    }
  }

  lemma TimeAdvanceKeepsWord(s: Rtia)
    requires Consistent(s) && (s.advance == TAR || s.advance == TARA)
    ensures KeepsWord(s, TimeAdvance(s))
  {
    var bound := Min(s.Lbts(), s.date);
    if s.constrained && Gives(s.tsos, bound) {
      DeliveryIsCovered(s, bound);
    } else if !s.constrained || TargetReached(s, s.date) {
      GrantIsCovered(s);
    }
  }

  // A step that promises `t` in state `s1` and then moves on to `s2` without sending.
  lemma PromiseThenMove(s: Rtia, s1: Rtia, t: Time, o: Outcome)
    requires Consistent(o.rtia) && o.rtia.clocks == s.clocks && o.rtia.me == s1.me == s.me
    requires o.sent == PromiseSent(s1, t)
    requires o.rtia.regulating == s1.regulating == s.regulating
    requires s.regulating ==> Horizon(s).Le(Horizon(s1)) && t.Plus(s1.lookahead).Le(Horizon(s1))
    requires s.regulating ==> Horizon(s1).Le(Horizon(o.rtia))
    ensures KeepsWord(s, o)
  {
    PromiseKeepsWord(s, s1, t);
  }

  // Before the target is reached, no event below it can be sent.
  lemma TargetIsCovered(s: Rtia)
    requires Consistent(s) && s.advance == NER && s.constrained && Target(s).Le(s.Lbts())
    ensures Consistent(s.(date := Target(s)))
    ensures s.regulating ==>
      Horizon(s).Le(Horizon(s.(date := Target(s)))) && Target(s).Plus(s.lookahead).Le(Horizon(s.(date := Target(s))))
  {
  }

  lemma NextEventReachedKeepsWord(s: Rtia)
    requires Consistent(s) && s.advance == NER && s.constrained && TargetReached(s, Target(s))
    ensures KeepsWord(s, NextEventReached(s.(date := Target(s))))
  {
    TargetIsCovered(s);
    var s1 := s.(date := Target(s));
    var s2 := AfterPromise(s1, s1.date);
    PromiseLeaves(s1, s1.date);
    LastNullIsAside(s1, s2);
    hide Horizon, Consistent, AfterPromise, PromiseSent, TargetReached;
    if Gives(s.tsos, s1.date) {
      DeliveryIsCovered(s2, s2.date);
    } else {
      GrantIsCovered(s2);
    }
    PromiseThenMove(s, s1, s1.date, NextEventReached(s1));
  }

  lemma NextEventAdvanceKeepsWord(s: Rtia)
    requires Consistent(s) && s.advance == NER
    ensures KeepsWord(s, NextEventAdvance(s))
  {
    var o := NextEventAdvance(s);
    if !s.constrained {
      GrantIsCovered(AfterPromise(s, s.date));
      PromiseThenMove(s, s, s.date, o);
    } else if TargetReached(s, Target(s)) {
      NextEventReachedKeepsWord(s);
    } else {
      PromiseThenMove(s, s, s.Lbts(), o);
    }
  }

  lemma TickKeepsWord(s: Rtia)
    requires Consistent(s)
    ensures KeepsWord(s, Tick(s))
  {
    if s.commands == [] && !(FifoOpen(s) && s.fifos != []) {
      match s.advance
      case TAR | TARA => TimeAdvanceKeepsWord(s);
      case NER => NextEventAdvanceKeepsWord(s);
      case Idle =>
    }
  }

  lemma OneMessageKeepsWord(s: Rtia, o: Outcome, m: Message)
    requires Consistent(o.rtia) && o.rtia.me == s.me && o.rtia.clocks == s.clocks
    requires o.sent == [m] && SpokenBy(m, s.me)
    requires forall p :: Covers(p, s) ==> Fits(p, m, s.me) && Covers(Heard(p, m, s.me), o.rtia)
    ensures KeepsWord(s, o)
  {
    hide Consistent, Covers, Fits, Heard, SpokenBy, Honest, ClockAfter;
    forall p | Covers(p, s) ensures Honest(p, o.sent, s.me) && Covers(ClockAfter(p, o.sent, s.me), o.rtia) {
      OneIsHonest(p, m, s.me);
    }
  }

  lemma OneIsHonest(clock: Option<Time>, m: Message, src: Handle)
    ensures Honest(clock, [m], src) <==> Fits(clock, m, src)
    ensures ClockAfter(clock, [m], src) == Heard(clock, m, src)
  {
    assert [m][1..] == [];
  }

  lemma SendKeepsWord(s: Rtia, date: Time, id: nat)
    requires Consistent(s) && Disciplined(s, SendTimed(s.me, date, id))
    ensures KeepsWord(s, Local(s, SendTimed(s.me, date, id)))
  {
    if ValidTime(s, date) {
      assert s.regulating && Horizon(s).Le(date);
      hide Horizon, Consistent;
      OneMessageKeepsWord(s, Local(s, SendTimed(s.me, date, id)), Timed(Event(s.me, date, id)));
    }
  }

  lemma SwitchKeepsWord(s: Rtia, e: Step)
    requires e.EnableRegulation? || e.DisableRegulation? || e.EnableConstrained? || e.DisableConstrained?
             || e.SendPlain?
    requires e.h == s.me && Consistent(s) && Disciplined(s, e)
    ensures KeepsWord(s, Local(s, e))
  {
    var o := Local(s, e);
    if o.sent != [] {
      OneMessageKeepsWord(s, o, o.sent[0]);
    }
  }

  lemma RaisedLookahead(s: Rtia, lookahead: real)
    requires Consistent(s) && Disciplined(s, ChangeLookahead(s.me, lookahead))
    requires SetLookahead(s, lookahead).error == NoError
    ensures var s1 := s.(lookahead := lookahead);
      && Consistent(s1)
      && (s.regulating ==> Horizon(s).Le(Horizon(s1)) && s.now.Plus(lookahead).Le(Horizon(s1)))
  {
  }

  // A federate may raise its lookahead, whatever it has promised.
  lemma LookaheadKeepsWord(s: Rtia, lookahead: real)
    requires Consistent(s) && Disciplined(s, ChangeLookahead(s.me, lookahead))
    ensures KeepsWord(s, SetLookahead(s, lookahead))
  {
    if SetLookahead(s, lookahead).error == NoError {
      var s1 := s.(lookahead := lookahead);
      RaisedLookahead(s, lookahead);
      PromiseKeepsWord(s, s1, s.now);
      PromiseLeaves(s1, s.now);
      LastNullIsAside(s1, SetLookahead(s, lookahead).rtia);
      hide Horizon, Consistent, AfterPromise;
    }
  }

  lemma LocalKeepsWord(s: Rtia, e: Step)
    requires IsLocal(e) && e.h == s.me
    requires Consistent(s) && Disciplined(s, e)
    ensures KeepsWord(s, Local(s, e))
  {
    match e
    case Request(_, TAR, date) => TimeAdvanceRequestKeepsWord(s, date);
    case Request(_, TARA, date) => TimeAdvanceRequestAvailableKeepsWord(s, date);
    case Request(_, NER, date) => NextEventRequestKeepsWord(s, date);
    case TickAt(_) => TickKeepsWord(s);
    case SendTimed(_, date, id) => SendKeepsWord(s, date, id);
    case ChangeLookahead(_, lookahead) => LookaheadKeepsWord(s, lookahead);
    case SwitchAsynchronous(_, _) =>
    case Request(_, _, _) =>
    case _ => SwitchKeepsWord(s, e);
  }
}
