/** The time state of one RTIA as a value, and each service as a function on it.

    The class TimeManagement is proved to compute these functions; the theorems about one RTIA
    and about the whole federation are stated on them.
 */
module TimeState {
  import opened FederationTime
  import opened Lbts
  import opened Messages
  import opened Queues

  // The pending request, if any.
  datatype Advance = Idle | TAR | NER | TARA | NERA

  // What the last accepted request makes of the next grant.
  datatype GrantKind = AfterTarOrNer | AfterTarOrNerZeroLookahead | AfterTaraOrNera

  datatype Error = NoError | TimeAdvanceAlreadyInProgress | FederationTimeAlreadyPassed | InvalidLookahead
    | InternalError

  // What the federate is told during a tick.
  datatype Callback =
    | InOrder(event: Event)      // from the time stamp order list
    | Evoked(message: Message)   // from the command or receive-order list
    | Granted(date: Time)

  datatype Rtia = Rtia(
    me: Handle,
    clocks: Clocks,
    lastNull: Time,
    advance: Advance,
    date: Time,
    kind: GrantKind,
    now: Time,
    lookahead: real,
    regulating: bool,
    constrained: bool,
    asynchronous: bool,
    tsos: seq<Event>,
    fifos: seq<Message>,
    commands: seq<Message>)
  {
    ghost function Lbts(): Time {
      Least(clocks, me)
    }

    function FirstTso(): Time {
      if tsos == [] then Infinity else tsos[0].date
    }
  }

  function Initial(me: Handle, clocks: Clocks): Rtia {
    Rtia(me, clocks, ZERO, Idle, ZERO, AfterTarOrNer, ZERO, 0.0, false, false, false, [], [], [])
  }

  datatype Outcome = Outcome(rtia: Rtia, sent: seq<Message>, told: seq<Callback>, more: bool, error: Error)

  function Refused(s: Rtia, e: Error): Outcome {
    Outcome(s, [], [], false, e)
  }

  function Quiet(s: Rtia): Outcome {
    Outcome(s, [], [], false, NoError)
  }

  // ---- Promises ----

  function AfterNull(s: Rtia, logicalTime: Time): Rtia {
    var date := logicalTime.Plus(s.lookahead);
    if s.lastNull.Lt(date) then s.(lastNull := date) else s
  }

  function NullSent(s: Rtia, logicalTime: Time): seq<Message> {
    var date := logicalTime.Plus(s.lookahead);
    if s.lastNull.Lt(date) then [Null(s.me, date)] else []
  }

  // A promise is made only by a regulating federate.
  function AfterPromise(s: Rtia, logicalTime: Time): Rtia {
    if s.regulating then AfterNull(s, logicalTime) else s
  }

  function PromiseSent(s: Rtia, logicalTime: Time): seq<Message> {
    if s.regulating then NullSent(s, logicalTime) else []
  }

  // ---- Requests of the federate ----

  function RequestError(s: Rtia, logicalTime: Time): Error {
    if logicalTime.Lt(s.now) then FederationTimeAlreadyPassed
    else if s.advance != Idle then TimeAdvanceAlreadyInProgress
    else NoError
  }

  // A zero lookahead is replaced by a small one until the grant.
  function WithSomeLookahead(s: Rtia): Rtia {
    if s.lookahead == 0.0 then s.(lookahead := EPSILON2, kind := AfterTarOrNerZeroLookahead)
    else s.(kind := AfterTarOrNer)
  }

  function TimeAdvanceRequest(s: Rtia, logicalTime: Time): Outcome {
    if RequestError(s, logicalTime) != NoError then Refused(s, RequestError(s, logicalTime)) else
      var s1 := WithSomeLookahead(s);
      Outcome(AfterPromise(s1, logicalTime).(advance := TAR, date := logicalTime),
              PromiseSent(s1, logicalTime), [], false, NoError)
  }

  function TimeAdvanceRequestAvailable(s: Rtia, logicalTime: Time): Outcome {
    if RequestError(s, logicalTime) != NoError then Refused(s, RequestError(s, logicalTime)) else
      var s1 := s.(kind := AfterTaraOrNera);
      Outcome(AfterPromise(s1, logicalTime).(advance := TARA, date := logicalTime),
              PromiseSent(s1, logicalTime), [], false, NoError)
  }

  function NextEventRequest(s: Rtia, logicalTime: Time): Outcome {
    if RequestError(s, logicalTime) != NoError then Refused(s, RequestError(s, logicalTime)) else
      Quiet(WithSomeLookahead(s).(advance := NER, date := logicalTime))
  }

  // The test is the opposite of the other three: see NeraActsOnlyWhenRefused.
  function NextEventRequestAvailable(s: Rtia, logicalTime: Time): Outcome {
    if RequestError(s, logicalTime) == NoError then Quiet(s) else
      Refused(s.(kind := AfterTaraOrNera, advance := NERA, date := logicalTime), RequestError(s, logicalTime))
  }

  function SetLookahead(s: Rtia, lookahead: real): Outcome {
    if lookahead == EPSILON2 then Refused(s, InternalError)
    else if lookahead < 0.0 then Refused(s, InvalidLookahead)
    else
      var s1 := s.(lookahead := lookahead);
      Outcome(AfterPromise(s1, s.now), PromiseSent(s1, s.now), [], false, NoError)
  }

  function SetTimeConstrained(s: Rtia, on: bool): Outcome {
    if s.constrained == on || s.advance != Idle then Refused(s, InternalError)
    else Outcome(s.(constrained := on), [Constraining(s.me, on)], [], false, NoError)
  }

  function SetTimeRegulating(s: Rtia, on: bool, lookahead: real): Outcome {
    if s.regulating == on || s.advance != Idle then Refused(s, InternalError)
    else
      Outcome(s.(regulating := on, lookahead := lookahead),
              [if on then RegulatorOn(s.me, s.now.Plus(lookahead)) else RegulatorOff(s.me)],
              [], false, NoError)
  }

  // Whether an event may be sent with this date.
  predicate ValidTime(s: Rtia, date: Time) {
    var base := if s.advance == Idle then s.now else s.date;
    if s.kind == AfterTarOrNerZeroLookahead then base.Lt(date) else base.Plus(s.lookahead).Le(date)
  }

  ghost function MinNextEventTime(s: Rtia): Time {
    if s.tsos == [] then s.Lbts() else if s.Lbts().Le(s.tsos[0].date) then s.Lbts() else s.tsos[0].date
  }

  // ---- Tick ----

  function AfterGrant(s: Rtia, date: Time): Rtia {
    s.(lookahead := if s.lookahead == EPSILON2 then 0.0 else s.lookahead, now := date, advance := Idle)
  }

  predicate FifoOpen(s: Rtia) {
    s.asynchronous || s.advance != Idle || !s.constrained
  }

  ghost function Tick(s: Rtia): Outcome {
    if s.commands != [] then
      Outcome(s.(commands := s.commands[1..]), [], [Evoked(s.commands[0])], |s.commands| > 1, NoError)
    else if FifoOpen(s) && s.fifos != [] then
      Outcome(s.(fifos := s.fifos[1..]), [], [Evoked(s.fifos[0])], |s.fifos| > 1, NoError)
    else
      AdvanceTime(s)
  }

  ghost function AdvanceTime(s: Rtia): Outcome {
    match s.advance
    case Idle => Quiet(s)
    case TAR | TARA => TimeAdvance(s)
    case NER | NERA => NextEventAdvance(s)
  }

  function Deliver(s: Rtia, bound: Time): Outcome
    requires Gives(s.tsos, bound)
  {
    Outcome(s.(tsos := s.tsos[1..]), [], [InOrder(s.tsos[0])], Gives(s.tsos[1..], bound), NoError)
  }

  function Grant(s: Rtia, date: Time): Outcome {
    Outcome(AfterGrant(s, date), [], [Granted(date)], false, NoError)
  }

  ghost predicate TargetReached(s: Rtia, target: Time) {
    target.Lt(s.Lbts()) || (target.Le(s.Lbts()) && (s.advance == TARA || s.advance == NERA))
  }

  ghost function TimeAdvance(s: Rtia): Outcome {
    if !s.constrained then
      Grant(s, s.date)
    else
      var bound := Min(s.Lbts(), s.date);
      if Gives(s.tsos, bound) then Deliver(s, bound)
      else if TargetReached(s, s.date) then Grant(s, s.date)
      else Quiet(s)
  }

  // The earlier of the requested date and the first event.
  function Target(s: Rtia): Time {
    if s.tsos != [] && s.tsos[0].date.Lt(s.date) then s.tsos[0].date else s.date
  }

  ghost function NextEventAdvance(s: Rtia): Outcome {
    if !s.constrained then
      Grant(AfterPromise(s, s.date), s.date).(sent := PromiseSent(s, s.date))
    else if TargetReached(s, Target(s)) then
      NextEventReached(s.(date := Target(s)))
    else
      Outcome(AfterPromise(s, s.Lbts()), PromiseSent(s, s.Lbts()), [], false, NoError)
  }

  // The requested date, by now the target, is promised; then it is delivered or granted.
  function NextEventReached(s: Rtia): Outcome {
    DeliverOrGrant(AfterPromise(s, s.date)).(sent := PromiseSent(s, s.date))
  }

  function DeliverOrGrant(s: Rtia): Outcome {
    if Gives(s.tsos, s.date) then Deliver(s, s.date) else Grant(s, s.date)
  }

  // What the ways out of a next event advance leave behind; `next` is the last null message after it.
  ghost predicate NextEventLeaves(s: Rtia, o: Outcome, next: Time) {
    if !s.constrained then
      o.rtia == AfterGrant(s.(lastNull := next), s.date) && o.told == [Granted(s.date)]
    else if !TargetReached(s, Target(s)) then
      o.rtia == s.(lastNull := next) && o.told == []
    else if Gives(s.tsos, Target(s)) then
      o.rtia == s.(date := Target(s), lastNull := next, tsos := s.tsos[1..]) && o.told == [InOrder(s.tsos[0])]
    else
      o.rtia == AfterGrant(s.(date := Target(s), lastNull := next), Target(s)) && o.told == [Granted(Target(s))]
  }

  lemma PromiseLeaves(s: Rtia, t: Time)
    ensures AfterPromise(s, t) == s.(lastNull := AfterPromise(s, t).lastNull)
  {
  }

  lemma NextEventForms(s: Rtia)
    ensures NextEventLeaves(s, NextEventAdvance(s), NextEventAdvance(s).rtia.lastNull)
  {
    hide AfterPromise, PromiseSent, Rtia.Lbts;
    PromiseLeaves(s, s.date);
    PromiseLeaves(s, s.Lbts());
    PromiseLeaves(s.(date := Target(s)), Target(s));
  }

  // ---- Messages from the RTIG ----

  // None stands for the exception that ends the RTIA.
  function Receive(s: Rtia, m: Message): Option<Rtia> {
    match m
    case Null(src, date) =>
      if src == 0 then
        if s.clocks == map[] then None else Some(s.(clocks := AllAdvanced(s.clocks, date)))
      else if src in s.clocks then Some(s.(clocks := s.clocks[src := Advanced(s.clocks[src], date)])) else None
    case RegulatorOn(src, date) =>
      if src in s.clocks then None else Some(s.(clocks := s.clocks[src := date]))
    case RegulatorOff(src) =>
      if src in s.clocks then Some(s.(clocks := s.clocks - {src})) else None
    case Timed(event) =>
      if s.constrained then Some(s.(tsos := Inserted(s.tsos, event))) else Some(s.(fifos := s.fifos + [m]))
    case Plain(_, _) => Some(s.(fifos := s.fifos + [m]))
    case InitiateSave(_) => Some(s.(commands := [m] + s.commands))
    case SaveEnded(_) => Some(s.(commands := [m] + s.commands))
    case Command(_) => Some(s.(commands := s.commands + [m]))
    case _ => None
  }
}
