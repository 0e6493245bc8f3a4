/** A whole federation: its RTIAs, the RTIG, and a first-in first-out stream each way between them.

    A step is one action of one process. `Allowed` says which runs the theorems speak of.
 */
module World {
  import opened FederationTime
  import opened Messages
  import opened TimeState
  import opened RtigState

  datatype World = World(
    rtias: map<Handle, Rtia>,
    up: map<Handle, seq<Message>>,
    down: map<Handle, seq<Message>>,
    rtig: Rtig)

  const EMPTY := World(map[], map[], map[], INITIAL)

  datatype Step =
    | Request(h: Handle, advance: Advance, date: Time)
    | TickAt(h: Handle)
    | SendTimed(h: Handle, date: Time, id: nat)
    | SendPlain(h: Handle, id: nat)
    | EnableRegulation(h: Handle, lookahead: real)
    | DisableRegulation(h: Handle, lookahead: real)
    | EnableConstrained(h: Handle)
    | DisableConstrained(h: Handle)
    | ChangeLookahead(h: Handle, lookahead: real)
    | SwitchAsynchronous(h: Handle, on: bool)
    | RtigReads(h: Handle, subscribers: set<Handle>)
    | RtiaReads(h: Handle)
    | RtigTells(h: Handle, message: Message)
    | Join(h: Handle)

  // What federate `h` does by itself: requests, ticks and sends.
  predicate IsLocal(e: Step) {
    !e.RtigReads? && !e.RtiaReads? && !e.RtigTells? && !e.Join?
  }

  ghost function Local(s: Rtia, e: Step): Outcome
    requires IsLocal(e)
  {
    match e
    case Request(_, TAR, date) => TimeAdvanceRequest(s, date)
    case Request(_, TARA, date) => TimeAdvanceRequestAvailable(s, date)
    case Request(_, NER, date) => NextEventRequest(s, date)
    case Request(_, NERA, date) => NextEventRequestAvailable(s, date)
    case Request(_, Idle, _) => Quiet(s)
    case TickAt(_) => Tick(s)
    case SendTimed(h, date, id) =>
      if ValidTime(s, date) then Outcome(s, [Timed(Event(h, date, id))], [], false, NoError) else Quiet(s)
    case SendPlain(h, id) => Outcome(s, [Plain(h, id)], [], false, NoError)
    case EnableRegulation(_, lookahead) => SetTimeRegulating(s, true, lookahead)
    case DisableRegulation(_, lookahead) => SetTimeRegulating(s, false, lookahead)
    case EnableConstrained(_) => SetTimeConstrained(s, true)
    case DisableConstrained(_) => SetTimeConstrained(s, false)
    case ChangeLookahead(_, lookahead) => SetLookahead(s, lookahead)
    case SwitchAsynchronous(_, on) => Quiet(s.(asynchronous := on))
  }

  // The date the federate has reached, or asks to reach.
  function Goal(s: Rtia): Time {
    if s.advance == Idle then s.now else s.date
  }

  // The conditions on a federate that the code does not enforce. On a grid of dates the two about `EPSILON2`
  // follow: see GridRuns.
  ghost predicate Disciplined(s: Rtia, e: Step) {
    match e
    case Request(_, TARA, date) =>
      RequestError(s, date) == NoError && s.regulating && s.kind == AfterTarOrNerZeroLookahead ==>
        s.now.Plus(EPSILON2).Le(date)
    case Request(_, NERA, date) => RequestError(s, date) == NoError
    case SendTimed(_, date, _) =>
      ValidTime(s, date) ==> s.regulating && (s.kind == AfterTarOrNerZeroLookahead ==> Goal(s).Plus(EPSILON2).Le(date))
    case EnableRegulation(_, lookahead) =>
      && 0.0 <= lookahead != EPSILON2
      && (s.kind == AfterTarOrNerZeroLookahead ==> lookahead == 0.0)
    case EnableConstrained(_) => s.now.Le(s.Lbts())
    case DisableConstrained(_) => SetTimeConstrained(s, false).error != NoError
    case ChangeLookahead(_, lookahead) =>
      s.regulating && SetLookahead(s, lookahead).error == NoError ==>
        s.kind != AfterTarOrNerZeroLookahead && s.lookahead <= lookahead
    case _ => true
  }

  // A disciplined request changes nothing, or it is accepted and pends.
  ghost predicate Pends(s: Rtia, s': Rtia, advance: Advance, date: Time) {
    || s' == s
    || (&& s.advance == Idle && s.now.Le(date)
        && s' == s.(advance := advance, date := date, kind := s'.kind, lookahead := s'.lookahead,
                    lastNull := s'.lastNull))
  }

  lemma RequestForms(s: Rtia, h: Handle, advance: Advance, date: Time)
    requires Disciplined(s, Request(h, advance, date))
    ensures Pends(s, Local(s, Request(h, advance, date)).rtia, advance, date)
  {
    hide AfterPromise, PromiseSent;
    PromiseLeaves(WithSomeLookahead(s), date);
    PromiseLeaves(s.(kind := AfterTaraOrNera), date);
  }

  // A new regulator's clock lies beyond what a constrained receiver has reached or asked for.
  ghost predicate RegulatorInTime(s: Rtia, m: Message) {
    m.RegulatorOn? && m.src != s.me && s.constrained ==> Goal(s).Lt(m.date)
  }

  ghost predicate Allowed(w: World, e: Step) {
    match e
    case RtigReads(h, subscribers) => h in w.up && w.up[h] != [] && subscribers <= w.rtias.Keys
    case RtiaReads(h) => h in w.rtias && h in w.down && w.down[h] != [] && RegulatorInTime(w.rtias[h], w.down[h][0])
    case RtigTells(h, m) => h in w.down && (m.Plain? || m.InitiateSave? || m.SaveEnded? || m.Command?)
    case Join(h) => h != 0 && h !in w.rtias && h !in w.rtig.members
    case _ => e.h in w.rtias && e.h in w.up && Disciplined(w.rtias[e.h], e)
  }

  // Every stream to an RTIA grows by what the responses hold for it.
  function Sent(down: map<Handle, seq<Message>>, responses: seq<Response>): map<Handle, seq<Message>> {
    map h | h in down :: down[h] + For(responses, h)
  }

  // The RTIG takes the first message of `h` and answers it.
  function RtigRead(w: World, h: Handle, subscribers: set<Handle>): World
    requires h in w.up && w.up[h] != []
  {
    var answer := Process(w.rtig, w.up[h][0], subscribers);
    w.(up := w.up[h := w.up[h][1..]], rtig := answer.rtig, down := Sent(w.down, answer.responses))
  }

  // The RTIA of `h` takes the first message of its stream; an exception would leave it there.
  function RtiaRead(w: World, h: Handle): World
    requires h in w.rtias && h in w.down && w.down[h] != []
  {
    var received := Receive(w.rtias[h], w.down[h][0]);
    if received.None? then w
    else w.(rtias := w.rtias[h := received.value], down := w.down[h := w.down[h][1..]])
  }

  function Told(w: World, h: Handle, m: Message): World
    requires h in w.down
  {
    w.(down := w.down[h := w.down[h] + [m]])
  }

  // A joiner starts from the clocks the RTIG held when it joined: see JoinHandOff.
  function Joined(w: World, h: Handle): World
    requires h !in w.rtig.members
  {
    World(w.rtias[h := Initial(h, w.rtig.regulators)], w.up[h := []], w.down[h := []], Add(w.rtig, h).rtig)
  }

  // Federate `h` takes the outcome `o`.
  function Moved(w: World, h: Handle, o: Outcome): World
    requires h in w.up
  {
    w.(rtias := w.rtias[h := o.rtia], up := w.up[h := w.up[h] + o.sent])
  }

  // The world after an allowed step; runs hold no others.
  ghost function Next(w: World, e: Step): World {
    if !Allowed(w, e) then w else
    match e
    case RtigReads(h, subscribers) => RtigRead(w, h, subscribers)
    case RtiaReads(h) => RtiaRead(w, h)
    case RtigTells(h, m) => Told(w, h, m)
    case Join(h) => Joined(w, h)
    case _ => Moved(w, e.h, Local(w.rtias[e.h], e))
  }

  // ---- Runs ----

  ghost predicate IsRun(w: World, steps: seq<Step>)
    decreases |steps|
  {
    steps == [] || (Allowed(w, steps[0]) && IsRun(Next(w, steps[0]), steps[1..]))
  }

  ghost function After(w: World, steps: seq<Step>): World
    requires IsRun(w, steps)
    decreases |steps|
  {
    if steps == [] then w else After(Next(w, steps[0]), steps[1..])
  }

  ghost predicate Reachable(w: World) {
    exists steps :: IsRun(EMPTY, steps) && After(EMPTY, steps) == w
  }
}
