/** A tick of the federate as a session with its RTIA: one request, any number of callbacks, each followed
    by the federate's wish for the next, and one acknowledgement.
 */
module TickSession {
  import opened FederationTime
  import opened Messages
  import opened TimeState
  import opened TimeManagement
  import World

  // `result` is what the acknowledgement will say: whether more is waiting.
  datatype Session = Session(
    rtia: Rtia,
    state: TickState,
    multiple: bool,
    result: bool,
    told: seq<Callback>,
    acks: seq<bool>)

  // ---- The session as functions ----

  // One tick of time management, and its effect on the state of the session.
  ghost function Ticked(s: Session): Session {
    var o := Tick(s.rtia);
    s.(rtia := o.rtia, told := s.told + o.told, result := o.more, state := if o.told != [] then TickNext else s.state)
  }

  // After a callback: go on only if asked to, if more is waiting, and if there is time left.
  function Decided(s: Session, timeLeft: bool): Session {
    s.(state := if s.result && s.multiple && timeLeft then TickCallback else TickReturn)
  }

  function Acknowledged(s: Session): Session {
    s.(acks := s.acks + [s.result], state := NoTick)
  }

  ghost function Ongoing(s: Session, timeLeft: bool): Session {
    match s.state
    case NoTick => s
    case TickBlocking => if Ticked(s).state == TickNext then Decided(Ticked(s), timeLeft) else Ticked(s)
    case TickNext => Decided(s, timeLeft)
    case TickCallback => if Ticked(s).state == TickNext then Decided(Ticked(s), timeLeft) else Acknowledged(Ticked(s))
    case TickReturn => Acknowledged(s)
  }

  // What the federate asks for; `waits` when it gave a least time to tick. Any other request may change the time
  // state, ticking or not.
  datatype Request =
    | TickRequest(multiple: bool, waits: bool)
    | TickNextRequest
    | TickStopRequest
    | OtherRequest(step: World.Step)

  ghost function Served(s: Rtia, e: World.Step): Rtia {
    if World.IsLocal(e) && !e.TickAt? then World.Local(s, e).rtia else s
  }

  datatype Input = FromNetwork(message: Message) | FromFederate(request: Request) | Timeout

  // What the RTIA reads in each state.
  predicate Reads(state: TickState, input: Input) {
    match input
    case FromNetwork(_) => state == NoTick || state == TickBlocking
    case FromFederate(_) => true
    case Timeout => state == TickBlocking
  }

  predicate Accepts(state: TickState, request: Request) {
    match request
    case TickRequest(_, _) => state == NoTick
    case TickNextRequest => state == TickCallback || state == TickReturn
    case TickStopRequest => true
    case OtherRequest(_) => true
  }

  ghost function Requested(s: Session, request: Request, timeLeft: bool): Session {
    if !Accepts(s.state, request) then s else
      match request
      case TickRequest(multiple, waits) =>
        Ongoing(s.(multiple := multiple, result := false, state := if waits then TickBlocking else TickCallback),
                timeLeft)
      case TickNextRequest => Ongoing(s, timeLeft)
      case TickStopRequest => Ongoing(s.(state := TickReturn), timeLeft)
      case OtherRequest(step) => s.(rtia := Served(s.rtia, step))
  }

  ghost function Handled(s: Session, input: Input, timeLeft: bool): Session {
    match input
    case FromNetwork(m) =>
      var received := Receive(s.rtia, m);
      var s1 := if received.Some? then s.(rtia := received.value) else s;
      if s.state == TickBlocking then Ongoing(s1, timeLeft) else s1
    case FromFederate(request) => Requested(s, request, timeLeft)
    case Timeout => if s.state == TickBlocking then Ongoing(s.(state := TickReturn), timeLeft) else s
  }

  // ---- The RTIA as an object ----

  class Agent {
    const tm: TimeManager
    var multiple: bool
    var result: bool
    var acks: seq<bool>

    ghost predicate Valid()
      reads this, tm, tm.queues, tm.lbts
    {
      tm.Valid()
    }

    ghost function View(): Session
      reads this, tm, tm.queues, tm.lbts
    {
      Session(tm.View(), tm.tickState, multiple, result, tm.told, acks)
    }

    constructor ()
      ensures Valid() && fresh(tm) && fresh(tm.queues) && fresh(tm.lbts)
      ensures View() == Session(Initial(0, map[]), NoTick, false, false, [], [])
    {
      tm := new TimeManager();
      multiple, result, acks := false, false, [];
    }

    method EvokeOne()
      requires Valid()
      modifies this`result, tm, tm.queues
      ensures Valid() && View() == Ticked(old(View()))
    {
      result := tm.Tick();
    }

    method Decide(timeLeft: bool)
      requires Valid()
      modifies tm`tickState
      ensures Valid() && View() == Decided(old(View()), timeLeft)
    {
      tm.tickState := if result && multiple && timeLeft then TickCallback else TickReturn;
    }

    method Acknowledge()
      requires Valid()
      modifies this`acks, tm`tickState
      ensures Valid() && View() == Acknowledged(old(View()))
    {
      acks := acks + [result];
      tm.tickState := NoTick;
    }

    // The loop goes round a second time only from TickCallback to TickNext, and never calls the
    // federate back more than once.
    method ProcessOngoingTick(timeLeft: bool) returns (ghost passes: nat)
      requires Valid() && tm.tickState != NoTick
      modifies this, tm, tm.queues
      ensures Valid() && View() == Ongoing(old(View()), timeLeft)
      ensures passes <= 2 && |tm.told| <= |old(tm.told)| + 1 && tm.tickState != TickNext
    {
      hide Tick;
      ghost var before := View();
      TickTellsAtMostOne(before.rtia);
      passes := 0;
      while true
        invariant Valid() && passes <= 1
        invariant if passes == 0 then View() == before
                  else before.state == TickCallback && View() == Ticked(before) && tm.tickState == TickNext
        decreases 2 - passes
      {
        passes := passes + 1;
        var state := tm.tickState;
        if state == TickBlocking {
          EvokeOne();
          if tm.tickState != TickNext {
            return;
          }
          state := TickNext;
        }
        if state == TickNext {
          Decide(timeLeft);
          return;
        }
        if state == TickCallback {
          EvokeOne();
          if tm.tickState != TickNext {
            Acknowledge();
            return;
          }
        } else {
          Acknowledge();
          return;
        }
      }
    }

    // A request that asks to advance.
    method RequestAdvance(advance: Advance, date: Time)
      requires Valid()
      modifies tm
      ensures Valid()
      ensures View() == old(View()).(rtia := Served(old(View()).rtia, World.Request(0, advance, date)))
    {
      ServedRequest(tm.View(), advance, date);
      hide Served, World.Local, TimeState.TimeAdvanceRequest, TimeState.TimeAdvanceRequestAvailable,
           TimeState.NextEventRequest, TimeState.NextEventRequestAvailable;
      match advance {
        case TAR => var _ := tm.TimeAdvanceRequest(date);
        case TARA => var _ := tm.TimeAdvanceRequestAvailable(date);
        case NER => var _ := tm.NextEventRequest(date);
        case NERA => var _ := tm.NextEventRequestAvailable(date);
        case Idle =>
      }
    }

    // A request that switches regulation, constraint or asynchronous delivery, or changes the lookahead.
    method Switch(step: World.Step)
      requires Valid() && World.IsLocal(step) && !step.TickAt? && !step.Request?
      modifies tm
      ensures Valid() && View() == old(View()).(rtia := Served(old(View()).rtia, step))
    {
      ServedSwitch(tm.View(), step);
      hide Served, World.Local, TimeState.SetTimeRegulating, TimeState.SetTimeConstrained, TimeState.SetLookahead;
      match step {
        case EnableRegulation(_, lookahead) => var _ := tm.SetTimeRegulating(true, lookahead);
        case DisableRegulation(_, lookahead) => var _ := tm.SetTimeRegulating(false, lookahead);
        case EnableConstrained(_) => var _ := tm.SetTimeConstrained(true);
        case DisableConstrained(_) => var _ := tm.SetTimeConstrained(false);
        case ChangeLookahead(_, lookahead) => var _ := tm.SetLookahead(lookahead);
        case SwitchAsynchronous(_, on) => tm.asynchronous := on;
        case SendTimed(h, date, id) =>
          var valid := tm.TestValidTime(date);
          if valid {
            tm.sent := tm.sent + [Timed(Event(h, date, id))];
          }
        case SendPlain(h, id) => tm.sent := tm.sent + [Plain(h, id)];
      }
    }

    method Serve(step: World.Step)
      requires Valid()
      modifies tm
      ensures Valid() && View() == old(View()).(rtia := Served(old(View()).rtia, step))
    {
      hide World.Local;
      if step.Request? {
        SameRequest(tm.View(), step);
        RequestAdvance(step.advance, step.date);
      } else if World.IsLocal(step) && !step.TickAt? {
        Switch(step);
      }
    }

    // The requests of the federate, a tick among them; a refusal gets no answer.
    method ProcessFederateRequest(request: Request, timeLeft: bool) returns (accepted: bool)
      requires Valid()
      modifies this, tm, tm.queues
      ensures Valid() && accepted == Accepts(old(View()).state, request)
      ensures View() == Requested(old(View()), request, timeLeft)
    {
      hide Ongoing;
      accepted := true;
      match request {
        case TickRequest(several, waits) =>
          if tm.tickState != NoTick {
            return false;
          }
          multiple := several;
          result := false;
          tm.tickState := if waits then TickBlocking else TickCallback;
          var _ := ProcessOngoingTick(timeLeft);
        case TickNextRequest =>
          if tm.tickState != TickCallback && tm.tickState != TickReturn {
            return false;
          }
          var _ := ProcessOngoingTick(timeLeft);
        case TickStopRequest =>
          tm.tickState := TickReturn;
          var _ := ProcessOngoingTick(timeLeft);
        case OtherRequest(step) => Serve(step);
      }
    }

    // One turn of the main loop: an input that the state allows to be read.
    method Dispatch(input: Input, timeLeft: bool)
      requires Valid() && Reads(tm.tickState, input)
      modifies this, tm, tm.queues, tm.lbts
      ensures Valid() && View() == Handled(old(View()), input, timeLeft)
    {
      hide Ongoing;
      match input {
        case FromNetwork(m) =>
          var ok := tm.ProcessNetworkMessage(m);
          if tm.tickState == TickBlocking {
            var _ := ProcessOngoingTick(timeLeft);
          }
        case FromFederate(request) => var _ := ProcessFederateRequest(request, timeLeft);
        case Timeout =>
          if tm.tickState == TickBlocking {
            tm.tickState := TickReturn;
            var _ := ProcessOngoingTick(timeLeft);
          }
      }
    }
  }

  lemma ServedRequest(s: Rtia, advance: Advance, date: Time)
    ensures Served(s, World.Request(0, advance, date)) ==
      match advance
      case TAR => TimeState.TimeAdvanceRequest(s, date).rtia
      case TARA => TimeState.TimeAdvanceRequestAvailable(s, date).rtia
      case NER => TimeState.NextEventRequest(s, date).rtia
      case NERA => TimeState.NextEventRequestAvailable(s, date).rtia
      case Idle => s
  {
    hide TimeState.TimeAdvanceRequest, TimeState.TimeAdvanceRequestAvailable, TimeState.NextEventRequest,
         TimeState.NextEventRequestAvailable;
  }

  lemma ServedSwitch(s: Rtia, step: World.Step)
    requires World.IsLocal(step) && !step.TickAt? && !step.Request?
    ensures Served(s, step) ==
      match step
      case EnableRegulation(_, lookahead) => TimeState.SetTimeRegulating(s, true, lookahead).rtia
      case DisableRegulation(_, lookahead) => TimeState.SetTimeRegulating(s, false, lookahead).rtia
      case EnableConstrained(_) => TimeState.SetTimeConstrained(s, true).rtia
      case DisableConstrained(_) => TimeState.SetTimeConstrained(s, false).rtia
      case ChangeLookahead(_, lookahead) => TimeState.SetLookahead(s, lookahead).rtia
      case SwitchAsynchronous(_, on) => s.(asynchronous := on)
      case _ => s
  {
    hide TimeState.SetTimeRegulating, TimeState.SetTimeConstrained, TimeState.SetLookahead;
  }

  // Who asks is not part of a request.
  lemma SameRequest(s: Rtia, e: World.Step)
    requires e.Request?
    ensures Served(s, e) == Served(s, World.Request(0, e.advance, e.date))
  {
  }

  lemma TickTellsAtMostOne(s: Rtia)
    ensures |Tick(s).told| <= 1 && (Tick(s).told == [] ==> !Tick(s).more)
  {
    hide Rtia.Lbts;
  }

  // ---- Runs ----

  // One input, and whether the time for ticking had not run out when it came.
  datatype Turn = Turn(input: Input, timeLeft: bool)

  ghost predicate IsRun(s: Session, turns: seq<Turn>)
    decreases |turns|
  {
    turns == [] || (
      && Reads(s.state, turns[0].input)
      && IsRun(Handled(s, turns[0].input, turns[0].timeLeft), turns[1..]))
  }

  ghost function After(s: Session, turns: seq<Turn>): Session
    requires IsRun(s, turns)
    decreases |turns|
  {
    if turns == [] then s else After(Handled(s, turns[0].input, turns[0].timeLeft), turns[1..])
  }

  lemma {:induction false} Steps(s: Session, turns: seq<Turn>, i: nat)
    requires IsRun(s, turns) && i <= |turns|
    ensures IsRun(s, turns[..i]) && IsRun(After(s, turns[..i]), turns[i..])
    ensures i < |turns| ==>
      && Reads(After(s, turns[..i]).state, turns[i].input)
      && IsRun(s, turns[..i + 1])
      && After(s, turns[..i + 1]) == Handled(After(s, turns[..i]), turns[i].input, turns[i].timeLeft)
    decreases |turns|
  {
    hide Handled, Reads;
    if i == 0 {
      assert turns[..0] == [] && turns[0..] == turns;
      if turns != [] {
        assert turns[..1] == [turns[0]] && turns[..1][1..] == [];
      }
    } else {
      var s1 := Handled(s, turns[0].input, turns[0].timeLeft);
      Steps(s1, turns[1..], i - 1);
      assert turns[..i][1..] == turns[1..][..i - 1] && turns[i..] == turns[1..][i - 1..];
      if i < |turns| {
        assert turns[..i + 1][1..] == turns[1..][..i];
      }
    }
  }

  // Between inputs the session is never about to decide, and while it waits for a callback it has
  // nothing to say.
  ghost predicate Settled(s: Session) {
    s.state != TickNext && (s.state == TickBlocking ==> !s.result)
  }

  // A callback ends its turn with the federate to move.
  predicate FederateMoves(state: TickState) {
    state == TickCallback || state == TickReturn
  }

  lemma OngoingSettles(s: Session, timeLeft: bool)
    ensures var s' := Ongoing(s, timeLeft);
      && (s.state != NoTick ==> Settled(s'))
      && |s.told| <= |s'.told| <= |s.told| + 1
      && (|s'.told| > |s.told| ==> FederateMoves(s'.state))
      && (if s.state != NoTick && s'.state == NoTick then |s'.acks| == |s.acks| + 1 else s'.acks == s.acks)
  {
    hide Tick;
    TickTellsAtMostOne(s.rtia);
  }

  lemma TurnSettles(s: Session, turn: Turn)
    requires Settled(s) && Reads(s.state, turn.input)
    ensures var s' := Handled(s, turn.input, turn.timeLeft);
      && Settled(s')
      && |s.told| <= |s'.told| <= |s.told| + 1
      && (|s'.told| > |s.told| ==> FederateMoves(s'.state))
  {
    var s1 := if turn.input.FromNetwork? && Receive(s.rtia, turn.input.message).Some?
              then s.(rtia := Receive(s.rtia, turn.input.message).value) else s;
    hide Ongoing, Receive;
    OngoingSettles(s1, turn.timeLeft);
    OngoingSettles(s.(state := TickReturn), turn.timeLeft);
    if turn.input.FromFederate? && turn.input.request.TickRequest? {
      var r := turn.input.request;
      OngoingSettles(s.(multiple := r.multiple, result := false,
                        state := if r.waits then TickBlocking else TickCallback),
                     turn.timeLeft);
    }
  }

  lemma {:induction false} RunSettles(s: Session, turns: seq<Turn>)
    requires Settled(s) && IsRun(s, turns)
    ensures Settled(After(s, turns))
    decreases |turns|
  {
    hide Settled, Handled, Reads;
    if turns != [] {
      TurnSettles(s, turns[0]);
      RunSettles(Handled(s, turns[0].input, turns[0].timeLeft), turns[1..]);
    }
  }

  // ---- One acknowledgement for each session ----

  // The tick requests accepted during a run.
  ghost function Opened(s: Session, turns: seq<Turn>): nat
    requires IsRun(s, turns)
    decreases |turns|
  {
    if turns == [] then 0 else
      (if s.state == NoTick && turns[0].input.FromFederate? && turns[0].input.request.TickRequest? then 1 else 0)
      + Opened(Handled(s, turns[0].input, turns[0].timeLeft), turns[1..])
  }

  // The stop requests that find no session to stop: each is acknowledged all the same.
  ghost function StrayStops(s: Session, turns: seq<Turn>): nat
    requires IsRun(s, turns)
    decreases |turns|
  {
    if turns == [] then 0 else
      (if s.state == NoTick && turns[0].input.FromFederate? && turns[0].input.request.TickStopRequest? then 1 else 0)
      + StrayStops(Handled(s, turns[0].input, turns[0].timeLeft), turns[1..])
  }

  function Open(s: Session): nat {
    if s.state == NoTick then 0 else 1
  }

  lemma TurnAccounts(s: Session, turn: Turn)
    requires Settled(s) && Reads(s.state, turn.input)
    ensures var s' := Handled(s, turn.input, turn.timeLeft);
      |s'.acks| + Open(s') == |s.acks| + Open(s)
        + if s.state == NoTick && turn.input.FromFederate?
             && (turn.input.request.TickRequest? || turn.input.request.TickStopRequest?) then 1 else 0
  {
    var s1 := if turn.input.FromNetwork? && Receive(s.rtia, turn.input.message).Some?
              then s.(rtia := Receive(s.rtia, turn.input.message).value) else s;
    hide Ongoing, Receive;
    OngoingSettles(s1, turn.timeLeft);
    OngoingSettles(s.(state := TickReturn), turn.timeLeft);
    if turn.input.FromFederate? && turn.input.request.TickRequest? {
      var r := turn.input.request;
      OngoingSettles(s.(multiple := r.multiple, result := false,
                        state := if r.waits then TickBlocking else TickCallback),
                     turn.timeLeft);
    }
  }

  // Over any run, the acknowledgements are as many as the sessions that ended, and one more for each
  // stray stop.
  lemma {:induction false} AcksMatchSessions(s: Session, turns: seq<Turn>)
    requires Settled(s) && IsRun(s, turns)
    ensures |After(s, turns).acks| + Open(After(s, turns))
         == |s.acks| + Open(s) + Opened(s, turns) + StrayStops(s, turns)
    decreases |turns|
  {
    hide Settled, Handled, Reads;
    if turns != [] {
      TurnSettles(s, turns[0]);
      TurnAccounts(s, turns[0]);
      AcksMatchSessions(Handled(s, turns[0].input, turns[0].timeLeft), turns[1..]);
    }
  }

  // ---- Nothing from the network during a callback ----

  predicate MovesOn(input: Input) {
    input.FromFederate? && (input.request.TickNextRequest? || input.request.TickStopRequest?)
  }

  // All of a session but the time state.
  predicate SameSession(s: Session, s': Session) {
    s'.(rtia := s.rtia) == s
  }

  lemma StaysInCallback(s: Session, turn: Turn)
    requires FederateMoves(s.state) && Reads(s.state, turn.input) && !MovesOn(turn.input)
    ensures turn.input.FromFederate? && SameSession(s, Handled(s, turn.input, turn.timeLeft))
  {
    hide World.Local;
  }

  // From a callback until the federate asks for the next, or to stop, only requests of the federate are read.
  // They may change its time, but nothing more is told or acknowledged and the tick stays where it is.
  lemma {:induction false} NoNetworkDuringCallback(s: Session, turns: seq<Turn>, i: nat, j: nat)
    requires Settled(s) && IsRun(s, turns) && i < j < |turns|
    requires IsRun(s, turns[..i]) && IsRun(s, turns[..i + 1])
    requires |After(s, turns[..i + 1]).told| > |After(s, turns[..i]).told|
    requires forall k :: i < k < j ==> !MovesOn(turns[k].input)
    ensures turns[j].input.FromFederate?
    ensures IsRun(s, turns[..j]) && SameSession(After(s, turns[..i + 1]), After(s, turns[..j]))
    ensures FederateMoves(After(s, turns[..j]).state)
    decreases j
  {
    hide Settled, Handled, MovesOn;
    Steps(s, turns, i);
    Steps(s, turns, j);
    if j == i + 1 {
      RunSettles(s, turns[..i]);
      TurnSettles(After(s, turns[..i]), turns[i]);
    } else {
      NoNetworkDuringCallback(s, turns, i, j - 1);
      Steps(s, turns, j - 1);
      StaysInCallback(After(s, turns[..j - 1]), turns[j - 1]);
    }
  }

  // ---- What a session tells, and how it goes on ----

  // The session stays open before every turn but the first.
  ghost predicate StaysOpen(s: Session, turns: seq<Turn>)
    requires IsRun(s, turns)
    decreases |turns|
  {
    turns == [] || (s.state != NoTick && StaysOpen(Handled(s, turns[0].input, turns[0].timeLeft), turns[1..]))
  }

  // What one turn makes of a session for a single callback: it tells something only while it waits, and then never
  // again.
  ghost predicate SingleGoesOn(s: Session, s': Session) {
    && !s'.multiple
    && (s'.state == TickBlocking ==> s.state == TickBlocking && |s'.told| == |s.told|)
    && (s'.state == TickBlocking || s'.state == TickReturn || s'.state == NoTick)
    && |s'.told| <= |s.told| + (if s.state == TickBlocking then 1 else 0)
  }

  lemma SingleOngoing(s: Session, timeLeft: bool)
    requires !s.multiple && (s.state == TickBlocking || s.state == TickReturn)
    ensures SingleGoesOn(s, Ongoing(s, timeLeft))
  {
    TickTellsAtMostOne(s.rtia);
    hide Tick;
  }

  lemma SingleTurn(s: Session, turn: Turn)
    requires Reads(s.state, turn.input) && !s.multiple && (s.state == TickBlocking || s.state == TickReturn)
    ensures SingleGoesOn(s, Handled(s, turn.input, turn.timeLeft))
  {
    SingleOngoing(s, turn.timeLeft);
    SingleOngoing(s.(state := TickReturn), turn.timeLeft);
    if turn.input.FromNetwork? && Receive(s.rtia, turn.input.message).Some? {
      SingleOngoing(s.(rtia := Receive(s.rtia, turn.input.message).value), turn.timeLeft);
    }
    hide Ongoing, Receive, Served;
  }

  lemma {:induction false} SingleRest(s: Session, turns: seq<Turn>)
    requires IsRun(s, turns) && StaysOpen(s, turns)
    requires !s.multiple && (s.state == TickBlocking || s.state == TickReturn || s.state == NoTick)
    ensures |After(s, turns).told| <= |s.told| + (if s.state == TickBlocking then 1 else 0)
    decreases |turns|
  {
    hide Handled;
    if turns != [] {
      SingleTurn(s, turns[0]);
      SingleRest(Handled(s, turns[0].input, turns[0].timeLeft), turns[1..]);
    }
  }

  // Over any run, a session opened for one callback tells at most one thing before it ends, whatever comes in.
  lemma SingleTellsOnce(s: Session, waits: bool, timeLeft: bool, turns: seq<Turn>)
    requires s.state == NoTick
    requires var s1 := Handled(s, FromFederate(TickRequest(false, waits)), timeLeft);
      IsRun(s1, turns) && StaysOpen(s1, turns)
    ensures var s1 := Handled(s, FromFederate(TickRequest(false, waits)), timeLeft);
      |s.told| <= |After(s1, turns).told| <= |s.told| + 1
  {
    var s1 := Handled(s, FromFederate(TickRequest(false, waits)), timeLeft);
    SingleOpens(s, waits, timeLeft);
    SingleRest(s1, turns);
    hide Handled;
    RunTells(s1, turns);
  }

  lemma SingleOpens(s: Session, waits: bool, timeLeft: bool)
    requires s.state == NoTick
    ensures var s1 := Handled(s, FromFederate(TickRequest(false, waits)), timeLeft);
      && !s1.multiple && |s.told| <= |s1.told|
      && (s1.state == TickBlocking || s1.state == TickReturn || s1.state == NoTick)
      && |s1.told| + (if s1.state == TickBlocking then 1 else 0) <= |s.told| + 1
      && Settled(s1)
  {
    TickTellsAtMostOne(s.rtia);
    hide Tick;
  }

  lemma {:induction false} RunTells(s: Session, turns: seq<Turn>)
    requires Settled(s) && IsRun(s, turns)
    ensures |s.told| <= |After(s, turns).told|
    decreases |turns|
  {
    hide Settled, Handled, Reads;
    if turns != [] {
      TurnSettles(s, turns[0]);
      RunTells(Handled(s, turns[0].input, turns[0].timeLeft), turns[1..]);
    }
  }

  // After a callback, with a command waiting, the next request is told that command exactly when the session is for
  // several callbacks, the callback left more waiting, and time was left; otherwise the session is acknowledged.
  lemma NextGoesOnIff(s: Session, turn: Turn, timeLeft: bool)
    requires Settled(s) && Reads(s.state, turn.input)
    requires |Handled(s, turn.input, turn.timeLeft).told| > |s.told|
    requires Handled(s, turn.input, turn.timeLeft).rtia.commands != []
    ensures var s1 := Handled(s, turn.input, turn.timeLeft);
            var s2 := Handled(s1, FromFederate(TickNextRequest), timeLeft);
      && (s2.told == s1.told + [Evoked(s1.rtia.commands[0])] <==> s1.multiple && s1.result && turn.timeLeft)
      && (!(s1.multiple && s1.result && turn.timeLeft) ==>
            s2.told == s1.told && s2.acks == s1.acks + [s1.result] && s2.state == NoTick)
      && (s1.multiple && s1.result && turn.timeLeft ==> s2.acks == s1.acks)
  {
    var s1 := Handled(s, turn.input, turn.timeLeft);
    TurnDecides(s, turn);
    CommandIsTold(s1.rtia);
    hide Tick, Handled;
    NextTurn(s1, timeLeft);
  }

  lemma CommandIsTold(s: Rtia)
    requires s.commands != []
    ensures Tick(s).told == [Evoked(s.commands[0])]
  {
    hide AdvanceTime;
  }

  lemma NextTurn(s: Session, timeLeft: bool)
    requires s.state == TickCallback || s.state == TickReturn
    ensures var s' := Handled(s, FromFederate(TickNextRequest), timeLeft);
      if s.state == TickReturn then s'.told == s.told && s'.acks == s.acks + [s.result] && s'.state == NoTick
      else if Tick(s.rtia).told != [] then s'.told == s.told + Tick(s.rtia).told && s'.acks == s.acks
      else s'.told == s.told && s'.acks == s.acks + [Tick(s.rtia).more] && s'.state == NoTick
  {
    hide Tick;
  }

  lemma OngoingDecides(s: Session, timeLeft: bool)
    ensures var s' := Ongoing(s, timeLeft);
      && (|s'.told| > |s.told| ==>
            && s'.rtia == Tick(s.rtia).rtia && s'.result == Tick(s.rtia).more && s'.told == s.told + Tick(s.rtia).told
            && s'.multiple == s.multiple
            && s'.state == if s'.multiple && s'.result && timeLeft then TickCallback else TickReturn)
  {
    hide Tick;
  }

  // A turn that tells something leaves the session open for more exactly under these three conditions, and
  // `result` is what the tick said of more.
  lemma TurnDecides(s: Session, turn: Turn)
    requires Settled(s) && Reads(s.state, turn.input) && |Handled(s, turn.input, turn.timeLeft).told| > |s.told|
    ensures var s1 := Handled(s, turn.input, turn.timeLeft);
      && (s1.state == TickCallback <==> s1.multiple && s1.result && turn.timeLeft)
      && (s1.state != TickCallback ==> s1.state == TickReturn)
      && exists rtia ::
           s1.rtia == Tick(rtia).rtia && s1.result == Tick(rtia).more && s1.told == s.told + Tick(rtia).told
  {
    var s0 := match turn.input
      case FromNetwork(m) => if Receive(s.rtia, m).Some? then s.(rtia := Receive(s.rtia, m).value) else s
      case FromFederate(TickRequest(multiple, waits)) =>
        s.(multiple := multiple, result := false, state := if waits then TickBlocking else TickCallback)
      case FromFederate(TickStopRequest) => s.(state := TickReturn)
      case FromFederate(_) => s
      case Timeout => s.(state := TickReturn);
    OngoingDecides(s0, turn.timeLeft);
    hide Tick, Receive, Served, Ongoing;
    assert Handled(s, turn.input, turn.timeLeft) == Ongoing(s0, turn.timeLeft);
  }

  // A session that has nothing to tell at first waits exactly if the federate gave it time to; otherwise it is
  // acknowledged at once, as one with nothing more.
  lemma RequestWaitsIff(s: Session, multiple: bool, waits: bool, timeLeft: bool)
    requires s.state == NoTick && Tick(s.rtia).told == []
    ensures var s' := Handled(s, FromFederate(TickRequest(multiple, waits)), timeLeft);
      && s'.told == s.told
      && (s'.state == TickBlocking && s'.acks == s.acks <==> waits)
      && (s'.state == NoTick && s'.acks == s.acks + [false] <==> !waits)
  {
    TickTellsAtMostOne(s.rtia);
    hide Tick;
  }

  // While it waits, each message that comes in is followed by a tick, and running out of time ends it with nothing
  // told.
  lemma WaitingTurn(s: Session, m: Message, timeLeft: bool)
    requires Settled(s) && s.state == TickBlocking && Receive(s.rtia, m).Some?
    ensures Handled(s, FromNetwork(m), timeLeft).told == s.told + Tick(Receive(s.rtia, m).value).told
    ensures var s' := Handled(s, Timeout, timeLeft);
      s'.state == NoTick && s'.told == s.told && s'.acks == s.acks + [false] && s'.rtia == s.rtia
  {
    hide Tick, Receive;
  }

  // A stop ends the session, or none, without a tick.
  lemma StopTellsNothing(s: Session, timeLeft: bool)
    ensures var s' := Handled(s, FromFederate(TickStopRequest), timeLeft);
      s'.state == NoTick && s'.told == s.told && s'.acks == s.acks + [s.result] && s'.rtia == s.rtia
  {
  }

  // A message that comes in outside a session is taken and nothing is told.
  lemma IdleTakes(s: Session, m: Message, timeLeft: bool)
    requires s.state == NoTick && Receive(s.rtia, m).Some?
    ensures Handled(s, FromNetwork(m), timeLeft) == s.(rtia := Receive(s.rtia, m).value)
  {
    hide Receive;
  }

  // The network is read outside a session and while one waits for its callback, and then time may run out; the
  // federate is always heard.
  lemma ReadWhen(state: TickState, m: Message, request: Request)
    ensures Reads(state, FromNetwork(m)) <==> state != TickNext && state != TickCallback && state != TickReturn
    ensures Reads(state, Timeout) <==> state == TickBlocking
    ensures Reads(state, FromFederate(request))
  {
  }

  // A request to open a session within one, and to go on where no callback was, change nothing.
  lemma OutOfTurnIsRefused(s: Session, multiple: bool, waits: bool, timeLeft: bool)
    ensures s.state != NoTick ==> Handled(s, FromFederate(TickRequest(multiple, waits)), timeLeft) == s
    ensures s.state == NoTick || s.state == TickBlocking ==> Handled(s, FromFederate(TickNextRequest), timeLeft) == s
  {
  }

  // Any other service has the effect on the time state that it has outside a tick, and no effect on the session.
  lemma ServicesTakeEffect(s: Session, step: World.Step, timeLeft: bool)
    requires World.IsLocal(step) && !step.TickAt?
    ensures Handled(s, FromFederate(OtherRequest(step)), timeLeft) == s.(rtia := World.Local(s.rtia, step).rtia)
  {
    hide World.Local;
  }
}
