/** Zero lookahead on a grid: when all dates asked for and sent are multiples of a step of at least `EPSILON2`,
    the distance that stands in for zero lookahead keeps itself, and so does every promise.
 */
module GridRuns {
  import opened FederationTime
  import opened Messages
  import opened Queues
  import opened TimeState
  import opened RtigState
  import opened World
  import opened CausalSafety
  import opened Guarantees
  import opened Promises
  import opened TimeLaws

  // ---- Multiples of a step ----

  function Multiple(n: int, step: real): real {
    n as real * step
  }

  ghost predicate OnGrid(date: Time, step: real) {
    date.Infinity? || exists n: int :: date.t == Multiple(n, step)
  }

  lemma ZeroOnGrid(step: real)
    ensures OnGrid(ZERO, step)
  {
    assert ZERO.t == Multiple(0, step);
  }

  lemma MultiplesAreApart(n: int, step: real)
    requires step > 0.0
    ensures if n <= 0 then Multiple(n, step) <= 0.0 else step <= Multiple(n, step)
  {
    if n > 0 {
      assert Multiple(n, step) == Multiple(n - 1, step) + step;
    }
  }

  lemma GridIsApart(a: Time, b: Time, step: real)
    requires EPSILON2 <= step && OnGrid(a, step) && OnGrid(b, step) && a.Lt(b)
    ensures a.Plus(EPSILON2).Le(b)
  {
    if b.At? {
      var m: int :| a.t == Multiple(m, step);
      var n: int :| b.t == Multiple(n, step);
      MultiplesAreApart(n - m, step);
      assert b.t - a.t == Multiple(n - m, step);
    }
  }

  // ---- What is on the grid ----

  ghost predicate StateOnGrid(s: Rtia, step: real) {
    OnGrid(s.now, step) && OnGrid(s.date, step) && forall e :: e in s.tsos ==> OnGrid(e.date, step)
  }

  ghost predicate StreamOnGrid(stream: seq<Message>, step: real) {
    forall m :: m in stream && m.Timed? ==> OnGrid(m.event.date, step)
  }

  ghost predicate WorldOnGrid(w: World, step: real) {
    && (forall h :: h in w.rtias ==> StateOnGrid(w.rtias[h], step))
    && (forall h :: h in w.up ==> StreamOnGrid(w.up[h], step))
    && (forall h :: h in w.down ==> StreamOnGrid(w.down[h], step))
  }

  // The promise of a zero-lookahead request is kept by exactly the events that the RTIA lets through.
  lemma GridKeepsPromise(s: Rtia, date: Time, step: real)
    requires EPSILON2 <= step && StateOnGrid(s, step) && OnGrid(date, step)
    requires s.kind == AfterTarOrNerZeroLookahead && Goal(s).At?
    ensures ValidTime(s, date) <==> Goal(s).Plus(EPSILON2).Le(date)
  {
    if ValidTime(s, date) {
      GridIsApart(Goal(s), date, step);
    }
  }

  // ---- Runs on the grid ----

  // The conditions on a federate, without any distance: of an available advance with zero lookahead only that
  // it is an advance.
  ghost predicate GridDisciplined(s: Rtia, e: Step, step: real)
    requires IsLocal(e)
  {
    match e
    case Request(_, TARA, date) =>
      OnGrid(date, step) && (s.regulating && s.kind == AfterTarOrNerZeroLookahead ==> s.now != date)
    case Request(_, NERA, date) => RequestError(s, date) == NoError
    case Request(_, _, date) => OnGrid(date, step)
    case SendTimed(_, date, _) => s.regulating && OnGrid(date, step)
    case _ => Disciplined(s, e)
  }

  ghost predicate GridAllowed(w: World, e: Step, step: real) {
    if IsLocal(e) then e.h in w.rtias && e.h in w.up && GridDisciplined(w.rtias[e.h], e, step) else Allowed(w, e)
  }

  // That the steps are allowed is not assumed: it follows.
  ghost predicate IsGridRun(w: World, steps: seq<Step>, step: real)
    decreases |steps|
  {
    steps == [] ||
    (GridAllowed(w, steps[0], step) && (Allowed(w, steps[0]) ==> IsGridRun(Next(w, steps[0]), steps[1..], step)))
  }

  lemma GridDisciplineIsDiscipline(s: Rtia, e: Step, step: real)
    requires IsLocal(e) && EPSILON2 <= step && StateOnGrid(s, step) && GridDisciplined(s, e, step)
    ensures Disciplined(s, e)
  {
    match e
    case Request(_, TARA, date) =>
      if s.now.Lt(date) { GridIsApart(s.now, date, step); }
    case SendTimed(_, date, _) =>
      if Goal(s).Lt(date) { GridIsApart(Goal(s), date, step); }
    case _ =>
  }

  lemma GridStepIsAllowed(w: World, e: Step, step: real)
    requires EPSILON2 <= step && WorldOnGrid(w, step) && GridAllowed(w, e, step)
    ensures Allowed(w, e)
  {
    hide Disciplined, GridDisciplined, StateOnGrid;
    if IsLocal(e) {
      GridDisciplineIsDiscipline(w.rtias[e.h], e, step);
    }
  }

  // ---- Every step stays on the grid ----

  lemma NextEventStaysOnGrid(s: Rtia, step: real)
    requires StateOnGrid(s, step)
    ensures StateOnGrid(NextEventAdvance(s).rtia, step)
  {
    if s.tsos != [] {
      assert s.tsos[0] in s.tsos;
    }
    NextEventForms(s);
    hide NextEventAdvance, TargetReached, Rtia.Lbts, OnGrid;
  }

  lemma TimeAdvanceStaysOnGrid(s: Rtia, step: real)
    requires StateOnGrid(s, step)
    ensures StateOnGrid(TimeAdvance(s).rtia, step)
  {
    hide Rtia.Lbts, OnGrid;
  }

  lemma TickStaysOnGrid(s: Rtia, step: real)
    requires StateOnGrid(s, step)
    ensures StateOnGrid(Tick(s).rtia, step) && StreamOnGrid(Tick(s).sent, step)
  {
    TickSendsNoEvent(s);
    hide NextEventAdvance, TimeAdvance, OnGrid;
    NextEventStaysOnGrid(s, step);
    TimeAdvanceStaysOnGrid(s, step);
  }

  lemma TickSendsNoEvent(s: Rtia)
    ensures forall m :: m in Tick(s).sent ==> !m.Timed?
  {
    hide Rtia.Lbts;
  }

  lemma LocalStaysOnGrid(s: Rtia, e: Step, step: real)
    requires IsLocal(e) && !e.TickAt? && StateOnGrid(s, step) && GridDisciplined(s, e, step)
    ensures StateOnGrid(Local(s, e).rtia, step) && StreamOnGrid(Local(s, e).sent, step)
  {
    if e.Request? {
      RequestStaysOnGrid(s, e, step);
    } else {
      hide OnGrid, Disciplined;
    }
  }

  lemma RequestStaysOnGrid(s: Rtia, e: Step, step: real)
    requires e.Request? && StateOnGrid(s, step) && GridDisciplined(s, e, step)
    ensures StateOnGrid(Local(s, e).rtia, step) && StreamOnGrid(Local(s, e).sent, step)
  {
    hide OnGrid;
    RequestSendsNoEvent(s, e);
    hide AfterPromise, PromiseSent;
    PromiseLeaves(WithSomeLookahead(s), e.date);
    PromiseLeaves(s.(kind := AfterTaraOrNera), e.date);
  }

  lemma RequestSendsNoEvent(s: Rtia, e: Step)
    requires e.Request?
    ensures forall m :: m in Local(s, e).sent ==> !m.Timed?
  {
  }

  lemma ReceiveStaysOnGrid(s: Rtia, m: Message, step: real)
    requires StateOnGrid(s, step) && StreamOnGrid([m], step) && Receive(s, m).Some?
    ensures StateOnGrid(Receive(s, m).value, step)
  {
    hide OnGrid;
    if m.Timed? {
      assert m in [m];
      InsertedMembers(s.tsos, m.event);
    }
  }

  lemma {:induction false} ForStaysOnGrid(responses: seq<Response>, h: Handle, step: real)
    requires forall r :: r in responses ==> StreamOnGrid([r.message], step)
    ensures StreamOnGrid(For(responses, h), step)
    decreases |responses|
  {
    hide OnGrid;
    if responses != [] {
      ForStaysOnGrid(responses[1..], h, step);
      assert responses[0] in responses && responses[0].message in [responses[0].message];
    }
  }

  lemma ProcessStaysOnGrid(r: Rtig, m: Message, subscribers: set<Handle>, step: real)
    requires StreamOnGrid([m], step)
    ensures forall a :: a in Process(r, m, subscribers).responses ==> StreamOnGrid([a.message], step)
  {
    hide OnGrid;
  }

  lemma HeadOnGrid(stream: seq<Message>, step: real)
    requires StreamOnGrid(stream, step) && stream != []
    ensures StreamOnGrid([stream[0]], step) && StreamOnGrid(stream[1..], step)
  {
    hide OnGrid;
  }

  lemma ConcatOnGrid(a: seq<Message>, b: seq<Message>, step: real)
    requires StreamOnGrid(a, step) && StreamOnGrid(b, step)
    ensures StreamOnGrid(a + b, step)
  {
    hide OnGrid;
  }

  lemma MoveStaysOnGrid(w: World, h: Handle, o: Outcome, step: real)
    requires WorldOnGrid(w, step) && h in w.up && StateOnGrid(o.rtia, step) && StreamOnGrid(o.sent, step)
    ensures WorldOnGrid(Moved(w, h, o), step)
  {
    hide StateOnGrid, StreamOnGrid;
    ConcatOnGrid(w.up[h], o.sent, step);
  }

  lemma RtigReadStaysOnGrid(w: World, h: Handle, subscribers: set<Handle>, step: real)
    requires WorldOnGrid(w, step) && h in w.up && w.up[h] != []
    ensures WorldOnGrid(RtigRead(w, h, subscribers), step)
  {
    HeadOnGrid(w.up[h], step);
    ProcessStaysOnGrid(w.rtig, w.up[h][0], subscribers, step);
    hide StateOnGrid, StreamOnGrid, Process;
    var responses := Process(w.rtig, w.up[h][0], subscribers).responses;
    forall k | k in w.down ensures StreamOnGrid(w.down[k] + For(responses, k), step) {
      ForStaysOnGrid(responses, k, step);
      ConcatOnGrid(w.down[k], For(responses, k), step);
    }
  }

  lemma RtiaReadStaysOnGrid(w: World, h: Handle, step: real)
    requires WorldOnGrid(w, step) && h in w.rtias && h in w.down && w.down[h] != []
    ensures WorldOnGrid(RtiaRead(w, h), step)
  {
    hide StateOnGrid, StreamOnGrid, Receive;
    HeadOnGrid(w.down[h], step);
    if Receive(w.rtias[h], w.down[h][0]).Some? {
      ReceiveStaysOnGrid(w.rtias[h], w.down[h][0], step);
    }
  }

  lemma TellStaysOnGrid(w: World, h: Handle, m: Message, step: real)
    requires WorldOnGrid(w, step) && h in w.down && !m.Timed?
    ensures WorldOnGrid(Told(w, h, m), step)
  {
    hide StateOnGrid, OnGrid;
  }

  lemma JoinStaysOnGrid(w: World, h: Handle, step: real)
    requires WorldOnGrid(w, step) && h !in w.rtig.members
    ensures WorldOnGrid(Joined(w, h), step)
  {
    ZeroOnGrid(step);
    hide OnGrid, Add;
  }

  lemma StepStaysOnGrid(w: World, e: Step, step: real)
    requires WorldOnGrid(w, step) && Allowed(w, e) && GridAllowed(w, e, step)
    ensures WorldOnGrid(Next(w, e), step)
  {
    hide StateOnGrid, StreamOnGrid, WorldOnGrid, Receive, Process, Tick, Local, Add, GridDisciplined, Disciplined;
    if e.RtigReads? {
      RtigReadStaysOnGrid(w, e.h, e.subscribers, step);
    } else if e.RtiaReads? {
      RtiaReadStaysOnGrid(w, e.h, step);
    } else if e.RtigTells? {
      TellStaysOnGrid(w, e.h, e.message, step);
    } else if e.Join? {
      JoinStaysOnGrid(w, e.h, step);
    } else {
      StateOf(w, e.h, step);
      if e.TickAt? {
        TickStaysOnGrid(w.rtias[e.h], step);
        TickIsLocal(w.rtias[e.h], e);
      } else {
        LocalStaysOnGrid(w.rtias[e.h], e, step);
      }
      MoveStaysOnGrid(w, e.h, Local(w.rtias[e.h], e), step);
    }
  }

  lemma StateOf(w: World, h: Handle, step: real)
    requires WorldOnGrid(w, step) && h in w.rtias
    ensures StateOnGrid(w.rtias[h], step)
  {
  }

  // ---- What follows for runs ----

  // Every run on the grid is a run as the other theorems have it.
  lemma {:induction false} GridRunsAreRuns(w: World, steps: seq<Step>, step: real)
    requires EPSILON2 <= step && WorldOnGrid(w, step) && IsGridRun(w, steps, step)
    ensures IsRun(w, steps) && WorldOnGrid(After(w, steps), step)
    decreases |steps|
  {
    hide WorldOnGrid, GridAllowed, Allowed, Next;
    if steps != [] {
      GridStepIsAllowed(w, steps[0], step);
      StepStaysOnGrid(w, steps[0], step);
      GridRunsAreRuns(Next(w, steps[0]), steps[1..], step);
    }
  }

  lemma NothingIsOffGrid(step: real)
    ensures WorldOnGrid(EMPTY, step)
  {
  }

  // In every run on the grid, with zero lookahead as with any other, promises are honest.
  lemma PromisesAreHonestOnGrid(steps: seq<Step>, step: real, h: Handle)
    requires EPSILON2 <= step && IsGridRun(EMPTY, steps, step)
    ensures IsRun(EMPTY, steps)
    ensures Honest(None, SentUp(EMPTY, steps, h), h) && NullsAscend(ZERO, SentUp(EMPTY, steps, h))
  {
    hide *;
    NothingIsOffGrid(step);
    GridRunsAreRuns(EMPTY, steps, step);
    PromisesAreHonest(steps, h);
  }

  // And after every such run no event arrives below its receiver's LBTS, its time or its sender's clock.
  lemma CausalArrivalOnGrid(steps: seq<Step>, step: real, j: Handle)
    requires EPSILON2 <= step && IsGridRun(EMPTY, steps, step)
    ensures IsRun(EMPTY, steps)
    ensures var w := After(EMPTY, steps);
      j in w.rtias && j in w.down && w.down[j] != [] && RegulatorInTime(w.rtias[j], w.down[j][0]) ==>
        && Receive(w.rtias[j], w.down[j][0]).Some?
        && (w.down[j][0].Timed? ==> var s, e := w.rtias[j], w.down[j][0].event;
              && e.src in s.clocks && s.clocks[e.src].Le(e.date)
              && (s.constrained ==> s.Lbts().Le(e.date) && s.now.Le(e.date)))
  {
    NothingIsOffGrid(step);
    GridRunsAreRuns(EMPTY, steps, step);
    var w := After(EMPTY, steps);
    assert Reachable(w);
    hide *;
    if j in w.rtias && j in w.down && w.down[j] != [] && RegulatorInTime(w.rtias[j], w.down[j][0]) {
      CausalArrival(w, j);
    }
  }
}
