/** From the federate that sends an update or interaction to each that subscribes: nothing is lost, or told twice. */
module EventFlow {
  import opened FederationTime
  import opened Messages
  import opened TimeState
  import opened RtigState
  import opened World
  import opened CausalSafety
  import opened WorldInvariant
  import opened TimeLaws
  import opened Deliveries

  // An update or interaction of federate i, dated or not.
  predicate IsDataOf(m: Message, i: Handle) {
    (m.Timed? && m.event.src == i) || (m.Plain? && m.src == i)
  }

  // How often it is on its way to the RTIG, on its way from there to k, or waiting to be told to k.
  function Waiting(w: World, i: Handle, k: Handle, m: Message): nat
    requires i in w.up && k in w.down && k in w.rtias
  {
    multiset(w.up[i])[m] + multiset(w.down[k])[m] + Held(w.rtias[k])[m]
  }

  function Once(b: bool): nat {
    if b then 1 else 0
  }

  // Whether a step sets it on its way: i sends it, with a date it may use, or the RTIG tells k of itself.
  ghost predicate SetsOut(w: World, e: Step, i: Handle, k: Handle, m: Message)
    requires i in w.rtias
  {
    match e
    case SendTimed(h, date, id) => h == i && ValidTime(w.rtias[i], date) && m == Timed(Event(i, date, id))
    case SendPlain(h, id) => h == i && m == Plain(i, id)
    case RtigTells(h, told) => h == k && m == told
    case _ => false
  }

  // Whether the RTIG takes it and k does not subscribe to it.
  predicate PassesBy(w: World, e: Step, i: Handle, k: Handle, m: Message)
    requires i in w.up
  {
    e.RtigReads? && e.h == i && w.up[i] != [] && w.up[i][0] == m && k !in e.subscribers
  }

  // What k is told in a step.
  ghost function ToldIn(w: World, e: Step, k: Handle): multiset<Message>
    requires k in w.rtias
  {
    if IsLocal(e) && e.h == k then ToldOf(Local(w.rtias[k], e).told) else multiset{}
  }

  lemma NotSent(messages: seq<Message>, m: Message)
    requires m !in messages
    ensures multiset(messages)[m] == 0
  {
  }

  lemma MovesOne(s: seq<Message>, t: seq<Message>, m: Message)
    ensures multiset(s + t)[m] == multiset(s)[m] + multiset(t)[m]
    ensures s != [] ==> multiset(s)[m] == multiset(s[1..])[m] + Once(s[0] == m)
  {
    if s != [] {
      assert s == [s[0]] + s[1..];
    }
  }

  // ---- A federate moves ----

  lemma RequestSendsNoData(s: Rtia, e: Step, m: Message, i: Handle)
    requires (e.Request? || e.TickAt?) && IsDataOf(m, i)
    ensures m !in Local(s, e).sent
  {
    if e.TickAt? {
      TickSendsPromises(s);
    }
    hide Tick, AfterPromise, Rtia.Lbts;
  }

  lemma TickSendsPromises(s: Rtia)
    ensures forall m :: m in Tick(s).sent ==> m.Null?
  {
    hide Rtia.Lbts, AfterPromise, AfterGrant, FifoOpen, TargetReached;
  }

  lemma LocalSends(s: Rtia, e: Step, m: Message, i: Handle)
    requires IsLocal(e) && IsDataOf(m, i)
    ensures multiset(Local(s, e).sent)[m] == match e
      case SendTimed(h, date, id) => Once(ValidTime(s, date) && m == Timed(Event(h, date, id)))
      case SendPlain(h, id) => Once(m == Plain(h, id))
      case _ => 0
  {
    if e.Request? || e.TickAt? {
      RequestSendsNoData(s, e, m, i);
      NotSent(Local(s, e).sent, m);
    } else if !e.SendTimed? && !e.SendPlain? {
      assert m !in Local(s, e).sent;
      NotSent(Local(s, e).sent, m);
    }
    hide Tick, TimeAdvanceRequest, TimeAdvanceRequestAvailable, NextEventRequest, NextEventRequestAvailable;
  }

  lemma LocalHolds(s: Rtia, e: Step)
    requires IsLocal(e)
    ensures Held(s) == Held(Local(s, e).rtia) + ToldOf(Local(s, e).told)
  {
    ActHolds(s, Does(e));
    hide Held, Local, ToldOf;
  }

  ghost predicate Keyed(w: World) {
    w.rtias.Keys == w.up.Keys == w.down.Keys == w.rtig.members.Keys
  }

  lemma MoveShape(w: World, e: Step, i: Handle, k: Handle)
    requires Keyed(w) && Allowed(w, e) && IsLocal(e) && i in w.rtias && k in w.rtias
    ensures e.h in w.rtias
    ensures var o, w' := Local(w.rtias[e.h], e), Next(w, e);
      && Keyed(w')
      && i in w'.up && w'.up[i] == (if i == e.h then w.up[i] + o.sent else w.up[i])
      && k in w'.down && w'.down[k] == w.down[k]
      && k in w'.rtias && w'.rtias[k] == (if k == e.h then o.rtia else w.rtias[k])
  {
    hide Local, Disciplined;
  }

  lemma MoveSetsOut(w: World, e: Step, i: Handle, k: Handle, m: Message)
    requires IsLocal(e) && i in w.rtias && i in w.up && IsDataOf(m, i)
    ensures Once(SetsOut(w, e, i, k, m)) == if e.h == i then multiset(Local(w.rtias[i], e).sent)[m] else 0
    ensures !PassesBy(w, e, i, k, m)
  {
    LocalSends(w.rtias[i], e, m, i);
    hide Local, ValidTime;
  }

  lemma MoveFlows(w: World, e: Step, i: Handle, k: Handle, m: Message)
    requires Keyed(w) && Allowed(w, e) && IsLocal(e) && i in w.rtias && k in w.rtias && i != k && IsDataOf(m, i)
    ensures Flows(w, e, i, k, m)
  {
    MoveShape(w, e, i, k);
    MoveSetsOut(w, e, i, k, m);
    hide *;
    LocalHolds(w.rtias[k], e);
    MovesOne(w.up[i], Local(w.rtias[i], e).sent, m);
    MoveAdds(w, e, i, k, m);
  }

  lemma MoveAdds(w: World, e: Step, i: Handle, k: Handle, m: Message)
    requires Keyed(w) && IsLocal(e) && e.h in w.rtias && i in w.rtias && k in w.rtias && i != k
    requires var o, w' := Local(w.rtias[e.h], e), Next(w, e);
      && Keyed(w')
      && i in w'.up && w'.up[i] == (if i == e.h then w.up[i] + o.sent else w.up[i])
      && k in w'.down && w'.down[k] == w.down[k]
      && k in w'.rtias && w'.rtias[k] == (if k == e.h then o.rtia else w.rtias[k])
      && Once(SetsOut(w, e, i, k, m)) == (if e.h == i then multiset(o.sent)[m] else 0) && !PassesBy(w, e, i, k, m)
      && (e.h == i ==> multiset(w.up[i] + o.sent)[m] == multiset(w.up[i])[m] + multiset(o.sent)[m])
      && (e.h == k ==> Held(w.rtias[k]) == Held(o.rtia) + ToldOf(o.told))
    ensures Flows(w, e, i, k, m)
  {
    hide Held, Local, ToldOf, Next, SetsOut, PassesBy;
  }

  // ---- The RTIG reads ----

  // Each subscriber but the sender gets it once.
  lemma DataForwards(r: Rtig, m: Message, i: Handle, subscribers: set<Handle>, k: Handle)
    requires IsDataOf(m, i)
    ensures For(Process(r, m, subscribers).responses, k) == if k in subscribers && k != i then [m] else []
  {
    ForOne(Response(subscribers - {i}, m), k);
    hide For;
  }

  lemma ForwardsLittle(f: seq<Message>, read: Message, h: Handle, k: Handle)
    requires Forwards(f, read, h, k)
    ensures forall x :: x in f ==> x == read || x.Command?
  {
  }

  lemma OthersForward(r: Rtig, read: Message, h: Handle, subscribers: set<Handle>, i: Handle, k: Handle, m: Message)
    requires Passes(r, Process(r, read, subscribers), read, h) && k in r.members
    requires m != read && !m.Command?
    ensures multiset(For(Process(r, read, subscribers).responses, k))[m] == 0
  {
    var f := For(Process(r, read, subscribers).responses, k);
    assert Forwards(f, read, h, k) by { hide Process, For, Forwards, FlagsOk, Heard; }
    hide *;
    ForwardsLittle(f, read, h, k);
    NotSent(f, m);
  }

  lemma ReadShape(w: World, e: Step, i: Handle, k: Handle)
    requires Keyed(w) && Allowed(w, e) && e.RtigReads? && i in w.rtias && k in w.rtias
    ensures e.h in w.up && w.up[e.h] != []
    ensures var a, w' := Process(w.rtig, w.up[e.h][0], e.subscribers), Next(w, e);
      && i in w'.up && w'.up[i] == (if i == e.h then w.up[i][1..] else w.up[i])
      && k in w'.down && w'.down[k] == w.down[k] + For(a.responses, k)
      && i in w'.rtias && k in w'.rtias && w'.rtias[k] == w.rtias[k]
  {
    hide Process, For;
  }

  // What the RTIG passes on to k of what it reads.
  lemma ReadPasses(w: World, e: Step, i: Handle, k: Handle, m: Message)
    requires Invariant(w) && Allowed(w, e) && e.RtigReads? && i in w.rtias && k in w.rtias && i != k && IsDataOf(m, i)
    ensures e.h in w.up && w.up[e.h] != []
    ensures multiset(For(Process(w.rtig, w.up[e.h][0], e.subscribers).responses, k))[m]
         == Once(e.h == i && w.up[i][0] == m && k in e.subscribers)
  {
    InvariantKeys(w);
    assert FlagsOk(w.rtig);
    ReadShape(w, e, i, k);
    hide Invariant, Allowed;
    var h, read := e.h, w.up[e.h][0];
    UpHead(w, h);
    ProcessForwards(w.rtig, read, h, e.subscribers);
    hide Process, For, Passes, FlagsOk, Fits;
    if h == i && IsDataOf(read, i) {
      DataForwards(w.rtig, read, i, e.subscribers, k);
    } else {
      assert m != read && !m.Command?;
      OthersForward(w.rtig, read, h, e.subscribers, i, k, m);
    }
  }

  lemma ReadFlows(w: World, e: Step, i: Handle, k: Handle, m: Message)
    requires Invariant(w) && Allowed(w, e) && e.RtigReads? && i in w.rtias && k in w.rtias && i != k && IsDataOf(m, i)
    ensures i in w.up && k in w.down && Flows(w, e, i, k, m)
  {
    InvariantKeys(w);
    ReadShape(w, e, i, k);
    ReadPasses(w, e, i, k, m);
    hide *;
    var f := For(Process(w.rtig, w.up[e.h][0], e.subscribers).responses, k);
    MovesOne(w.up[i], [], m);
    MovesOne(w.down[k], f, m);
    ReadAdds(w, e, i, k, m, f);
  }

  lemma ReadAdds(w: World, e: Step, i: Handle, k: Handle, m: Message, f: seq<Message>)
    requires e.RtigReads? && i in w.rtias && k in w.rtias && i in w.up && k in w.down
    requires i != e.h || w.up[i] != []
    requires var w' := Next(w, e);
      && i in w'.up && w'.up[i] == (if i == e.h then w.up[i][1..] else w.up[i])
      && k in w'.down && w'.down[k] == w.down[k] + f
      && i in w'.rtias && k in w'.rtias && w'.rtias[k] == w.rtias[k]
    requires multiset(f)[m] == Once(e.h == i && w.up[i][0] == m && k in e.subscribers)
    requires multiset(w.down[k] + f)[m] == multiset(w.down[k])[m] + multiset(f)[m]
    requires e.h == i ==> multiset(w.up[i])[m] == multiset(w.up[i][1..])[m] + Once(w.up[i][0] == m)
    ensures Flows(w, e, i, k, m)
  {
    hide Held, Next;
  }

  // ---- The other steps ----

  lemma TakeShape(w: World, e: Step, i: Handle, k: Handle)
    requires Keyed(w) && Allowed(w, e) && e.RtiaReads? && i in w.rtias && k in w.rtias
    ensures e.h in w.rtias && e.h in w.down && w.down[e.h] != []
    ensures var got, w' := Receive(w.rtias[e.h], w.down[e.h][0]), Next(w, e);
      if got.None? then w' == w
      else
        && i in w'.up && w'.up[i] == w.up[i]
        && k in w'.down && w'.down[k] == (if k == e.h then w.down[k][1..] else w.down[k])
        && i in w'.rtias && k in w'.rtias && w'.rtias[k] == (if k == e.h then got.value else w.rtias[k])
  {
    hide Receive, RegulatorInTime;
  }

  lemma TakeFlows(w: World, e: Step, i: Handle, k: Handle, m: Message)
    requires Keyed(w) && Allowed(w, e) && e.RtiaReads? && i in w.rtias && k in w.rtias && i != k && IsDataOf(m, i)
    ensures Flows(w, e, i, k, m)
  {
    hide Held, Receive, Next, Allowed;
    TakeShape(w, e, i, k);
    ReceiveHolds(w.rtias[e.h], w.down[e.h][0]);
    MovesOne(w.down[e.h], [], m);
  }

  lemma OtherShape(w: World, e: Step, i: Handle, k: Handle)
    requires Keyed(w) && Allowed(w, e) && (e.RtigTells? || e.Join?) && i in w.rtias && k in w.rtias
    ensures var w' := Next(w, e);
      && i in w'.up && w'.up[i] == w.up[i]
      && k in w'.down && w'.down[k] == w.down[k] + (if e.RtigTells? && e.h == k then [e.message] else [])
      && i in w'.rtias && k in w'.rtias && w'.rtias[k] == w.rtias[k]
  {
    hide Add;
  }

  lemma OtherFlows(w: World, e: Step, i: Handle, k: Handle, m: Message)
    requires Keyed(w) && Allowed(w, e) && (e.RtigTells? || e.Join?)
    requires i in w.rtias && k in w.rtias && i != k && IsDataOf(m, i)
    ensures Flows(w, e, i, k, m)
  {
    hide Held, Next, Allowed, IsDataOf;
    OtherShape(w, e, i, k);
    if e.RtigTells? {
      MovesOne(w.down[k], [e.message], m);
    }
  }

  // A step moves it on, adds it when it sets out, and takes it away when k is told or does not subscribe.
  ghost predicate Flows(w: World, e: Step, i: Handle, k: Handle, m: Message)
    requires i in w.rtias && k in w.rtias && i in w.up && k in w.down
  {
    var w' := Next(w, e);
    && i in w'.rtias && k in w'.rtias && i in w'.up && k in w'.down
    && Waiting(w, i, k, m) + Once(SetsOut(w, e, i, k, m))
       == Waiting(w', i, k, m) + Once(PassesBy(w, e, i, k, m)) + ToldIn(w, e, k)[m]
  }

  lemma StepFlows(w: World, e: Step, i: Handle, k: Handle, m: Message)
    requires Invariant(w) && Allowed(w, e) && i in w.rtias && k in w.rtias && i != k && IsDataOf(m, i)
    ensures i in w.up && k in w.down && Flows(w, e, i, k, m)
  {
    InvariantKeys(w);
    assert Keyed(w) && (IsLocal(e) || e.RtigReads? || e.RtiaReads? || e.RtigTells? || e.Join?);
    hide *;
    if e.RtigReads? {
      ReadFlows(w, e, i, k, m);
    } else if e.RtiaReads? {
      TakeFlows(w, e, i, k, m);
    } else if e.RtigTells? || e.Join? {
      OtherFlows(w, e, i, k, m);
    } else {
      MoveFlows(w, e, i, k, m);
    }
  }

  // ---- Over runs ----

  ghost predicate Here(w: World, i: Handle, k: Handle) {
    i in w.rtias && k in w.rtias && i in w.up && k in w.down
  }

  ghost function TimesSetOut(w: World, steps: seq<Step>, i: Handle, k: Handle, m: Message): nat
    requires Invariant(w) && IsRun(w, steps) && Here(w, i, k) && i != k && IsDataOf(m, i)
    decreases |steps|
  {
    if steps == [] then 0 else
      StepKeepsInvariant(w, steps[0]);
      StepFlows(w, steps[0], i, k, m);
      Once(SetsOut(w, steps[0], i, k, m)) + TimesSetOut(Next(w, steps[0]), steps[1..], i, k, m)
  }

  ghost function TimesPassedBy(w: World, steps: seq<Step>, i: Handle, k: Handle, m: Message): nat
    requires Invariant(w) && IsRun(w, steps) && Here(w, i, k) && i != k && IsDataOf(m, i)
    decreases |steps|
  {
    if steps == [] then 0 else
      StepKeepsInvariant(w, steps[0]);
      StepFlows(w, steps[0], i, k, m);
      Once(PassesBy(w, steps[0], i, k, m)) + TimesPassedBy(Next(w, steps[0]), steps[1..], i, k, m)
  }

  ghost function TimesTold(w: World, steps: seq<Step>, i: Handle, k: Handle, m: Message): nat
    requires Invariant(w) && IsRun(w, steps) && Here(w, i, k) && i != k && IsDataOf(m, i)
    decreases |steps|
  {
    if steps == [] then 0 else
      StepKeepsInvariant(w, steps[0]);
      StepFlows(w, steps[0], i, k, m);
      ToldIn(w, steps[0], k)[m] + TimesTold(Next(w, steps[0]), steps[1..], i, k, m)
  }

  // Over any run, whatever i sends that k subscribes to when the RTIG takes it has been told to k once, or is on its
  // way in one place: never lost, never told twice.
  lemma {:induction false} EveryEventArrivesOnce(w: World, steps: seq<Step>, i: Handle, k: Handle, m: Message)
    requires Invariant(w) && IsRun(w, steps) && Here(w, i, k) && i != k && IsDataOf(m, i)
    ensures Here(After(w, steps), i, k)
    ensures Waiting(w, i, k, m) + TimesSetOut(w, steps, i, k, m)
         == Waiting(After(w, steps), i, k, m) + TimesPassedBy(w, steps, i, k, m) + TimesTold(w, steps, i, k, m)
    decreases |steps|
  {
    hide Invariant, Allowed, Next, Waiting, SetsOut, PassesBy, ToldIn, IsDataOf;
    if steps != [] {
      StepKeepsInvariant(w, steps[0]);
      StepFlows(w, steps[0], i, k, m);
      EveryEventArrivesOnce(Next(w, steps[0]), steps[1..], i, k, m);
    }
  }
}
