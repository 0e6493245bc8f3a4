/** The RTIG's flag of who is constrained is a delayed copy of the RTIAs', in every run. */
module ConstraintCopy {
  import opened FederationTime
  import opened Messages
  import opened TimeState
  import opened RtigState
  import opened World
  import opened CausalSafety
  import opened WorldInvariant
  import opened TimeLaws
  import opened EventFlow

  // The flag once the messages have been read.
  function FlagAfter(flag: bool, messages: seq<Message>): bool
    decreases |messages|
  {
    if messages == [] then flag
    else FlagAfter(if messages[0].Constraining? then messages[0].on else flag, messages[1..])
  }

  lemma {:induction false} FlagConcat(flag: bool, a: seq<Message>, b: seq<Message>)
    ensures FlagAfter(flag, a + b) == FlagAfter(FlagAfter(flag, a), b)
    decreases |a|
  {
    if a == [] {
      assert a + b == b;
    } else {
      assert (a + b)[0] == a[0] && (a + b)[1..] == a[1..] + b;
      FlagConcat(if a[0].Constraining? then a[0].on else flag, a[1..], b);
    }
  }

  lemma {:induction false} FlagStays(flag: bool, messages: seq<Message>)
    requires forall m :: m in messages ==> !m.Constraining?
    ensures FlagAfter(flag, messages) == flag
    decreases |messages|
  {
    if messages != [] {
      assert messages[0] in messages;
      FlagStays(flag, messages[1..]);
    }
  }

  // What is on its way to the RTIG brings its flag of h to that of the RTIA.
  ghost predicate Follows(w: World, h: Handle) {
    && h in w.rtias && h in w.up && h in w.rtig.members
    && FlagAfter(w.rtig.members[h].constrained, w.up[h]) == w.rtias[h].constrained
  }

  lemma OneFlag(flag: bool, m: Message)
    ensures FlagAfter(flag, [m]) == if m.Constraining? then m.on else flag
  {
    assert [m][1..] == [];
  }

  // ---- A federate moves ----

  lemma TickFlag(s: Rtia)
    ensures Tick(s).rtia.constrained == s.constrained
  {
    TickDoesOneThing(s);
    NextEventForms(s);
    hide Rtia.Lbts, AfterPromise, NextEventAdvance, Due;
  }

  ghost predicate LeavesFlag(s: Rtia, o: Outcome) {
    o.rtia.constrained == s.constrained && forall m :: m in o.sent ==> !m.Constraining?
  }

  lemma AdvanceRequestFlag(s: Rtia, date: Time)
    ensures LeavesFlag(s, TimeAdvanceRequest(s, date))
  {
  }

  lemma AdvanceRequestAvailableFlag(s: Rtia, date: Time)
    ensures LeavesFlag(s, TimeAdvanceRequestAvailable(s, date))
  {
  }

  lemma NextRequestFlag(s: Rtia, date: Time)
    ensures LeavesFlag(s, NextEventRequest(s, date)) && LeavesFlag(s, NextEventRequestAvailable(s, date))
  {
  }

  lemma RequestFlag(s: Rtia, e: Step)
    requires e.Request?
    ensures LeavesFlag(s, Local(s, e))
  {
    AdvanceRequestFlag(s, e.date);
    AdvanceRequestAvailableFlag(s, e.date);
    NextRequestFlag(s, e.date);
    hide TimeAdvanceRequest, TimeAdvanceRequestAvailable, NextEventRequest, NextEventRequestAvailable;
  }

  lemma LocalFlag(s: Rtia, e: Step)
    requires IsLocal(e)
    ensures FlagAfter(s.constrained, Local(s, e).sent) == Local(s, e).rtia.constrained
  {
    if e.Request? {
      RequestFlag(s, e);
      FlagStays(s.constrained, Local(s, e).sent);
    } else if e.TickAt? {
      TickFlag(s);
      TickSendsPromises(s);
      FlagStays(s.constrained, Tick(s).sent);
    } else if e.EnableConstrained? || e.DisableConstrained? {
      OneFlag(s.constrained, Constraining(s.me, e.EnableConstrained?));
    } else {
      FlagStays(s.constrained, Local(s, e).sent);
    }
    hide Tick, FlagAfter, TimeAdvanceRequest, TimeAdvanceRequestAvailable, NextEventRequest, NextEventRequestAvailable,
         SetLookahead;
  }

  lemma MoveFollows(w: World, e: Step, h: Handle)
    requires Keyed(w) && Allowed(w, e) && IsLocal(e) && Follows(w, h)
    ensures Follows(Next(w, e), h)
  {
    assert e.h in w.rtias && e.h in w.up && Next(w, e) == Moved(w, e.h, Local(w.rtias[e.h], e)) by {
      hide Local, Disciplined;
    }
    hide Local, Next, Allowed;
    var o := Local(w.rtias[e.h], e);
    if e.h == h {
      LocalFlag(w.rtias[h], e);
      FlagConcat(w.rtig.members[h].constrained, w.up[h], o.sent);
    }
    hide FlagAfter;
  }

  // ---- The RTIG reads ----

  lemma AddedFlag(r: Rtig, h: Handle, date: Time, k: Handle)
    requires k in r.members
    ensures var r' := AddRegulator(r, h, date).rtig;
      k in r'.members && r'.members[k].constrained == r.members[k].constrained
  {
  }

  lemma RemovedFlag(r: Rtig, h: Handle, k: Handle)
    requires k in r.members
    ensures var r' := RemoveRegulator(r, h).rtig;
      k in r'.members && r'.members[k].constrained == r.members[k].constrained
  {
  }

  lemma ConstrainedFlag(r: Rtig, h: Handle, on: bool, k: Handle)
    requires k in r.members
    ensures var r' := SetConstrained(r, h, on).rtig;
      k in r'.members && r'.members[k].constrained == if h == k then on else r.members[k].constrained
  {
  }

  lemma ProcessFlags(r: Rtig, m: Message, subscribers: set<Handle>, k: Handle)
    requires k in r.members
    ensures var r' := Process(r, m, subscribers).rtig;
      k in r'.members
      && r'.members[k].constrained == if m.Constraining? && m.src == k then m.on else r.members[k].constrained
  {
    hide AddRegulator, RemoveRegulator, SetConstrained;
    match m
    case RegulatorOn(src, date) => AddedFlag(r, src, date, k);
    case RegulatorOff(src) => RemovedFlag(r, src, k);
    case Constraining(src, on) => ConstrainedFlag(r, src, on, k);
    case _ =>
  }

  lemma ReadFollows(w: World, e: Step, h: Handle)
    requires Keyed(w) && Allowed(w, e) && e.RtigReads? && Follows(w, h)
    requires forall m :: m in w.up[e.h] ==> SpokenBy(m, e.h)
    ensures Follows(Next(w, e), h)
  {
    assert e.h in w.up && w.up[e.h] != [] && Next(w, e) == RtigRead(w, e.h, e.subscribers) by { hide Process; }
    hide Next, Allowed, Process;
    var m := w.up[e.h][0];
    assert SpokenBy(m, e.h);
    ProcessFlags(w.rtig, m, e.subscribers, h);
  }

  // ---- The other steps ----

  lemma OtherFollows(w: World, e: Step, h: Handle)
    requires Keyed(w) && Allowed(w, e) && (e.RtiaReads? || e.RtigTells? || e.Join?) && Follows(w, h)
    ensures Follows(Next(w, e), h)
  {
    if e.RtiaReads? {
      ReceiveFlag(w.rtias[e.h], w.down[e.h][0]);
    }
    hide Receive, FlagAfter;
  }

  lemma ReceiveFlag(s: Rtia, m: Message)
    ensures Receive(s, m).Some? ==> Receive(s, m).value.constrained == s.constrained
  {
  }

  lemma UpIsSpoken(w: World, h: Handle)
    requires Invariant(w) && h in w.rtias
    ensures h in w.up && forall m :: m in w.up[h] ==> SpokenBy(m, h)
  {
    assert UpOk(w, h);
    hide Consistent, Covers, Honest, LinkOk, DownOk;
  }

  lemma StepKinds(w: World, e: Step)
    requires Invariant(w) && Allowed(w, e)
    ensures Keyed(w) && (e.RtigReads? ==> e.h in w.rtias)
    ensures IsLocal(e) || e.RtigReads? || e.RtiaReads? || e.RtigTells? || e.Join?
  {
    InvariantKeys(w);
    hide Invariant, Disciplined, RegulatorInTime;
  }

  lemma StepFollows(w: World, e: Step, h: Handle)
    requires Invariant(w) && Allowed(w, e) && h in Next(w, e).rtias && (h in w.rtias ==> Follows(w, h))
    ensures Follows(Next(w, e), h)
  {
    hide *;
    StepKinds(w, e);
    if h !in w.rtias {
      JoinerFollows(w, e, h);
    } else if e.RtigReads? {
      UpIsSpoken(w, e.h);
      ReadFollows(w, e, h);
    } else if e.RtiaReads? || e.RtigTells? || e.Join? {
      OtherFollows(w, e, h);
    } else {
      MoveFollows(w, e, h);
    }
  }

  lemma JoinerFollows(w: World, e: Step, h: Handle)
    requires Keyed(w) && Allowed(w, e) && h !in w.rtias && h in Next(w, e).rtias
    ensures Follows(Next(w, e), h)
  {
    assert e == Join(h) && Next(w, e) == Joined(w, h) by { hide Local, Process, Receive, Disciplined, For; }
    hide Next, Allowed;
  }

  // ---- In every run ----

  lemma {:induction false} RunFollows(w: World, steps: seq<Step>)
    requires Invariant(w) && IsRun(w, steps) && forall h :: h in w.rtias ==> Follows(w, h)
    ensures forall h :: h in After(w, steps).rtias ==> Follows(After(w, steps), h)
    decreases |steps|
  {
    hide Invariant, Allowed, Next, Follows;
    if steps != [] {
      StepKeepsInvariant(w, steps[0]);
      forall h | h in Next(w, steps[0]).rtias ensures Follows(Next(w, steps[0]), h) {
        StepFollows(w, steps[0], h);
      }
      RunFollows(Next(w, steps[0]), steps[1..]);
    }
  }

  // In every reachable state, once the RTIG has read what is on its way from a federate, it takes that federate for
  // constrained exactly when its RTIA does.
  lemma ConstraintIsCopied(w: World, h: Handle)
    requires Reachable(w) && h in w.rtias
    ensures Follows(w, h)
  {
    var steps :| IsRun(EMPTY, steps) && After(EMPTY, steps) == w;
    RunFollows(EMPTY, steps);
    hide Follows;
  }
}
