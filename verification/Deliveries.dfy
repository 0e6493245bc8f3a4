/** What an RTIA lets out to its federate, and when: from the lists by ticks, and over runs nothing is lost. */
module Deliveries {
  import opened FederationTime
  import opened Lbts
  import opened Messages
  import opened Queues
  import opened TimeState
  import opened World
  import opened TimeLaws

  // ---- Commands and receive-order messages ----

  // With no command waiting, the first receive-order message is told exactly with asynchronous delivery, while
  // an advance is pending, or to a federate that is not constrained.
  lemma ReceiveOrderIsOpenIff(s: Rtia)
    requires s.commands == [] && s.fifos != []
    ensures Tick(s).told == [Evoked(s.fifos[0])] <==> s.asynchronous || s.advance != Idle || !s.constrained
  {
    hide AdvanceTime;
    if !s.asynchronous && s.advance == Idle && s.constrained {
      IdleTellsNothing(s);
    }
  }

  lemma IdleTellsNothing(s: Rtia)
    requires s.advance == Idle
    ensures AdvanceTime(s) == Quiet(s)
  {
  }

  lemma CommandTick(s: Rtia)
    requires s.commands != []
    ensures Tick(s).rtia == s.(commands := s.commands[1..]) && Tick(s).told == [Evoked(s.commands[0])]
  {
    hide AdvanceTime;
  }

  lemma ReceiveOrderTick(s: Rtia)
    requires s.commands == [] && s.fifos != [] && (s.asynchronous || s.advance != Idle || !s.constrained)
    ensures Tick(s).rtia == s.(fifos := s.fifos[1..]) && Tick(s).told == [Evoked(s.fifos[0])]
  {
    hide AdvanceTime;
  }

  // As many ticks as there are commands and receive-order messages tell all of both lists, in order.
  lemma {:induction false} TicksTellBothLists(s: Rtia)
    requires s.asynchronous || s.advance != Idle || !s.constrained
    ensures var n := |s.commands| + |s.fifos|;
      && ToldDuring(s, n) == EvokeAll(s.commands) + EvokeAll(s.fifos)
      && TickN(s, n) == s.(commands := [], fifos := [])
    decreases |s.commands| + |s.fifos|
  {
    hide Tick, EvokeAll;
    if s.commands != [] {
      CommandTick(s);
      EvokeTail(s.commands);
      TicksTellBothLists(Tick(s).rtia);
    } else if s.fifos != [] {
      ReceiveOrderTick(s);
      EvokeTail(s.fifos);
      NothingToEvoke();
      TicksTellBothLists(Tick(s).rtia);
    } else {
      NothingToEvoke();
    }
  }

  lemma NothingToEvoke()
    ensures EvokeAll([]) == []
  {
  }

  // Otherwise the commands are told, and then nothing more, however often the federate ticks.
  lemma {:induction false} TicksTellOnlyCommands(s: Rtia, n: nat)
    requires !s.asynchronous && s.advance == Idle && s.constrained && |s.commands| <= n
    ensures ToldDuring(s, n) == EvokeAll(s.commands) && TickN(s, n) == s.(commands := [])
    decreases n
  {
    hide Tick, EvokeAll;
    if s.commands != [] {
      CommandTick(s);
      EvokeTail(s.commands);
      TicksTellOnlyCommands(Tick(s).rtia, n - 1);
    } else {
      NothingToEvoke();
      if n > 0 {
        ClosedTick(s);
        TicksTellOnlyCommands(s, n - 1);
      }
    }
  }

  lemma ClosedTick(s: Rtia)
    requires s.commands == [] && !s.asynchronous && s.advance == Idle && s.constrained
    ensures Tick(s) == Quiet(s)
  {
    IdleTellsNothing(s);
    hide AdvanceTime;
  }

  // ---- Events and grants, once both lists are empty ----

  // The date that a pending request leads to next: a next event request is cut short by the first event.
  function NextDate(s: Rtia): Time {
    if (s.advance == NER || s.advance == NERA) && s.constrained && s.tsos != [] && s.tsos[0].date.Lt(s.date)
    then s.tsos[0].date
    else s.date
  }

  // An event is told exactly when it is the first, within the request, and the LBTS lets it through: up to the
  // LBTS for a request to advance, below it for a next event.
  lemma DeliveredIff(s: Rtia, e: Event)
    requires s.commands == [] && s.fifos == []
    ensures InOrder(e) in Tick(s).told <==>
      && s.constrained && s.advance != Idle && s.tsos != [] && e == s.tsos[0] && e.date.Le(s.date)
      && (if s.advance == NER then e.date.Lt(s.Lbts()) else e.date.Le(s.Lbts()))
  {
    NextEventForms(s);
    hide NextEventAdvance, Rtia.Lbts;
  }

  // A date is granted exactly when a request leads to it, every event up to it has been told, and the LBTS lies
  // beyond it, or for an available advance at it.
  lemma GrantedIff(s: Rtia, date: Time)
    requires s.commands == [] && s.fifos == [] && Sorted(s.tsos)
    ensures Granted(date) in Tick(s).told <==>
      && s.advance != Idle && date == NextDate(s)
      && (s.constrained ==>
            && (forall e :: e in s.tsos ==> date.Lt(e.date))
            && (if s.advance == TARA || s.advance == NERA then date.Le(s.Lbts()) else date.Lt(s.Lbts())))
  {
    NothingDueIff(s, NextDate(s));
    hide Sorted, TimeAdvance, NextEventAdvance, Rtia.Lbts;
    if s.advance == TAR || s.advance == TARA {
      TimeAdvanceGrants(s, date);
    } else if s.advance != Idle {
      NextEventGrants(s, date);
    }
  }

  lemma TimeAdvanceGrants(s: Rtia, date: Time)
    requires s.advance == TAR || s.advance == TARA
    ensures Granted(date) in TimeAdvance(s).told <==>
      && date == s.date
      && (s.constrained ==>
            && (s.tsos == [] || date.Lt(s.tsos[0].date))
            && (if s.advance == TARA then date.Le(s.Lbts()) else date.Lt(s.Lbts())))
  {
    hide Rtia.Lbts;
  }

  lemma NextEventGrants(s: Rtia, date: Time)
    requires s.advance == NER || s.advance == NERA
    ensures Granted(date) in NextEventAdvance(s).told <==>
      && date == NextDate(s)
      && (s.constrained ==>
            && (s.tsos == [] || date.Lt(s.tsos[0].date))
            && (if s.advance == NERA then date.Le(s.Lbts()) else date.Lt(s.Lbts())))
  {
    NextEventForms(s);
    hide NextEventAdvance, Rtia.Lbts;
  }

  lemma NothingDueIff(s: Rtia, date: Time)
    requires Sorted(s.tsos)
    ensures (forall e :: e in s.tsos ==> date.Lt(e.date)) <==> s.tsos == [] || date.Lt(s.tsos[0].date)
  {
    if s.tsos != [] {
      assert s.tsos[0] in s.tsos;
    }
    forall e | e in s.tsos ensures s.tsos[0].date.Le(e.date) {
      var k :| 0 <= k < |s.tsos| && s.tsos[k] == e;
      assert s.tsos[0].date.Le(s.tsos[k].date);
    }
  }

  // ---- What the tick says of more ----

  // It says that more is waiting exactly when the list it told from holds more; of an event, exactly when the
  // next tick tells another. A grant, or nothing told, leaves nothing more.
  lemma MoreIff(s: Rtia)
    requires Sorted(s.tsos)
    ensures var o := Tick(s);
      if s.commands != [] then o.more <==> |s.commands| > 1
      else if o.told == [] || o.told[0].Granted? then !o.more
      else if o.told[0].Evoked? then o.more <==> |s.fifos| > 1
      else o.more <==> exists e :: InOrder(e) in Tick(o.rtia).told
  {
    TickTellsOne(s);
    var o := Tick(s);
    if s.commands == [] && o.told != [] && o.told[0].InOrder? {
      MoreEvents(s, o.told[0].event);
    } else {
      hide TimeAdvance, NextEventAdvance;
      AdvanceSaysMore(s);
    }
  }

  lemma TickTellsOne(s: Rtia)
    ensures |Tick(s).told| <= 1
  {
    TickDoesOneThing(s);
    hide Tick;
  }

  lemma AdvanceSaysMore(s: Rtia)
    ensures var o := AdvanceTime(s);
      && (o.told == [] || o.told[0].Granted? ==> !o.more)
      && (o.told != [] ==> !o.told[0].Evoked?)
  {
    hide AfterPromise, PromiseSent, Rtia.Lbts;
  }

  // The first of a sorted list is followed by another up to the same bound.
  lemma MoreEvents(s: Rtia, e: Event)
    requires s.commands == [] && Tick(s).told == [InOrder(e)] && Sorted(s.tsos)
    ensures Tick(s).more <==> exists e' :: InOrder(e') in Tick(Tick(s).rtia).told
  {
    EventTick(s, e);
    var s' := Tick(s).rtia;
    assert s'.Lbts() == s.Lbts();
    hide Tick, TimeAdvance, NextEventAdvance, Sorted, Rtia.Lbts;
    forall e' {
      DeliveredIff(s', e');
    }
    if Tick(s).more {
      assert InOrder(s'.tsos[0]) in Tick(s').told;
    }
  }

  // An event that was told leaves the next to come under the same bound.
  ghost predicate EventTold(s: Rtia, e: Event, o: Outcome) {
    var s' := o.rtia;
    && s.constrained && s.tsos != [] && e == s.tsos[0]
    && s'.commands == s.commands && s'.fifos == s.fifos && s'.clocks == s.clocks && s'.me == s.me
    && s'.constrained && s'.advance == s.advance && s'.tsos == s.tsos[1..]
    && (o.more <==>
          s'.tsos != [] && s'.tsos[0].date.Le(s'.date)
          && if s.advance == NER then s'.tsos[0].date.Lt(s.Lbts()) else s'.tsos[0].date.Le(s.Lbts()))
  }

  lemma TimeAdvanceTold(s: Rtia, e: Event)
    requires TimeAdvance(s).told == [InOrder(e)] && (s.advance == TAR || s.advance == TARA)
    ensures EventTold(s, e, TimeAdvance(s))
  {
    hide Rtia.Lbts;
  }

  lemma NextEventTold(s: Rtia, e: Event)
    requires NextEventAdvance(s).told == [InOrder(e)] && (s.advance == NER || s.advance == NERA) && Sorted(s.tsos)
    ensures EventTold(s, e, NextEventAdvance(s))
  {
    NextEventForms(s);
    NextEventSaysMore(s, e);
    assert |s.tsos| > 1 ==> s.tsos[0].date.Le(s.tsos[1].date);
    hide NextEventAdvance, Rtia.Lbts, Sorted;
  }

  lemma NextEventSaysMore(s: Rtia, e: Event)
    requires NextEventAdvance(s).told == [InOrder(e)]
    ensures s.tsos != [] && NextEventAdvance(s).more == Gives(s.tsos[1..], Target(s))
  {
    PromiseLeaves(s, s.Lbts());
    PromiseLeaves(s.(date := Target(s)), Target(s));
    hide AfterPromise, PromiseSent, Rtia.Lbts;
  }

  lemma EventTick(s: Rtia, e: Event)
    requires s.commands == [] && Tick(s).told == [InOrder(e)] && Sorted(s.tsos)
    ensures s.fifos == [] && s.advance != Idle && EventTold(s, e, Tick(s))
  {
    hide TimeAdvance, NextEventAdvance, EventTold, Sorted;
    if s.advance == TAR || s.advance == TARA {
      if TimeAdvance(s).told == [InOrder(e)] { TimeAdvanceTold(s, e); }
    } else if s.advance != Idle {
      if NextEventAdvance(s).told == [InOrder(e)] { NextEventTold(s, e); }
    }
  }

  // ---- Nothing is lost ----

  function TimedAll(events: seq<Event>): seq<Message> {
    if events == [] then [] else [Timed(events[0])] + TimedAll(events[1..])
  }

  // The messages in the three lists.
  function Held(s: Rtia): multiset<Message> {
    Together(s.commands, s.fifos, s.tsos)
  }

  function Together(commands: seq<Message>, fifos: seq<Message>, tsos: seq<Event>): multiset<Message> {
    multiset(commands) + multiset(fifos) + multiset(TimedAll(tsos))
  }

  lemma CommandTogether(m: Message, commands: seq<Message>, fifos: seq<Message>, tsos: seq<Event>)
    ensures Together([m] + commands, fifos, tsos) == Together(commands, fifos, tsos) + multiset{m}
    ensures Together(commands + [m], fifos, tsos) == Together(commands, fifos, tsos) + multiset{m}
  {
  }

  lemma FifoTogether(commands: seq<Message>, m: Message, fifos: seq<Message>, tsos: seq<Event>)
    ensures Together(commands, [m] + fifos, tsos) == Together(commands, fifos, tsos) + multiset{m}
    ensures Together(commands, fifos + [m], tsos) == Together(commands, fifos, tsos) + multiset{m}
  {
  }

  lemma EventTogether(commands: seq<Message>, fifos: seq<Message>, e: Event, tsos: seq<Event>)
    ensures Together(commands, fifos, [e] + tsos) == Together(commands, fifos, tsos) + multiset{Timed(e)}
    ensures Together(commands, fifos, Inserted(tsos, e)) == Together(commands, fifos, tsos) + multiset{Timed(e)}
  {
    TimedCons(e, tsos);
    TimedInserted(tsos, e);
    hide TimedAll, Inserted;
  }

  // The messages that what was told stands for.
  function ToldOf(told: seq<Callback>): multiset<Message> {
    if told == [] then multiset{}
    else
      (match told[0]
       case InOrder(e) => multiset{Timed(e)}
       case Evoked(m) => multiset{m}
       case Granted(_) => multiset{}) + ToldOf(told[1..])
  }

  // What is for the federate, and not for the clocks alone.
  predicate ForFederate(m: Message) {
    m.Timed? || m.Plain? || m.InitiateSave? || m.SaveEnded? || m.Command?
  }

  function TakenBy(a: Act): multiset<Message> {
    if a.Gets? && ForFederate(a.message) then multiset{a.message} else multiset{}
  }

  lemma {:induction false} TimedInserted(q: seq<Event>, e: Event)
    ensures multiset(TimedAll(Inserted(q, e))) == multiset(TimedAll(q)) + multiset{Timed(e)}
  {
    if q != [] && !e.date.Lt(q[0].date) {
      TimedInserted(q[1..], e);
      TimedCons(q[0], q[1..]);
      TimedCons(q[0], Inserted(q[1..], e));
      assert q == [q[0]] + q[1..];
    } else {
      TimedCons(e, q);
      assert Inserted(q, e) == [e] + q;
    }
  }

  lemma TimedCons(e: Event, q: seq<Event>)
    ensures TimedAll([e] + q) == [Timed(e)] + TimedAll(q)
  {
    assert ([e] + q)[1..] == q;
  }

  predicate SameLists(s: Rtia, s': Rtia) {
    s'.commands == s.commands && s'.fifos == s.fifos && s'.tsos == s.tsos
  }

  // Each message for the federate goes to one list, and the start or end of a save to the front of its list.
  predicate OneMore(s: Rtia, s': Rtia, m: Message) {
    if m.Timed? && s.constrained then
      s'.commands == s.commands && s'.fifos == s.fifos && s'.tsos == Inserted(s.tsos, m.event)
    else if m.Timed? || m.Plain? then
      s'.commands == s.commands && s'.fifos == s.fifos + [m] && s'.tsos == s.tsos
    else
      && s'.commands == (if m.InitiateSave? || m.SaveEnded? then [m] + s.commands else s.commands + [m])
      && s'.fifos == s.fifos && s'.tsos == s.tsos
  }

  lemma ReceiveLists(s: Rtia, m: Message)
    ensures if ForFederate(m) then Receive(s, m).Some? && OneMore(s, Receive(s, m).value, m)
            else Receive(s, m).Some? ==> SameLists(s, Receive(s, m).value)
  {
  }

  lemma SameHeld(s: Rtia, s': Rtia)
    requires SameLists(s, s')
    ensures Held(s') == Held(s)
  {
  }

  lemma OneMoreHeld(s: Rtia, s': Rtia, m: Message)
    requires ForFederate(m) && OneMore(s, s', m)
    ensures Held(s') == Held(s) + multiset{m}
  {
    hide Inserted, Together;
    CommandTogether(m, s.commands, s.fifos, s.tsos);
    FifoTogether(s.commands, m, s.fifos, s.tsos);
    if m.Timed? {
      EventTogether(s.commands, s.fifos, m.event, s.tsos);
    }
  }

  lemma ReceiveHolds(s: Rtia, m: Message)
    ensures if ForFederate(m) then Receive(s, m).Some? && Held(Receive(s, m).value) == Held(s) + multiset{m}
            else Receive(s, m).Some? ==> Held(Receive(s, m).value) == Held(s)
  {
    hide Receive, Held, SameLists, OneMore;
    ReceiveLists(s, m);
    if ForFederate(m) {
      OneMoreHeld(s, Receive(s, m).value, m);
    } else if Receive(s, m).Some? {
      SameHeld(s, Receive(s, m).value);
    }
  }

  lemma TickHolds(s: Rtia)
    ensures Held(s) == Held(Tick(s).rtia) + ToldOf(Tick(s).told)
  {
    TickDoesOneThing(s);
    var o := Tick(s);
    hide Tick, Together;
    if o.told != [] {
      OneTold(o.told[0]);
      assert o.told == [o.told[0]];
      match o.told[0]
      case Evoked(m) =>
        CommandTogether(m, o.rtia.commands, o.rtia.fifos, o.rtia.tsos);
        FifoTogether(o.rtia.commands, m, o.rtia.fifos, o.rtia.tsos);
      case InOrder(e) => EventTogether(o.rtia.commands, o.rtia.fifos, e, o.rtia.tsos);
      case Granted(_) =>
    }
  }

  lemma OneTold(c: Callback)
    ensures ToldOf([c]) ==
      match c
      case InOrder(e) => multiset{Timed(e)}
      case Evoked(m) => multiset{m}
      case Granted(_) => multiset{}
  {
    assert [c][1..] == [];
  }

  lemma AdvanceRequestLists(s: Rtia, date: Time)
    ensures var o := TimeAdvanceRequest(s, date); SameLists(s, o.rtia) && o.told == []
    ensures var o := TimeAdvanceRequestAvailable(s, date); SameLists(s, o.rtia) && o.told == []
  {
    PromiseLeaves(WithSomeLookahead(s), date);
    PromiseLeaves(s.(kind := AfterTaraOrNera), date);
    hide AfterPromise, PromiseSent;
  }

  lemma NextRequestLists(s: Rtia, date: Time)
    ensures var o := NextEventRequest(s, date); SameLists(s, o.rtia) && o.told == []
    ensures var o := NextEventRequestAvailable(s, date); SameLists(s, o.rtia) && o.told == []
  {
  }

  lemma RequestLists(s: Rtia, e: Step)
    requires e.Request?
    ensures SameLists(s, Local(s, e).rtia) && Local(s, e).told == []
  {
    AdvanceRequestLists(s, e.date);
    NextRequestLists(s, e.date);
    hide TimeAdvanceRequest, TimeAdvanceRequestAvailable, NextEventRequest, NextEventRequestAvailable;
  }

  lemma OtherHolds(s: Rtia, e: Step)
    requires IsLocal(e) && !e.TickAt?
    ensures Held(Local(s, e).rtia) == Held(s) && Local(s, e).told == []
  {
    if e.Request? {
      RequestLists(s, e);
    }
    assert SameLists(s, Local(s, e).rtia) && Local(s, e).told == [];
    hide *;
    SameHeld(s, Local(s, e).rtia);
  }

  lemma ActHolds(s: Rtia, a: Act)
    ensures Held(s) + TakenBy(a) == Held(Acted(s, a).rtia) + ToldOf(Acted(s, a).told)
  {
    hide Held, Tick, Local, Receive;
    match a
    case Gets(m) => ReceiveHolds(s, m);
    case Does(e) =>
      if e.TickAt? {
        TickHolds(s);
        TickIsLocal(s, e);
      } else if IsLocal(e) {
        OtherHolds(s, e);
      }
  }

  ghost function AfterActs(s: Rtia, acts: seq<Act>): Rtia
    decreases |acts|
  {
    if acts == [] then s else AfterActs(Acted(s, acts[0]).rtia, acts[1..])
  }

  ghost function ToldByActs(s: Rtia, acts: seq<Act>): multiset<Message>
    decreases |acts|
  {
    if acts == [] then multiset{} else ToldOf(Acted(s, acts[0]).told) + ToldByActs(Acted(s, acts[0]).rtia, acts[1..])
  }

  function TakenByActs(acts: seq<Act>): multiset<Message> {
    if acts == [] then multiset{} else TakenBy(acts[0]) + TakenByActs(acts[1..])
  }

  // Whatever a federate does and whatever comes in: each message for it has been told once or still waits.
  lemma {:induction false} NothingIsLost(s: Rtia, acts: seq<Act>)
    ensures Held(s) + TakenByActs(acts) == Held(AfterActs(s, acts)) + ToldByActs(s, acts)
    decreases |acts|
  {
    hide Held, Acted, TakenBy, ToldOf;
    if acts != [] {
      var o := Acted(s, acts[0]);
      ActHolds(s, acts[0]);
      NothingIsLost(o.rtia, acts[1..]);
      Balance(Held(s), TakenBy(acts[0]), Held(o.rtia), ToldOf(o.told), TakenByActs(acts[1..]),
              Held(AfterActs(o.rtia, acts[1..])), ToldByActs(o.rtia, acts[1..]));
    }
  }

  lemma Balance(held: multiset<Message>, taken: multiset<Message>, next: multiset<Message>, told: multiset<Message>,
                later: multiset<Message>, last: multiset<Message>, toldLater: multiset<Message>)
    requires held + taken == next + told && next + later == last + toldLater
    ensures held + (taken + later) == last + (told + toldLater)
  {
    assert held + (taken + later) == (held + taken) + later;
    assert (next + told) + later == (next + later) + told;
  }

  // An anonymous null message raises each clock below its date to it, and the LBTS, and does nothing else.
  lemma AnonymousNullRaises(s: Rtia, date: Time)
    requires s.clocks != map[]
    ensures Receive(s, Null(0, date)).Some?
    ensures var s' := Receive(s, Null(0, date)).value;
      && s' == s.(clocks := s'.clocks) && s'.clocks.Keys == s.clocks.Keys
      && (forall h :: h in s.clocks ==> s'.clocks[h] == if s.clocks[h].Lt(date) then date else s.clocks[h])
      && s'.Lbts() == if s.Lbts().Lt(date) then date else s.Lbts()
  {
    RaisedToDate(s.clocks, date, s.me);
    hide AllAdvanced;
  }

  // ---- Requests ----

  // A request is accepted exactly when it is not for the past and none is pending; it then pends with its date, and
  // promises at once only if it is one to advance. Refused, it changes nothing.
  lemma AcceptedIff(s: Rtia, advance: Advance, date: Time)
    requires advance == TAR || advance == TARA || advance == NER
    ensures var o := Local(s, Request(s.me, advance, date));
      && (o.error == NoError <==> s.now.Le(date) && s.advance == Idle)
      && (o.error == FederationTimeAlreadyPassed <==> date.Lt(s.now))
      && (if o.error != NoError then o.rtia == s && o.sent == []
          else
            && o.rtia.advance == advance && o.rtia.date == date
            && o.rtia.lookahead == (if s.lookahead == 0.0 && advance != TARA then EPSILON2 else s.lookahead)
            && (o.sent != [] <==>
                  advance != NER && s.regulating && s.lastNull.Lt(date.Plus(o.rtia.lookahead))))
  {
  }

  // A switch is refused exactly when it would change nothing or an advance is pending; a lookahead exactly when it is
  // negative or the one that stands in for zero.
  lemma SwitchedIff(s: Rtia, on: bool, lookahead: real)
    ensures SetTimeConstrained(s, on).error == NoError <==> s.constrained != on && s.advance == Idle
    ensures SetTimeRegulating(s, on, lookahead).error == NoError <==> s.regulating != on && s.advance == Idle
    ensures SetLookahead(s, lookahead).error == NoError <==> 0.0 <= lookahead != EPSILON2
    ensures SetLookahead(s, lookahead).error == InvalidLookahead <==> lookahead < 0.0
    ensures SetTimeConstrained(s, on).error == NoError ==>
      SetTimeConstrained(s, on).rtia.constrained == on && SetTimeConstrained(s, on).sent == [Constraining(s.me, on)]
    ensures SetTimeRegulating(s, on, lookahead).error == NoError ==>
      var o := SetTimeRegulating(s, on, lookahead);
      && o.rtia.regulating == on && o.rtia.lookahead == lookahead
      && (on ==> o.sent == [RegulatorOn(s.me, s.now.Plus(lookahead))]) && (!on ==> o.sent == [RegulatorOff(s.me)])
    ensures SetLookahead(s, lookahead).error == NoError ==> SetLookahead(s, lookahead).rtia.lookahead == lookahead
    ensures Local(s, SwitchAsynchronous(s.me, on)) == Outcome(s.(asynchronous := on), [], [], false, NoError)
    ensures SetTimeConstrained(s, on).error != NoError ==> SetTimeConstrained(s, on).rtia == s
    ensures SetTimeRegulating(s, on, lookahead).error != NoError ==> SetTimeRegulating(s, on, lookahead).rtia == s
    ensures SetLookahead(s, lookahead).error != NoError ==> SetLookahead(s, lookahead).rtia == s
  {
  }

  // The minimum next event time is the greatest date that bounds both the LBTS and the first event.
  lemma MinNextEventTimeIsGreatest(s: Rtia, bound: Time)
    ensures bound.Le(MinNextEventTime(s)) <==> bound.Le(s.Lbts()) && (s.tsos == [] || bound.Le(s.tsos[0].date))
  {
    hide Rtia.Lbts;
  }
}
