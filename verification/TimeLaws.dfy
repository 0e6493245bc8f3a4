/** What holds of one RTIA by itself, and where its rules stop being enough. */
module TimeLaws {
  import opened FederationTime
  import opened Lbts
  import opened Messages
  import opened Queues
  import opened TimeState
  import opened World
  import opened CausalSafety

  // ---- Ticks up to the grant ----

  ghost function TickN(s: Rtia, n: nat): Rtia
    decreases n
  {
    if n == 0 then s else TickN(Tick(s).rtia, n - 1)
  }

  // What the federate is told during `n` ticks.
  ghost function ToldDuring(s: Rtia, n: nat): seq<Callback>
    decreases n
  {
    if n == 0 then [] else Tick(s).told + ToldDuring(Tick(s).rtia, n - 1)
  }

  function EvokeAll(messages: seq<Message>): seq<Callback> {
    seq(|messages|, i requires 0 <= i < |messages| => Evoked(messages[i]))
  }

  function DeliverAll(events: seq<Event>): seq<Callback> {
    seq(|events|, i requires 0 <= i < |events| => InOrder(events[i]))
  }

  // The date a pending request leads to when nothing more arrives.
  function GrantDate(s: Rtia): Time {
    if s.advance == NER && s.constrained then Target(s) else s.date
  }

  // A pending request whose date lies below every other regulator's clock.
  ghost predicate ReadyToGrant(s: Rtia) {
    && Consistent(s)
    && s.advance != Idle
    && (s.constrained ==> s.date.Lt(s.Lbts()))
  }

  // All that is told up to the grant: the commands, the receive-order messages, and the events due.
  function Due(s: Rtia): seq<Callback> {
    EvokeAll(s.commands) + EvokeAll(s.fifos) + DeliverAll(Drained(s.tsos, GrantDate(s)))
  }

  // One tick that tells the first thing due and stays on course.
  ghost predicate Progresses(s: Rtia) {
    && ReadyToGrant(Tick(s).rtia)
    && GrantDate(Tick(s).rtia) == GrantDate(s)
    && |Tick(s).told| == 1
    && Due(s) == Tick(s).told + Due(Tick(s).rtia)
  }

  lemma EvokeTail(q: seq<Message>)
    requires q != []
    ensures EvokeAll(q) == [Evoked(q[0])] + EvokeAll(q[1..])
  {
  }

  lemma DeliverTail(q: seq<Event>, bound: Time)
    requires Gives(q, bound)
    ensures DeliverAll(Drained(q, bound)) == [InOrder(q[0])] + DeliverAll(Drained(q[1..], bound))
  {
  }

  lemma CommandProgresses(s: Rtia)
    requires ReadyToGrant(s) && s.commands != []
    ensures Progresses(s)
  {
    hide AdvanceTime, Drained, EvokeAll, DeliverAll;
    EvokeTail(s.commands);
    assert EvokeAll(s.commands) + EvokeAll(s.fifos) + DeliverAll(Drained(s.tsos, GrantDate(s)))
        == [Evoked(s.commands[0])]
           + (EvokeAll(s.commands[1..]) + EvokeAll(s.fifos) + DeliverAll(Drained(s.tsos, GrantDate(s))));
  }

  lemma FifoProgresses(s: Rtia)
    requires ReadyToGrant(s) && s.commands == [] && s.fifos != []
    ensures Progresses(s)
  {
    hide AdvanceTime, Drained, DeliverAll;
    EvokeTail(s.fifos);
    assert EvokeAll(s.commands) == [];
  }

  lemma TimeAdvanceProgresses(s: Rtia)
    requires ReadyToGrant(s) && s.commands == [] && s.fifos == [] && Gives(s.tsos, GrantDate(s))
    requires s.advance == TAR || s.advance == TARA
    ensures Progresses(s)
  {
    assert EvokeAll([]) == [];
    hide Drained, DeliverAll, EvokeAll;
    DeliverTail(s.tsos, s.date);
    TickKeepsWord(s);
  }

  // A tick of a pending next event request that delivers.
  lemma NextEventTick(s: Rtia)
    requires ReadyToGrant(s) && s.commands == [] && s.fifos == [] && Gives(s.tsos, GrantDate(s))
    requires s.advance == NER
    ensures var o, date := Tick(s), Target(s);
      && s.constrained && o.told == [InOrder(s.tsos[0])]
      && o.rtia == AfterPromise(s.(date := date), date).(tsos := s.tsos[1..])
  {
    assert s.constrained;
    hide AfterPromise, PromiseSent, Consistent;
  }

  lemma TargetStays(s: Rtia, rest: seq<Event>)
    requires Sorted(s.tsos) && Gives(s.tsos, Target(s)) && rest == s.tsos[1..]
    ensures Target(s.(date := Target(s), tsos := rest)) == Target(s)
  {
    assert rest != [] ==> s.tsos[0].date.Le(s.tsos[1].date);
  }

  lemma NextEventProgresses(s: Rtia)
    requires ReadyToGrant(s) && s.commands == [] && s.fifos == [] && Gives(s.tsos, GrantDate(s))
    requires s.advance == NER
    ensures Progresses(s)
  {
    assert EvokeAll([]) == [];
    NextEventTick(s);
    TargetStays(s, s.tsos[1..]);
    TickKeepsWord(s);
    hide Drained, DeliverAll, EvokeAll, Tick, Target;
    DeliverTail(s.tsos, GrantDate(s));
    assert GrantDate(Tick(s).rtia) == GrantDate(s);
  }

  lemma TickProgresses(s: Rtia)
    requires ReadyToGrant(s) && (s.commands != [] || s.fifos != [] || Gives(s.tsos, GrantDate(s)))
    ensures Progresses(s)
  {
    hide Progresses, Tick;
    if s.commands != [] {
      CommandProgresses(s);
    } else if s.fifos != [] {
      FifoProgresses(s);
    } else if s.advance == NER {
      NextEventProgresses(s);
    } else {
      TimeAdvanceProgresses(s);
    }
  }

  lemma TickGrants(s: Rtia)
    requires ReadyToGrant(s) && s.commands == [] && s.fifos == [] && !Gives(s.tsos, GrantDate(s))
    ensures Tick(s).told == [Granted(GrantDate(s))] && Due(s) == []
    ensures Tick(s).rtia.now == GrantDate(s) && Tick(s).rtia.advance == Idle
  {
  }

  // With nothing arriving, one tick more than there is to tell ends in the grant; each tick before
  // it tells exactly one thing, in this order.
  lemma {:induction false} TicksDrainToGrant(s: Rtia)
    requires ReadyToGrant(s)
    ensures ToldDuring(s, |Due(s)| + 1) == Due(s) + [Granted(GrantDate(s))]
    ensures var s' := TickN(s, |Due(s)| + 1); s'.now == GrantDate(s) && s'.advance == Idle
    ensures |Due(s)| <= |s.commands| + |s.fifos| + |Drained(s.tsos, s.date)|
    decreases |Due(s)|
  {
    hide Tick, ReadyToGrant, Due, GrantDate;
    DueIsBounded(s);
    if s.commands != [] || s.fifos != [] || Gives(s.tsos, GrantDate(s)) {
      TickProgresses(s);
      TicksDrainToGrant(Tick(s).rtia);
    } else {
      TickGrants(s);
      assert ToldDuring(Tick(s).rtia, 0) == [];
    }
  }

  lemma {:induction false} DrainedIsMonotone(q: seq<Event>, low: Time, high: Time)
    requires low.Le(high)
    ensures |Drained(q, low)| <= |Drained(q, high)|
  {
    if Gives(q, low) {
      DrainedIsMonotone(q[1..], low, high);
    }
  }

  lemma DueIsBounded(s: Rtia)
    ensures |Due(s)| <= |s.commands| + |s.fifos| + |Drained(s.tsos, s.date)|
  {
    DrainedIsMonotone(s.tsos, GrantDate(s), s.date);
  }

  // A tick hands over the first message of one list, or grants, or leaves lists, time and request alone.
  ghost predicate OneThing(s: Rtia, o: Outcome) {
    var s' := o.rtia;
    && |o.told| <= 1
    && (o.told == [] ==>
          && s'.commands == s.commands && s'.fifos == s.fifos && s'.tsos == s.tsos
          && s'.now == s.now && s'.advance == s.advance)
    && (o.told != [] ==>
          match o.told[0]
          case Evoked(m) =>
            && s'.tsos == s.tsos && s'.now == s.now && s'.advance == s.advance
            && ((s.commands == [m] + s'.commands && s'.fifos == s.fifos)
                || (s.commands == [] == s'.commands && s.fifos == [m] + s'.fifos))
          case InOrder(e) =>
            && s.tsos == [e] + s'.tsos && s'.commands == s.commands && s'.fifos == s.fifos
            && s'.now == s.now && s'.advance == s.advance
          case Granted(date) =>
            && s.advance != Idle && s'.advance == Idle && s'.now == date
            && s'.commands == s.commands && s'.fifos == s.fifos && s'.tsos == s.tsos)
  }

  lemma NextEventDoesOneThing(s: Rtia)
    requires s.advance != Idle
    ensures OneThing(s, NextEventAdvance(s))
  {
    NextEventForms(s);
    if s.tsos != [] {
      assert s.tsos == [s.tsos[0]] + s.tsos[1..];
    }
    hide NextEventAdvance, TargetReached, Rtia.Lbts;
  }

  lemma TimeAdvanceDoesOneThing(s: Rtia)
    requires s.advance != Idle
    ensures OneThing(s, TimeAdvance(s))
  {
    if s.tsos != [] {
      assert s.tsos == [s.tsos[0]] + s.tsos[1..];
    }
    hide Rtia.Lbts;
  }

  lemma AdvanceDoesOneThing(s: Rtia)
    ensures OneThing(s, AdvanceTime(s))
  {
    if s.advance != Idle {
      NextEventDoesOneThing(s);
      TimeAdvanceDoesOneThing(s);
      hide NextEventAdvance, TimeAdvance, OneThing;
    }
  }

  lemma TickDoesOneThing(s: Rtia)
    ensures OneThing(s, Tick(s))
  {
    hide AdvanceTime;
    AdvanceDoesOneThing(s);
    if s.commands != [] {
      assert s.commands == [s.commands[0]] + s.commands[1..];
    } else if FifoOpen(s) && s.fifos != [] {
      assert s.fifos == [s.fifos[0]] + s.fifos[1..];
    }
  }

  // ---- The dates of the null messages of one federate ----

  // What an RTIA does of its own accord, or takes from the RTIG.
  datatype Act = Does(step: Step) | Gets(message: Message)

  ghost function Acted(s: Rtia, a: Act): Outcome {
    match a
    case Does(e) => if IsLocal(e) then Local(s, e) else Quiet(s)
    case Gets(m) => match Receive(s, m) case Some(s') => Quiet(s') case None => Quiet(s)
  }

  ghost function SentDuring(s: Rtia, acts: seq<Act>): seq<Message>
    decreases |acts|
  {
    if acts == [] then [] else var o := Acted(s, acts[0]); o.sent + SentDuring(o.rtia, acts[1..])
  }

  // Every null message in `sent` is dated beyond `last` and beyond those before it.
  predicate NullsAscend(last: Time, sent: seq<Message>)
    decreases |sent|
  {
    sent == [] || if sent[0].Null? then last.Lt(sent[0].date) && NullsAscend(sent[0].date, sent[1..])
                  else NullsAscend(last, sent[1..])
  }

  ghost predicate RemembersNull(s: Rtia, o: Outcome) {
    && |o.sent| <= 1
    && (if o.sent != [] && o.sent[0].Null? then s.lastNull.Lt(o.sent[0].date) && o.rtia.lastNull == o.sent[0].date
        else o.rtia.lastNull == s.lastNull)
  }

  lemma TickRemembersNull(s: Rtia)
    ensures RemembersNull(s, Tick(s))
  {
    hide Rtia.Lbts;
  }

  lemma RequestRemembersNull(s: Rtia, e: Step)
    requires e.Request?
    ensures RemembersNull(s, Local(s, e))
  {
  }

  lemma SwitchRemembersNull(s: Rtia, e: Step)
    requires IsLocal(e) && !e.Request? && !e.TickAt?
    ensures RemembersNull(s, Local(s, e))
  {
  }

  lemma ActRemembersNull(s: Rtia, a: Act)
    ensures RemembersNull(s, Acted(s, a))
  {
    if a.Does? && IsLocal(a.step) {
      hide Tick, Local;
      if a.step.TickAt? {
        TickRemembersNull(s);
        TickIsLocal(s, a.step);
      } else if a.step.Request? {
        RequestRemembersNull(s, a.step);
      } else {
        SwitchRemembersNull(s, a.step);
      }
    }
  }

  lemma TickIsLocal(s: Rtia, e: Step)
    requires e.TickAt?
    ensures Local(s, e) == Tick(s)
  {
  }

  // Whatever a federate does and whatever comes in, the dates of its null messages strictly increase.
  lemma {:induction false} NullDatesAscend(s: Rtia, acts: seq<Act>)
    ensures NullsAscend(s.lastNull, SentDuring(s, acts))
    decreases |acts|
  {
    hide Acted;
    if acts != [] {
      var o := Acted(s, acts[0]);
      ActRemembersNull(s, acts[0]);
      NullDatesAscend(o.rtia, acts[1..]);
      if o.sent == [] {
        assert SentDuring(s, acts) == SentDuring(o.rtia, acts[1..]);
      } else {
        assert SentDuring(s, acts)[1..] == SentDuring(o.rtia, acts[1..]);
      }
    }
  }

  // ---- Where the rules stop being enough ----

  // Some event dated before `promise` may be sent in state `s`.
  ghost predicate MaySendBefore(s: Rtia, promise: Time) {
    exists date :: ValidTime(s, date) && date.Lt(promise)
  }

  // The earliest date that may be sent, where there is one: goal plus lookahead, or any beyond the goal
  // after a zero-lookahead request.
  lemma EarliestSend(s: Rtia, bound: Time)
    ensures MaySendBefore(s, bound)
       <==> if s.kind == AfterTarOrNerZeroLookahead then Goal(s).Lt(bound) else Goal(s).Plus(s.lookahead).Lt(bound)
  {
    if s.kind == AfterTarOrNerZeroLookahead {
      if Goal(s).Lt(bound) {
        assert ValidTime(s, At(if bound.At? then (Goal(s).t + bound.t) / 2.0 else Goal(s).t + 1.0));
      }
    } else {
      assert ValidTime(s, Goal(s).Plus(s.lookahead));
    }
  }

  // Changing the lookahead breaks a promise exactly when goal plus new lookahead falls short of it; after a
  // zero-lookahead request, when the goal by itself does.
  lemma LookaheadBreaksPromise(s: Rtia, lookahead: real, promise: Time)
    requires SetLookahead(s, lookahead).error == NoError
    ensures MaySendBefore(SetLookahead(s, lookahead).rtia, promise)
       <==> if s.kind == AfterTarOrNerZeroLookahead then Goal(s).Lt(promise) else Goal(s).Plus(lookahead).Lt(promise)
  {
    EarliestSend(SetLookahead(s, lookahead).rtia, promise);
  }

  // For the last promise sent, which may be the one this call sends: a smaller lookahead may fall short of an
  // older one, and after a zero-lookahead request a larger lookahead falls short of its own.
  lemma LookaheadBreaksLastPromise(s: Rtia, lookahead: real)
    requires s.regulating && s.now.Le(Goal(s)) && SetLookahead(s, lookahead).error == NoError
    ensures var s' := SetLookahead(s, lookahead).rtia;
      MaySendBefore(s', s'.lastNull)
      <==> if s.kind == AfterTarOrNerZeroLookahead then Goal(s).Lt(s.lastNull) || Goal(s).Lt(s.now.Plus(lookahead))
           else Goal(s).Plus(lookahead).Lt(s.lastNull)
  {
    LookaheadBreaksPromise(s, lookahead, SetLookahead(s, lookahead).rtia.lastNull);
  }

  // What a request to advance promises: the date plus a lookahead that is never zero.
  lemma RequestPromises(s: Rtia, date: Time)
    requires RequestError(s, date) == NoError
    ensures var o := TimeAdvanceRequest(s, date); var promise := date.Plus(o.rtia.lookahead);
      && o.rtia.lookahead == (if s.lookahead == 0.0 then EPSILON2 else s.lookahead)
      && (o.rtia.kind == AfterTarOrNerZeroLookahead <==> s.lookahead == 0.0)
      && (s.regulating && s.lastNull.Lt(promise) ==> o.sent == [Null(s.me, promise)])
  {
  }

  // The grant takes back part of the promise, the granted date plus the lookahead it was asked with, exactly
  // when that lookahead stands in for zero, or is the value that cannot be told from the stand-in.
  lemma GrantBreaksPromise(s: Rtia, date: Time)
    requires Granted(date) in Tick(s).told && date.At?
    ensures MaySendBefore(Tick(s).rtia, date.Plus(s.lookahead))
       <==> if s.kind == AfterTarOrNerZeroLookahead then s.lookahead > 0.0 else s.lookahead == EPSILON2
  {
    GrantLeaves(s, date);
    hide Tick;
    EarliestSend(Tick(s).rtia, date.Plus(s.lookahead));
  }

  ghost predicate LeftByGrant(s: Rtia, s': Rtia, date: Time) {
    && s'.advance == Idle && s'.now == date && s'.kind == s.kind
    && s'.lookahead == if s.lookahead == EPSILON2 then 0.0 else s.lookahead
  }

  lemma NextEventGrantLeaves(s: Rtia, date: Time)
    requires Granted(date) in NextEventAdvance(s).told
    ensures LeftByGrant(s, NextEventAdvance(s).rtia, date)
  {
    NextEventForms(s);
    hide NextEventAdvance, TargetReached, Rtia.Lbts;
  }

  lemma TimeAdvanceGrantLeaves(s: Rtia, date: Time)
    requires Granted(date) in TimeAdvance(s).told
    ensures LeftByGrant(s, TimeAdvance(s).rtia, date)
  {
    hide Rtia.Lbts;
  }

  lemma GrantLeaves(s: Rtia, date: Time)
    requires Granted(date) in Tick(s).told
    ensures LeftByGrant(s, Tick(s).rtia, date)
  {
    hide NextEventAdvance, TimeAdvance, LeftByGrant;
    if s.advance == TAR || s.advance == TARA {
      if Granted(date) in TimeAdvance(s).told { TimeAdvanceGrantLeaves(s, date); }
    } else if Granted(date) in NextEventAdvance(s).told {
      NextEventGrantLeaves(s, date);
    }
  }

  lemma RegulatingAcceptsEpsilon(s: Rtia)
    requires !s.regulating && s.advance == Idle
    ensures SetTimeRegulating(s, true, EPSILON2).error == NoError && SetLookahead(s, EPSILON2).error != NoError
  {
  }

  // What the last request left behind decides how regulation works afterwards.
  lemma StaleKindBreaksRegulation(s: Rtia, lookahead: real)
    requires !s.regulating && s.advance == Idle && s.now.At? && 0.0 <= lookahead
    ensures var o := SetTimeRegulating(s, true, lookahead);
      && o.sent == [RegulatorOn(s.me, s.now.Plus(lookahead))]
      && (MaySendBefore(o.rtia, s.now.Plus(lookahead)) <==> s.kind == AfterTarOrNerZeroLookahead && lookahead > 0.0)
  {
    var s' := SetTimeRegulating(s, true, lookahead).rtia;
    if s.kind == AfterTarOrNerZeroLookahead && lookahead > 0.0 {
      assert ValidTime(s', At(s.now.t + lookahead / 2.0));
    }
  }

  // After a grant with zero lookahead, asking for an earlier date than was promised as an available
  // advance gives back the difference.
  lemma AvailableBreaksPromise(s: Rtia, date: real)
    requires s.advance == Idle && s.now.At? && s.now.t <= date && s.lookahead == 0.0
    ensures MaySendBefore(TimeAdvanceRequestAvailable(s, At(date)).rtia, s.now.Plus(EPSILON2))
       <==> date < s.now.t + EPSILON2
  {
    var s' := TimeAdvanceRequestAvailable(s, At(date)).rtia;
    assert ValidTime(s', At(date));
  }

  // The next event request "available" takes effect exactly when it should not: when it asks for the past, or
  // while another request is pending. Those are the cases in which it is refused.
  lemma NeraActsOnlyWhenRefused(s: Rtia, date: Time)
    requires s.advance != NERA
    ensures var o := NextEventRequestAvailable(s, date);
      && (o.rtia.advance == NERA <==> date.Lt(s.now) || s.advance != Idle)
      && (o.rtia.advance == NERA <==> o.error != NoError)
      && (o.error == NoError ==> o.rtia == s)
  {
  }

  // A refused one breaks a promise exactly when its date plus the lookahead falls short of it.
  lemma NeraBreaksPromise(s: Rtia, date: Time, promise: Time)
    requires date.Lt(s.now) || s.advance != Idle
    ensures MaySendBefore(NextEventRequestAvailable(s, date).rtia, promise) <==> date.Plus(s.lookahead).Lt(promise)
  {
    EarliestSend(NextEventRequestAvailable(s, date).rtia, promise);
  }

  // A request that asks for the past of a federate to which no event from before is still to come.
  ghost predicate AsksForPast(s: Rtia) {
    && s.advance == NERA && s.date.Lt(s.now)
    && (s.constrained ==> s.now.Le(s.Lbts()) && s.now.Le(s.FirstTso()))
  }

  // What a federate is told before the pending request is looked at.
  function Waiting(s: Rtia): seq<Callback> {
    EvokeAll(s.commands) + EvokeAll(s.fifos)
  }

  lemma PastTick(s: Rtia)
    requires AsksForPast(s)
    ensures if Waiting(s) == [] then Tick(s).told == [Granted(s.date)] && Tick(s).rtia.now == s.date
            else
              && AsksForPast(Tick(s).rtia) && Tick(s).rtia.date == s.date
              && Waiting(s) == Tick(s).told + Waiting(Tick(s).rtia) && |Tick(s).told| == 1
  {
    if s.commands != [] {
      EvokeTail(s.commands);
      hide AdvanceTime, EvokeAll;
      assert Tick(s).rtia == s.(commands := s.commands[1..]);
    } else if s.fifos != [] {
      EvokeTail(s.fifos);
      hide AdvanceTime, EvokeAll;
      assert Tick(s).rtia == s.(fifos := s.fifos[1..]);
    } else {
      PastReached(s);
      hide AdvanceTime;
    }
  }

  lemma PastReached(s: Rtia)
    requires AsksForPast(s)
    ensures AdvanceTime(s).told == [Granted(s.date)] && AdvanceTime(s).rtia.now == s.date
  {
  }

  lemma {:induction false} PastIsGranted(s: Rtia)
    requires AsksForPast(s)
    ensures ToldDuring(s, |Waiting(s)| + 1) == Waiting(s) + [Granted(s.date)]
    ensures TickN(s, |Waiting(s)| + 1).now == s.date
    decreases |Waiting(s)|
  {
    hide Tick, AsksForPast, Waiting;
    PastTick(s);
    var s1 := Tick(s).rtia;
    if Waiting(s) == [] {
      assert TickN(s, 1) == TickN(s1, 0) && ToldDuring(s, 1) == Tick(s).told + ToldDuring(s1, 0);
    } else {
      PastIsGranted(s1);
    }
  }

  // What is told on the way back: all that waits, then the grant of the date.
  lemma PastIsGrantedNext(s: Rtia, date: Time)
    requires date.Lt(s.now) && (s.constrained ==> s.now.Le(s.Lbts()) && s.now.Le(s.FirstTso()))
    ensures var o := NextEventRequestAvailable(s, date); var n := |Waiting(s)| + 1;
      && o.error == FederationTimeAlreadyPassed
      && ToldDuring(o.rtia, n) == Waiting(s) + [Granted(date)] && TickN(o.rtia, n).now == date
  {
    PastIsGranted(NextEventRequestAvailable(s, date).rtia);
  }

  // Nothing takes the federate back behind `from`: neither its time, nor its request, nor an event it holds.
  ghost predicate NotBefore(s: Rtia, from: Time) {
    && from.Le(s.now) && (s.advance != Idle ==> from.Le(s.date))
    && forall e :: e in s.tsos ==> from.Le(e.date)
  }

  lemma TimeAdvanceNotBefore(s: Rtia, from: Time)
    requires NotBefore(s, from) && s.advance != Idle
    ensures NotBefore(TimeAdvance(s).rtia, from)
  {
    hide Rtia.Lbts;
  }

  lemma NextEventAdvanceNotBefore(s: Rtia, from: Time)
    requires NotBefore(s, from) && s.advance != Idle
    ensures NotBefore(NextEventAdvance(s).rtia, from)
  {
    if s.tsos != [] {
      assert s.tsos[0] in s.tsos;
    }
    NextEventForms(s);
    hide NextEventAdvance, TargetReached, Rtia.Lbts;
  }

  lemma TickNotBefore(s: Rtia, from: Time)
    requires NotBefore(s, from)
    ensures NotBefore(Tick(s).rtia, from)
  {
    hide TimeAdvance, NextEventAdvance;
    if s.advance == TAR || s.advance == TARA {
      TimeAdvanceNotBefore(s, from);
    } else if s.advance != Idle {
      NextEventAdvanceNotBefore(s, from);
    }
  }

  lemma {:induction false} TicksNotBefore(s: Rtia, from: Time, n: nat)
    requires NotBefore(s, from)
    ensures from.Le(TickN(s, n).now)
    decreases n
  {
    hide Tick;
    if n > 0 {
      TickNotBefore(s, from);
      TicksNotBefore(Tick(s).rtia, from, n - 1);
    }
  }

  // Ticks take a federate that asks this way back in time exactly when it asks for the past.
  lemma NeraMovesTimeBack(s: Rtia, date: Time)
    requires (forall e :: e in s.tsos ==> s.now.Le(e.date)) && (s.constrained ==> s.now.Le(s.Lbts()))
    ensures (exists n: nat :: TickN(NextEventRequestAvailable(s, date).rtia, n).now.Lt(s.now)) <==> date.Lt(s.now)
  {
    var s' := NextEventRequestAvailable(s, date).rtia;
    if date.Lt(s.now) {
      if s.tsos != [] {
        assert s.tsos[0] in s.tsos;
      }
      PastIsGrantedNext(s, date);
      assert TickN(s', |Waiting(s)| + 1).now.Lt(s.now);
    } else {
      forall n: nat ensures s.now.Le(TickN(s', n).now) {
        TicksNotBefore(s', s.now, n);
      }
    }
  }

  // After regulation was off and on again, a promise is withheld exactly while an older one exceeds
  // it: the clock the others hold stays where regulation put it.
  lemma OldPromiseWithholdsNew(s: Rtia, between: real, lookahead: real, date: Time)
    requires s.regulating && s.advance == Idle && s.now.Le(date)
    ensures var off := SetTimeRegulating(s, false, between).rtia;
            var on := SetTimeRegulating(off, true, lookahead).rtia;
      TimeAdvanceRequest(on, date).sent == []
      <==> !s.lastNull.Lt(date.Plus(if lookahead == 0.0 then EPSILON2 else lookahead))
  {
  }

  // ---- What arrives too early for its receiver ----

  // Without regulation nothing holds a sender back: its event is queued below the receiver's time exactly when
  // the earliest date it may send lies there.
  lemma UnregulatedSendsIntoPast(sender: Rtia, receiver: Rtia, id: nat)
    requires receiver.constrained
    ensures (exists date ::
               && ValidTime(sender, date) && date.Lt(receiver.now)
               && Receive(receiver, Timed(Event(sender.me, date, id))).Some?
               && Event(sender.me, date, id) in Receive(receiver, Timed(Event(sender.me, date, id))).value.tsos)
       <==> if sender.kind == AfterTarOrNerZeroLookahead then Goal(sender).Lt(receiver.now)
            else Goal(sender).Plus(sender.lookahead).Lt(receiver.now)
  {
    EarliestSend(sender, receiver.now);
    hide ValidTime;
    if date :| ValidTime(sender, date) && date.Lt(receiver.now) {
      InsertedMembers(receiver.tsos, Event(sender.me, date, id));
    }
  }

  // An event of `src`, dated no earlier than its clock says, that would arrive before `bound` is passed.
  ghost predicate MayArriveUpTo(s: Rtia, src: Handle, bound: Time) {
    exists date: Time :: Fits(Get(s.clocks, src), Timed(Event(src, date, 0)), src) && date.Le(bound)
  }

  ghost predicate MayArriveBefore(s: Rtia, src: Handle, bound: Time) {
    exists date: Time :: Fits(Get(s.clocks, src), Timed(Event(src, date, 0)), src) && date.Lt(bound)
  }

  // A new regulator's events may come in below the receiver's time, or within what it has asked for, exactly
  // when the clock it starts with does.
  lemma LateRegulatorSendsIntoPast(s: Rtia, src: Handle, date: Time)
    requires src !in s.clocks
    ensures Receive(s, RegulatorOn(src, date)).Some?
    ensures var s' := Receive(s, RegulatorOn(src, date)).value;
      && (MayArriveBefore(s', src, s.now) <==> date.Lt(s.now))
      && (MayArriveUpTo(s', src, Goal(s)) <==> date.Le(Goal(s)))
  {
    var s' := Receive(s, RegulatorOn(src, date)).value;
    assert Fits(Get(s'.clocks, src), Timed(Event(src, date, 0)), src);
  }

  // A federate that becomes constrained may get events from its past exactly when it has passed its LBTS.
  lemma LateConstraintMissesEvents(s: Rtia)
    requires SetTimeConstrained(s, true).error == NoError
    ensures var s' := SetTimeConstrained(s, true).rtia;
      (exists src :: src in s'.clocks && src != s'.me && MayArriveBefore(s', src, s'.now)) <==> s.Lbts().Lt(s.now)
  {
    var s' := SetTimeConstrained(s, true).rtia;
    assert IsLeast(s.clocks, s.me, s.Lbts());
    if s.Lbts().Lt(s.now) {
      var src :| src in s.clocks && src != s.me && s.clocks[src] == s.Lbts();
      assert Fits(Get(s'.clocks, src), Timed(Event(src, s.Lbts(), 0)), src);
    }
  }
}
