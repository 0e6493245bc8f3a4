/** The time management of an RTIA, as the object its services update in place. */
module TimeManagement {
  import opened FederationTime
  import Lbts
  import opened Messages
  import Queues
  import opened TimeState

  datatype TickState = NoTick | TickBlocking | TickNext | TickCallback | TickReturn

  class TimeManager {
    const queues: Queues.Lists
    const lbts: Lbts.ClockSet
    var tickState: TickState
    var lastNull: Time
    var advance: Advance
    var date: Time
    var kind: GrantKind
    var now: Time
    var lookahead: real
    var regulating: bool
    var constrained: bool
    var asynchronous: bool
    // Everything sent to the RTIG, and everything told to the federate, since the beginning.
    var sent: seq<Message>
    var told: seq<Callback>

    ghost predicate Valid()
      reads this, queues, lbts
    {
      lbts.Valid()
    }

    ghost function View(): Rtia
      reads this, queues, lbts
    {
      Rtia(lbts.me, lbts.clocks, lastNull, advance, date, kind, now, lookahead, regulating, constrained,
           asynchronous, queues.tsos, queues.fifos, queues.commands)
    }

    constructor ()
      ensures Valid() && fresh(queues) && fresh(lbts)
      ensures View() == Initial(0, map[])
      ensures sent == [] && told == [] && tickState == NoTick
    {
      queues := new Queues.Lists();
      lbts := new Lbts.ClockSet();
      tickState := NoTick;
      lastNull, advance, date, kind, now := ZERO, Idle, ZERO, AfterTarOrNer, ZERO;
      lookahead, regulating, constrained, asynchronous := 0.0, false, false, false;
      sent, told := [], [];
    }

    method SendNullMessage(logicalTime: Time)
      modifies this`lastNull, this`sent
      ensures View() == AfterNull(old(View()), logicalTime)
      ensures sent == old(sent) + NullSent(old(View()), logicalTime)
    {
      var promise := logicalTime.Plus(lookahead);
      if lastNull.Lt(promise) {
        sent := sent + [Null(lbts.me, promise)];
        lastNull := promise;
      }
    }

    // Only a regulating federate makes promises.
    method PromiseIfRegulating(logicalTime: Time)
      modifies this`lastNull, this`sent
      ensures View() == AfterPromise(old(View()), logicalTime)
      ensures sent == old(sent) + PromiseSent(old(View()), logicalTime)
    {
      if regulating {
        SendNullMessage(logicalTime);
      }
    }

    // The tests at the head of a request.
    method CheckRequest(logicalTime: Time) returns (e: Error)
      ensures e == RequestError(View(), logicalTime)
    {
      e := NoError;
      if advance != Idle {
        e := TimeAdvanceAlreadyInProgress;
      }
      if logicalTime.Lt(now) {
        e := FederationTimeAlreadyPassed;
      }
    }

    // A zero lookahead is replaced while the advance is pending.
    method TakeSomeLookahead()
      modifies this`lookahead, this`kind
      ensures View() == WithSomeLookahead(old(View()))
    {
      kind := AfterTarOrNer;
      if lookahead == 0.0 {
        lookahead := EPSILON2;
        kind := AfterTarOrNerZeroLookahead;
      }
    }

    method Pend(request: Advance, logicalTime: Time)
      modifies this`advance, this`date
      ensures View() == old(View()).(advance := request, date := logicalTime)
    {
      advance := request;
      date := logicalTime;
    }

    method TimeAdvanceRequest(logicalTime: Time) returns (e: Error)
      requires Valid()
      modifies this`lastNull, this`sent, this`advance, this`date, this`kind, this`lookahead
      ensures Valid()
      ensures var spec := TimeState.TimeAdvanceRequest(old(View()), logicalTime);
        View() == spec.rtia && sent == old(sent) + spec.sent && e == spec.error
    {
      hide View, WithSomeLookahead, AfterPromise, PromiseSent, RequestError;
      e := CheckRequest(logicalTime);
      if e != NoError {
        return;
      }
      TakeSomeLookahead();
      PromiseIfRegulating(logicalTime);
      Pend(TAR, logicalTime);
    }

    method TimeAdvanceRequestAvailable(logicalTime: Time) returns (e: Error)
      requires Valid()
      modifies this`lastNull, this`sent, this`advance, this`date, this`kind
      ensures Valid()
      ensures var spec := TimeState.TimeAdvanceRequestAvailable(old(View()), logicalTime);
        View() == spec.rtia && sent == old(sent) + spec.sent && e == spec.error
    {
      hide AfterPromise, PromiseSent, RequestError;
      e := CheckRequest(logicalTime);
      if e != NoError {
        return;
      }
      kind := AfterTaraOrNera;
      PromiseIfRegulating(logicalTime);
      Pend(TARA, logicalTime);
    }

    method NextEventRequest(logicalTime: Time) returns (e: Error)
      requires Valid()
      modifies this`advance, this`date, this`kind, this`lookahead
      ensures Valid()
      ensures var spec := TimeState.NextEventRequest(old(View()), logicalTime);
        View() == spec.rtia && e == spec.error
    {
      hide View, WithSomeLookahead, AfterPromise, PromiseSent, RequestError;
      e := CheckRequest(logicalTime);
      if e != NoError {
        return;
      }
      TakeSomeLookahead();
      Pend(NER, logicalTime);
    }

    method NextEventRequestAvailable(logicalTime: Time) returns (e: Error)
      requires Valid()
      modifies this`advance, this`date, this`kind
      ensures Valid()
      ensures var spec := TimeState.NextEventRequestAvailable(old(View()), logicalTime);
        View() == spec.rtia && e == spec.error
    {
      e := CheckRequest(logicalTime);
      if e == NoError {
        return;
      }
      kind := AfterTaraOrNera;
      advance := NERA;
      date := logicalTime;
    }

    method SetLookahead(newLookahead: real) returns (e: Error)
      requires Valid()
      modifies this`lastNull, this`sent, this`lookahead
      ensures Valid()
      ensures var spec := TimeState.SetLookahead(old(View()), newLookahead);
        View() == spec.rtia && sent == old(sent) + spec.sent && e == spec.error
    {
      e := NoError;
      if newLookahead < 0.0 {
        e := InvalidLookahead;
      }
      if newLookahead == EPSILON2 {
        e := InternalError;
      }
      if e != NoError {
        return;
      }
      lookahead := newLookahead;
      PromiseIfRegulating(now);
    }

    method SetTimeConstrained(on: bool) returns (e: Error)
      requires Valid()
      modifies this`constrained, this`sent
      ensures Valid()
      ensures var spec := TimeState.SetTimeConstrained(old(View()), on);
        View() == spec.rtia && sent == old(sent) + spec.sent && e == spec.error
    {
      e := NoError;
      if constrained == on || advance != Idle {
        e := InternalError;
        return;
      }
      constrained := on;
      sent := sent + [Constraining(lbts.me, on)];
    }

    method SetTimeRegulating(on: bool, newLookahead: real) returns (e: Error)
      requires Valid()
      modifies this`regulating, this`lookahead, this`sent
      ensures Valid()
      ensures var spec := TimeState.SetTimeRegulating(old(View()), on, newLookahead);
        View() == spec.rtia && sent == old(sent) + spec.sent && e == spec.error
    {
      e := NoError;
      if regulating == on || advance != Idle {
        e := InternalError;
        return;
      }
      regulating := on;
      lookahead := newLookahead;
      sent := sent + [if on then RegulatorOn(lbts.me, now.Plus(lookahead)) else RegulatorOff(lbts.me)];
    }

    method TestValidTime(logicalTime: Time) returns (ok: bool)
      ensures ok == ValidTime(View(), logicalTime)
    {
      if advance == Idle {
        if kind == AfterTarOrNerZeroLookahead {
          if logicalTime.Le(now) { return false; }
        } else {
          if logicalTime.Lt(now.Plus(lookahead)) { return false; }
        }
      } else {
        if kind == AfterTarOrNerZeroLookahead {
          if logicalTime.Le(date) { return false; }
        } else {
          if logicalTime.Lt(date.Plus(lookahead)) { return false; }
        }
      }
      return true;
    }

    method RequestMinNextEventTime() returns (least: Time)
      requires Valid()
      ensures least == MinNextEventTime(View())
    {
      var next := queues.NextTsoDate();
      if next.None? {
        least := lbts.bound;
      } else {
        least := if lbts.bound.Le(next.value) then lbts.bound else next.value;
      }
    }

    method ExecuteFederateService(callback: Callback)
      modifies this`tickState, this`told
      ensures tickState == TickNext && told == old(told) + [callback]
    {
      tickState := TickNext;
      told := told + [callback];
    }

    method TimeAdvanceGrant(logicalTime: Time)
      modifies this`tickState, this`told, this`lookahead, this`now
      ensures View().(advance := Idle) == AfterGrant(old(View()), logicalTime) && advance == old(advance)
      ensures tickState == TickNext && told == old(told) + [Granted(logicalTime)]
    {
      if lookahead == EPSILON2 {
        lookahead := 0.0;
      }
      tickState := TickNext;
      told := told + [Granted(logicalTime)];
      now := logicalTime;
    }

    // A callback leaves the tick in state TickNext; without one the state is as it was.
    twostate predicate Reports(spec: Outcome)
      reads this, queues, lbts
    {
      && View() == spec.rtia
      && sent == old(sent) + spec.sent
      && told == old(told) + spec.told
      && tickState == if spec.told != [] then TickNext else old(tickState)
    }

    // A grant ends the pending advance.
    method GrantAndStop(logicalTime: Time)
      modifies this`tickState, this`told, this`lookahead, this`now, this`advance
      ensures Reports(Grant(old(View()), logicalTime))
    {
      TimeAdvanceGrant(logicalTime);
      advance := Idle;
    }

    method Tick() returns (more: bool)
      requires Valid()
      modifies this, queues
      ensures Valid()
      ensures Reports(TimeState.Tick(old(View()))) && more == TimeState.Tick(old(View())).more
    {
      var command, rest := queues.GiveCommand();
      more := rest;
      if command.None? {
        if asynchronous || advance != Idle || !constrained {
          command, more := queues.GiveFifo();
        }
      }
      if command.Some? {
        ExecuteFederateService(Evoked(command.value));
      } else {
        more := AdvanceTime();
      }
    }

    method AdvanceTime() returns (more: bool)
      requires Valid()
      modifies this`tickState, this`told, this`lookahead, this`now, this`advance, this`date, this`lastNull, this`sent,
               queues`tsos
      ensures Valid()
      ensures Reports(TimeState.AdvanceTime(old(View()))) && more == TimeState.AdvanceTime(old(View())).more
    {
      hide TimeState.TimeAdvance, TimeState.NextEventAdvance;
      more := false;
      match advance {
        case TAR | TARA => more := TimeAdvance();
        case NER | NERA => more := NextEventAdvance();
        case Idle =>
      }
    }

    method TimeAdvance() returns (more: bool)
      requires Valid() && (advance == TAR || advance == TARA)
      modifies this`tickState, this`told, this`lookahead, this`now, this`advance, queues`tsos
      ensures Valid()
      ensures Reports(TimeState.TimeAdvance(old(View()))) && more == TimeState.TimeAdvance(old(View())).more
    {
      more := false;
      if constrained {
        var min := if lbts.bound.Lt(date) then lbts.bound else date;
        var event, rest := queues.GiveTso(min);
        more := rest;
        if event.None? {
          if date.Lt(lbts.bound) || (date.Le(lbts.bound) && advance == TARA) {
            GrantAndStop(date);
          }
        } else {
          ExecuteFederateService(InOrder(event.value));
        }
      } else {
        GrantAndStop(date);
      }
    }

    method NextEventAdvance() returns (more: bool)
      requires Valid() && (advance == NER || advance == NERA)
      modifies this`tickState, this`told, this`lookahead, this`now, this`advance, this`date, this`lastNull, this`sent,
               queues`tsos
      ensures Valid()
      ensures Reports(TimeState.NextEventAdvance(old(View()))) && more == TimeState.NextEventAdvance(old(View())).more
    {
      hide Lbts.Least;
      more := false;
      if constrained {
        var first := queues.NextTsoDate();
        var dateMin := if first.Some? && first.value.Lt(date) then first.value else date;
        if dateMin.Lt(lbts.bound) || (dateMin.Le(lbts.bound) && advance == NERA) {
          date := dateMin;
          more := NextEventReached();
        } else {
          PromiseIfRegulating(lbts.bound);
        }
      } else {
        PromiseIfRegulating(date);
        GrantAndStop(date);
      }
    }

    // The branch of nextEventAdvance in which the target lies within the LBTS.
    method NextEventReached() returns (more: bool)
      modifies this`tickState, this`told, this`lookahead, this`now, this`advance, this`lastNull, this`sent, queues`tsos
      ensures Reports(TimeState.NextEventReached(old(View())))
      ensures more == TimeState.NextEventReached(old(View())).more
    {
      PromiseIfRegulating(date);
      more := DeliverOrGrant();
    }

    // The end of nextEventAdvance, once the target is promised.
    method DeliverOrGrant() returns (more: bool)
      modifies this`tickState, this`told, this`lookahead, this`now, this`advance, queues`tsos
      ensures Reports(TimeState.DeliverOrGrant(old(View())))
      ensures more == TimeState.DeliverOrGrant(old(View())).more
    {
      var event, rest := queues.GiveTso(date);
      more := rest;
      if event.Some? {
        ExecuteFederateService(InOrder(event.value));
      } else {
        GrantAndStop(date);
      }
    }

    // The branches of processNetworkMessage that concern time and the message lists.
    method ProcessNetworkMessage(m: Message) returns (ok: bool)
      requires Valid()
      modifies queues, lbts
      ensures Valid()
      ensures ok == Receive(old(View()), m).Some?
      ensures View() == if ok then Receive(old(View()), m).value else old(View())
    {
      hide Queues.Inserted, Lbts.AllAdvanced, Lbts.Advanced, Lbts.Least;
      ok := true;
      match m {
        case Null(src, date) => ok := lbts.Update(src, date);
        case RegulatorOn(src, date) => ok := lbts.Insert(src, date);
        case RegulatorOff(src) => ok := lbts.Remove(src);
        case Timed(event) =>
          if constrained {
            queues.InsertTso(event);
          } else {
            queues.InsertFifo(m);
          }
        case Plain(_, _) => queues.InsertFifo(m);
        case InitiateSave(_) => queues.InsertBeginCommand(m);
        case SaveEnded(_) => queues.InsertBeginCommand(m);
        case Command(_) => queues.InsertLastCommand(m);
        case _ => ok := false;
      }
    }
  }
}
