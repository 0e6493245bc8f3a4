/** A way to ask for saves by which no start ever overtakes an end: ask when all ends so far have been delivered.

    It is enough to look when asking. A request still on its way when a round begins is taken, and refused,
    before its own federate's report, and so before that round can end.
 */
module CalmSaves {
  import opened FederationTime
  import opened Messages
  import opened RtigState
  import opened SaveOrder
  import opened SaveOvertaking

  predicate NoEnd(q: seq<Tagged>) {
    forall t :: t in q ==> !t.message.SaveEnded?
  }

  // No end is on its way to the federate.
  predicate Calm(st: Station) {
    NoEnd(st.down) && NoEnd(st.commands)
  }

  predicate AllCalm(f: Field) {
    forall h :: h in f.stations ==> Calm(f.stations[h])
  }

  // A request that the RTIA lets through is made when every federate has been told of every end so far.
  predicate AsksCalmly(f: Field, e: Step) {
    e.AsksSave? && e.h in f.stations && !f.stations[e.h].isSaving ==> AllCalm(f)
  }

  predicate AllAskCalmly(f: Field, steps: seq<Step>)
    requires IsRun(f, steps)
    decreases |steps|
  {
    steps == [] || (AsksCalmly(f, steps[0]) && AllAskCalmly(Next(f, steps[0]), steps[1..]))
  }

  // ---- The invariant ----

  predicate NoAsk(up: seq<Call>) {
    forall c :: c in up ==> !c.AskSave?
  }

  predicate NoAsks(f: Field) {
    forall h :: h in f.stations ==> NoAsk(f.stations[h].up)
  }

  // Nothing is asked behind a report.
  predicate AsksFirst(up: seq<Call>) {
    forall i, j :: 0 <= i < j < |up| && up[i].TellSaved? ==> !up[j].AskSave?
  }

  // While a round is on, no end is on its way, the RTIA of a federate told to save knows it, and one that has
  // reported has no request on its way.
  predicate Steady(st: Station, marked: bool, begun: nat, ended: nat) {
    && AsksFirst(st.up)
    && (begun > ended ==> Calm(st) && (st.started == begun ==> st.isSaving) && (!marked ==> NoAsk(st.up)))
  }

  ghost predicate AllSteady(f: Field) {
    && FieldOk(f)
    && (forall h :: h in f.stations ==>
          h in f.rtig.members && Steady(f.stations[h], f.rtig.members[h].saving, f.begun, f.ended))
    && (f.begun == f.ended ==> NoAsks(f) || AllCalm(f))
  }

  // ---- Steps of one station ----

  lemma AskIsSteady(st: Station, title: string, marked: bool, begun: nat, ended: nat)
    requires StationOk(st, marked, begun, ended) && Steady(st, marked, begun, ended) && !st.isSaving
    requires marked ==> begun > ended
    ensures Steady(Asked(st, title), marked, begun, ended)
  {
    assert NoReport(st.up);
    hide StationOk, Calm;
  }

  lemma AloneIsSteady(st: Station, e: Step, marked: bool, begun: nat, ended: nat)
    requires StationOk(st, marked, begun, ended) && Steady(st, marked, begun, ended) && (marked ==> begun > ended)
    requires !e.RtigTakes? && (e.RtiaTakes? ==> st.down != []) && (e.Ticks? ==> st.commands != [])
    ensures Steady(Alone(st, e, begun), marked, begun, ended)
    ensures Calm(st) ==> Calm(Alone(st, e, begun))
    ensures NoAsk(st.up) && !(e.AsksSave? && !st.isSaving) ==> NoAsk(Alone(st, e, begun).up)
  {
    if e.AsksSave? {
      if !st.isSaving {
        AskIsSteady(st, e.title, marked, begun, ended);
      }
    }
    hide StationOk;
  }

  // ---- Steps of the RTIG ----

  // A station after the RTIG took a call: it may have lost its first call and been sent one message.
  predicate AfterTaking(st: Station, st': Station, lost: bool, sent: Option<Tagged>) {
    && (lost ==> st.up != [])
    && st' == st.(up := if lost then st.up[1..] else st.up,
                  down := if sent.Some? then st.down + [sent.value] else st.down)
  }

  lemma AllSentTaking(f: Field, h: Handle, f': Field, message: Option<Message>, k: Handle)
    requires h in f.stations && f.stations[h].up != [] && AllSent(f, h, f', message) && k in f.stations
    ensures k in f'.stations
    ensures AfterTaking(f.stations[k], f'.stations[k], k == h,
                        if message.Some? then Some(Tagged(message.value, f'.begun)) else None)
  {
  }

  lemma HeadAsks(up: seq<Call>)
    requires up != [] && AsksFirst(up)
    ensures AsksFirst(up[1..]) && (up[0].TellSaved? ==> NoAsk(up[1..])) && (NoAsk(up) ==> NoAsk(up[1..]))
  {
  }

  // Within a round, or at its end.
  lemma TakingIsSteady(st: Station, st': Station, lost: bool, sent: Option<Tagged>, marked: bool, marked': bool,
                       begun: nat, ended: nat, ended': nat)
    requires Steady(st, marked, begun, ended) && AfterTaking(st, st', lost, sent) && begun > ended
    requires if lost && st.up[0].TellSaved? then !marked' else marked' == marked
    requires if sent.Some? then ended' == begun else ended' == ended
    ensures Steady(st', marked', begun, ended')
    ensures !marked' ==> NoAsk(st'.up)
  {
    if lost {
      HeadAsks(st.up);
    }
  }

  lemma BeginIsSteady(st: Station, st': Station, lost: bool, start: Tagged, begun: nat, ended: nat)
    requires Steady(st, false, begun, ended) && AfterTaking(st, st', lost, Some(start)) && Calm(st)
    requires start.message.InitiateSave? && st.started <= begun
    ensures Steady(st', true, begun + 1, ended)
  {
    if lost {
      HeadAsks(st.up);
    }
  }

  // ---- Steps of the whole ----

  lemma SteadyOf(f: Field, h: Handle)
    requires AllSteady(f) && h in f.stations
    ensures h in f.rtig.members && StationOk(f.stations[h], f.rtig.members[h].saving, f.begun, f.ended)
    ensures Steady(f.stations[h], f.rtig.members[h].saving, f.begun, f.ended)
    ensures f.begun == f.ended + (if f.rtig.saveInProgress then 1 else 0)
    ensures f.rtig.members[h].saving ==> f.begun > f.ended
  {
    hide StationOk, Steady;
    assert f.rtig.members[h].saving ==> AnySaving(f.rtig);
  }

  lemma SteadyFrom(f: Field)
    requires FieldOk(f) && f.stations.Keys == f.rtig.members.Keys
    requires forall h :: h in f.stations ==> Steady(f.stations[h], f.rtig.members[h].saving, f.begun, f.ended)
    requires f.begun == f.ended ==> NoAsks(f) || AllCalm(f)
    ensures AllSteady(f)
  {
  }

  lemma AloneKeepsSteady(f: Field, e: Step)
    requires AllSteady(f) && Allowed(f, e) && AsksCalmly(f, e) && ReportsOnce(f, e) && !e.RtigTakes?
    ensures AllSteady(Next(f, e))
  {
    StepKeeps(f, e);
    SteadyOf(f, e.h);
    assert f.rtig.members.Keys == f.stations.Keys;
    hide FieldOk, StationOk, Steady, Calm, NoAsk, Alone;
    AloneIsSteady(f.stations[e.h], e, f.rtig.members[e.h].saving, f.begun, f.ended);
    var f' := Next(f, e);
    assert f'.rtig == f.rtig && f'.begun == f.begun && f'.ended == f.ended;
    assert f'.stations == f.stations[e.h := Alone(f.stations[e.h], e, f.begun)];
    assert AllCalm(f) ==> AllCalm(f');
    assert NoAsks(f) && !AllCalm(f) ==> NoAsks(f');
    hide Next, Allowed, AllCalm, NoAsks, AsksCalmly;
    SteadyFrom(f');
  }

  // The RTIG refuses to begin another round.
  lemma RefusalKeepsSteady(f: Field, h: Handle, written: bool)
    requires AllSteady(f) && h in f.stations && f.stations[h].up != [] && f.stations[h].up[0].AskSave?
    requires f.rtig.saveInProgress && FieldOk(Taken(f, h, written))
    ensures AllSteady(Taken(f, h, written))
  {
    var f' := Taken(f, h, written);
    SentNothing(f, h, written);
    assert f'.rtig == f.rtig && f'.begun == f.begun && f'.ended == f.ended && f'.stations.Keys == f.stations.Keys;
    SteadyOf(f, h);
    assert f.rtig.members.Keys == f.stations.Keys;
    hide AllSteady, FieldOk, StationOk, Steady, AllSent, Taken, AfterTaking;
    forall k | k in f'.stations ensures Steady(f'.stations[k], f'.rtig.members[k].saving, f'.begun, f'.ended) {
      SteadyOf(f, k);
      AllSentTaking(f, h, f', None, k);
      TakingIsSteady(f.stations[k], f'.stations[k], k == h, None, f.rtig.members[k].saving, f.rtig.members[k].saving,
                     f.begun, f.ended, f.ended);
    }
    SteadyFrom(f');
  }

  lemma SomeoneAsks(f: Field, h: Handle)
    requires AllSteady(f) && !f.rtig.saveInProgress
    requires h in f.stations && f.stations[h].up != [] && f.stations[h].up[0].AskSave?
    ensures AllCalm(f)
  {
    SteadyOf(f, h);
    assert !NoAsk(f.stations[h].up);
  }

  lemma StartedInTime(st: Station, marked: bool, begun: nat, ended: nat)
    requires StationOk(st, marked, begun, ended)
    ensures st.started <= begun
  {
  }

  // It begins a round.
  lemma BeginningKeepsSteady(f: Field, h: Handle, written: bool)
    requires AllSteady(f) && h in f.stations && f.stations[h].up != [] && f.stations[h].up[0].AskSave?
    requires !f.rtig.saveInProgress && FieldOk(Taken(f, h, written))
    ensures AllSteady(Taken(f, h, written))
  {
    var f', start := Taken(f, h, written), InitiateSave(f.stations[h].up[0].title);
    Begun(f, h, written);
    SomeoneAsks(f, h);
    SteadyOf(f, h);
    assert f.rtig.members.Keys == f.stations.Keys && f'.stations.Keys == f.stations.Keys;
    hide AllSteady, FieldOk, StationOk, Steady, AllSent, Taken, AfterTaking, Calm;
    forall k | k in f'.stations ensures Steady(f'.stations[k], f'.rtig.members[k].saving, f'.begun, f'.ended) {
      SteadyOf(f, k);
      StartedInTime(f.stations[k], f.rtig.members[k].saving, f.begun, f.ended);
      AllSentTaking(f, h, f', Some(start), k);
      BeginIsSteady(f.stations[k], f'.stations[k], k == h, Tagged(start, f'.begun), f.begun, f.ended);
    }
    SteadyFrom(f');
  }

  // It takes a report with others to come.
  lemma ReportKeepsSteady(f: Field, h: Handle, written: bool)
    requires AllSteady(f) && h in f.stations && f.stations[h].up != [] && f.stations[h].up[0].TellSaved?
    requires !IsLast(f, h) && FieldOk(Taken(f, h, written))
    ensures AllSteady(Taken(f, h, written))
  {
    var f' := Taken(f, h, written);
    Continued(f, h, written);
    SentNothing(f, h, written);
    assert f.rtig.members.Keys == f.stations.Keys;
    hide AllSteady, FieldOk, StationOk, Steady, AllSent, Taken, AfterTaking, Answered;
    forall k | k in f'.stations ensures Steady(f'.stations[k], f'.rtig.members[k].saving, f'.begun, f'.ended) {
      SteadyOf(f, k);
      AllSentTaking(f, h, f', None, k);
      TakingIsSteady(f.stations[k], f'.stations[k], k == h, None, f.rtig.members[k].saving, f'.rtig.members[k].saving,
                     f.begun, f.ended, f.ended);
    }
    SteadyFrom(f');
  }

  // It takes the last report and ends the round; by then no request is on its way.
  lemma EndKeepsSteady(f: Field, h: Handle, written: bool)
    requires AllSteady(f) && h in f.stations && f.stations[h].up != [] && f.stations[h].up[0].TellSaved?
    requires IsLast(f, h) && FieldOk(Taken(f, h, written))
    ensures AllSteady(Taken(f, h, written))
  {
    var f', end := Taken(f, h, written), SaveEnded(f.rtig.saveStatus && f.stations[h].up[0].saved && written);
    SteadyOf(f, h);
    ReportTakenKeepsStation(f.stations[h], f.rtig.members[h].saving, f.begun, f.ended);
    Ended(f, h, written);
    SentOne(f, h, written, end);
    assert f.rtig.members.Keys == f.stations.Keys;
    hide AllSteady, FieldOk, StationOk, Steady, AllSent, Taken, AfterTaking, Answered, NoAsk;
    forall k | k in f'.stations
      ensures Steady(f'.stations[k], f'.rtig.members[k].saving, f'.begun, f'.ended) && NoAsk(f'.stations[k].up)
    {
      SteadyOf(f, k);
      AllSentTaking(f, h, f', Some(end), k);
      TakingIsSteady(f.stations[k], f'.stations[k], k == h, Some(Tagged(end, f'.begun)), f.rtig.members[k].saving,
                     f'.rtig.members[k].saving, f.begun, f.ended, f'.ended);
    }
    SteadyFrom(f');
  }

  lemma StepKeepsSteady(f: Field, e: Step)
    requires AllSteady(f) && Allowed(f, e) && AsksCalmly(f, e) && ReportsOnce(f, e)
    ensures AllSteady(Next(f, e))
  {
    StepKeeps(f, e);
    hide AllSteady, FieldOk, Taken, Alone;
    if !e.RtigTakes? {
      AloneKeepsSteady(f, e);
    } else if f.stations[e.h].up[0].TellSaved? {
      if IsLast(f, e.h) { EndKeepsSteady(f, e.h, e.written); } else { ReportKeepsSteady(f, e.h, e.written); }
    } else if f.rtig.saveInProgress {
      RefusalKeepsSteady(f, e.h, e.written);
    } else {
      BeginningKeepsSteady(f, e.h, e.written);
    }
  }

  // ---- Over runs ----

  // While a start is on its way to a federate, no end is.
  lemma StartFindsCalm(f: Field, h: Handle)
    requires AllSteady(f) && h in f.stations && f.stations[h].down != [] && f.stations[h].down[0].message.InitiateSave?
    ensures Calm(f.stations[h])
  {
    SteadyOf(f, h);
    assert f.stations[h].down[0] in f.stations[h].down && !NoStart(f.stations[h].down);
    hide AllSteady;
  }

  lemma CalmHasNoEnd(st: Station, end: nat)
    requires Calm(st)
    ensures !Has(st.commands, End(end))
  {
  }

  lemma NothingQueuedOver(f: Field, e: Step, h: Handle, start: nat, end: nat)
    requires AllSteady(f)
    ensures !QueuesOver(f, e, h, Start(start), End(end))
  {
    hide AllSteady, Calm, Has;
    if h in f.stations && f.stations[h].down != [] && f.stations[h].down[0].message.InitiateSave? {
      StartFindsCalm(f, h);
      CalmHasNoEnd(f.stations[h], end);
    }
  }

  lemma {:induction false} NothingEverQueuedOver(f: Field, steps: seq<Step>, h: Handle, start: nat, end: nat)
    requires AllSteady(f) && IsRun(f, steps) && AllAskCalmly(f, steps) && AllReportOnce(f, steps)
    ensures !EverQueuedOver(f, steps, h, Start(start), End(end))
    decreases |steps|
  {
    hide AllSteady, Next, Allowed, AsksCalmly, ReportsOnce, QueuesOver;
    if steps != [] {
      NothingQueuedOver(f, steps[0], h, start, end);
      StepKeepsSteady(f, steps[0]);
      NothingEverQueuedOver(Next(f, steps[0]), steps[1..], h, start, end);
    }
  }

  // In every run in which federates ask calmly and report once, no federate is told the start of a round before
  // the end of an earlier one.
  lemma CalmAsksKeepOrder(members: set<Handle>, steps: seq<Step>, h: Handle, start: nat, end: nat)
    requires IsRun(Begin(members), steps) && AllAskCalmly(Begin(members), steps)
    requires AllReportOnce(Begin(members), steps) && h in members && end < start
    ensures h in After(Begin(members), steps).stations
    ensures !Precedes(After(Begin(members), steps).stations[h].delivered, Start(start), End(end))
  {
    BeginIsOk(members);
    StartsSteady(members);
    assert SentBefore(End(end), Start(start));
    hide *;
    NothingEverQueuedOver(Begin(members), steps, h, start, end);
    LaterToldFirstIffQueuedOver(members, steps, h, Start(start), End(end));
  }

  lemma StartsSteady(members: set<Handle>)
    requires FieldOk(Begin(members))
    ensures AllSteady(Begin(members))
  {
    hide FieldOk;
  }
}
