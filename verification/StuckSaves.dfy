/** When a save that began can end, and what keeps it from ending.

    A federate is stuck when the RTIG waits for its report and its RTIA, believing that no save is on, refuses it.
    It comes to that exactly when it is told an older end after the start of the save and before its report is
    let through; and a save can end exactly while no federate is stuck.
 */
module StuckSaves {
  import opened FederationTime
  import opened Messages
  import opened RtigState
  import opened SaveOrder
  import opened SaveOvertaking
  import opened CalmSaves

  // The RTIG waits for the report of `h`; none is on its way, its RTIA lets none through, and no start is on its
  // way that would change that.
  predicate Stuck(f: Field, h: Handle) {
    && h in f.stations && h in f.rtig.members && f.rtig.members[h].saving
    && var st := f.stations[h];
       !st.isSaving && NoReport(st.up) && NoStart(st.down) && NoStart(st.commands)
  }

  // The federate is told an end while its own report on the present save has yet to be let through.
  predicate Misses(f: Field, e: Step, h: Handle) {
    && e == Ticks(h) && h in f.stations && h in f.rtig.members && f.rtig.members[h].saving
    && var st := f.stations[h];
       && st.commands != [] && st.commands[0].message.SaveEnded?
       && st.isSaving && st.started == f.begun && !st.reported
  }

  predicate EverMisses(f: Field, steps: seq<Step>, h: Handle)
    requires IsRun(f, steps)
    decreases |steps|
  {
    steps != [] && (Misses(f, steps[0], h) || EverMisses(Next(f, steps[0]), steps[1..], h))
  }

  // ---- One step ----

  // The station of a federate whose report the RTIG waits for.
  predicate StuckStation(st: Station) {
    !st.isSaving && NoReport(st.up) && NoStart(st.down) && NoStart(st.commands)
  }

  predicate MissesAlone(st: Station, e: Step, begun: nat) {
    && e.Ticks? && st.commands != [] && st.commands[0].message.SaveEnded?
    && st.isSaving && st.started == begun && !st.reported
  }

  lemma TickSticks(st: Station, e: Step, begun: nat, ended: nat)
    requires StationOk(st, true, begun, ended) && e.Ticks? && st.commands != []
    ensures StuckStation(Alone(st, e, begun)) <==> StuckStation(st) || MissesAlone(st, e, begun)
  {
    HeadStart(st.commands, begun);
    hide NoReport, OneReport, NoStart, OneStart, EndsOver, InOrder, AllStarted;
    if OneReport(st.up) {
      ReportIsThere(st.up);
    }
    if OneStart(st.down, begun) {
      StartIsThere(st.down, begun);
    }
    if OneStart(st.commands, begun) {
      StartIsThere(st.commands, begun);
    }
    if OneStart(st.commands[1..], begun) {
      StartIsThere(st.commands[1..], begun);
    }
  }

  lemma ReportIsThere(up: seq<Call>)
    requires OneReport(up)
    ensures !NoReport(up)
  {
  }

  lemma StartIsThere(q: seq<Tagged>, round: nat)
    requires OneStart(q, round)
    ensures !NoStart(q)
  {
  }

  lemma TakeSticks(st: Station)
    requires st.down != []
    ensures StuckStation(st.(down := st.down[1..], commands := Queued(st.commands, st.down[0]))) <==> StuckStation(st)
  {
    var q := Queued(st.commands, st.down[0]);
    assert st.down == [st.down[0]] + st.down[1..];
    assert forall t :: t in q <==> t in st.commands || t == st.down[0];
  }

  lemma AloneSticks(st: Station, e: Step, begun: nat, ended: nat)
    requires StationOk(st, true, begun, ended) && !e.RtigTakes?
    requires (e.RtiaTakes? ==> st.down != []) && (e.Ticks? ==> st.commands != [])
    ensures StuckStation(Alone(st, e, begun)) <==> StuckStation(st) || MissesAlone(st, e, begun)
  {
    if e.Ticks? {
      TickSticks(st, e, begun, ended);
    } else if e.RtiaTakes? {
      TakeSticks(st);
    } else {
      hide StationOk;
    }
  }

  // What the RTIG does about the mark of `h` and its station when it takes a call of `k`.
  lemma TakingSticks(f: Field, k: Handle, written: bool, h: Handle)
    requires FieldOk(f) && k in f.stations && f.stations[k].up != [] && h in f.stations
    ensures Stuck(Taken(f, k, written), h) <==> Stuck(f, h)
  {
    FieldOf(f, h);
    FieldOf(f, k);
    var call := f.stations[k].up[0];
    if call.TellSaved? {
      ReportSticks(f, k, written, h);
    } else if f.rtig.saveInProgress {
      AskSticks(f, k, written, h);
    } else {
      Begun(f, k, written);
      var f', start := Taken(f, k, written), InitiateSave(call.title);
      AllSentTaking(f, k, f', Some(start), h);
      assert f'.stations[h].down[|f.stations[h].down|] == Tagged(start, f'.begun);
      assert !NoStart(f'.stations[h].down);
      hide FieldOk, StationOk, Taken, AllSent, NoStart;
    }
  }

  // The RTIG refuses a request: the station of `k` loses it, and that is all.
  lemma Refusal(f: Field, k: Handle, written: bool)
    requires FieldOk(f) && k in f.stations && f.stations[k].up != [] && f.stations[k].up[0].AskSave?
    requires f.rtig.saveInProgress
    ensures var f' := Taken(f, k, written);
      && f'.rtig == f.rtig && f'.begun == f.begun && f'.ended == f.ended
      && f'.stations == f.stations[k := f.stations[k].(up := f.stations[k].up[1..])]
  {
    hide FieldOk;
    SentNothing(f, k, written);
    assert Taken(f, k, written).rtig == f.rtig;
    RefusalStations(f, k, written);
    hide Taken;
  }

  lemma RefusalStations(f: Field, k: Handle, written: bool)
    requires k in f.stations && f.stations[k].up != [] && AllSent(f, k, Taken(f, k, written), None)
    ensures Taken(f, k, written).stations == f.stations[k := f.stations[k].(up := f.stations[k].up[1..])]
  {
    hide Taken;
  }

  lemma AskSticks(f: Field, k: Handle, written: bool, h: Handle)
    requires FieldOk(f) && k in f.stations && f.stations[k].up != [] && f.stations[k].up[0].AskSave? && h in f.stations
    requires f.rtig.saveInProgress
    ensures Stuck(Taken(f, k, written), h) <==> Stuck(f, h)
  {
    Refusal(f, k, written);
    AskLeavesReport(f.stations[k].up);
    hide FieldOk, Taken, NoStart, NoReport;
  }

  lemma ReportSticks(f: Field, k: Handle, written: bool, h: Handle)
    requires FieldOk(f) && k in f.stations && f.stations[k].up != [] && f.stations[k].up[0].TellSaved?
    requires h in f.stations
    ensures Stuck(Taken(f, k, written), h) <==> Stuck(f, h)
  {
    var f', up := Taken(f, k, written), f.stations[k].up;
    FieldOf(f, k);
    ReportTakenKeepsStation(f.stations[k], f.rtig.members[k].saving, f.begun, f.ended);
    assert up[0] in up;
    if IsLast(f, k) {
      Ended(f, k, written);
      hide FieldOk, StationOk, Taken, Answered;
    } else {
      Continued(f, k, written);
      SentNothing(f, k, written);
      AllSentTaking(f, k, f', None, h);
      hide FieldOk, StationOk, Taken, Answered, AllSent;
    }
  }

  lemma StuckParts(f: Field, h: Handle)
    requires h in f.stations
    ensures Stuck(f, h) <==> h in f.rtig.members && f.rtig.members[h].saving && StuckStation(f.stations[h])
  {
  }

  lemma StepSticks(f: Field, e: Step, h: Handle)
    requires FieldOk(f) && Allowed(f, e) && h in f.stations
    ensures h in Next(f, e).stations
    ensures Stuck(Next(f, e), h) <==> Stuck(f, h) || Misses(f, e, h)
  {
    FieldOf(f, h);
    if e.RtigTakes? {
      TakingSticks(f, e.h, e.written, h);
      hide FieldOk, StationOk, Stuck;
    } else {
      hide FieldOk, StationOk, Stuck, StuckStation, Alone;
      StuckParts(f, h);
      StuckParts(Next(f, e), h);
      if e.h == h && f.rtig.members[h].saving {
        AloneSticks(f.stations[h], e, f.begun, f.ended);
      }
    }
  }

  // ---- Over runs ----

  // Over any run a federate is stuck at the end exactly when it was before, or was told an end at the wrong time.
  lemma {:induction false} StuckIffMissed(f: Field, steps: seq<Step>, h: Handle)
    requires FieldOk(f) && IsRun(f, steps) && AllReportOnce(f, steps) && h in f.stations
    ensures Stuck(After(f, steps), h) <==> Stuck(f, h) || EverMisses(f, steps, h)
    decreases |steps|
  {
    hide FieldOk, Stuck, Next, Allowed, ReportsOnce, Misses;
    if steps != [] {
      StepSticks(f, steps[0], h);
      StepKeeps(f, steps[0]);
      StuckIffMissed(Next(f, steps[0]), steps[1..], h);
    }
  }

  lemma StuckIsBusy(f: Field, h: Handle)
    requires FieldOk(f) && Stuck(f, h)
    ensures f.rtig.saveInProgress
  {
  }

  // Once a federate is stuck the save never ends, whatever the federates do.
  lemma StuckForever(f: Field, steps: seq<Step>, h: Handle)
    requires FieldOk(f) && IsRun(f, steps) && AllReportOnce(f, steps) && Stuck(f, h)
    ensures Stuck(After(f, steps), h) && After(f, steps).rtig.saveInProgress
  {
    hide FieldOk, Stuck, EverMisses, After, IsRun, AllReportOnce;
    assert h in f.stations by { StuckIsThere(f, h); }
    StuckIffMissed(f, steps, h);
    RunKeeps(f, steps);
    StuckIsBusy(After(f, steps), h);
  }

  lemma StuckIsThere(f: Field, h: Handle)
    requires Stuck(f, h)
    ensures h in f.stations
  {
  }

  // ---- When a save can end ----

  lemma Push(f: Field, e: Step, steps: seq<Step>)
    requires Allowed(f, e) && ReportsOnce(f, e) && IsRun(Next(f, e), steps) && AllReportOnce(Next(f, e), steps)
    ensures IsRun(f, [e] + steps) && AllReportOnce(f, [e] + steps)
    ensures After(f, [e] + steps) == After(Next(f, e), steps)
  {
    assert ([e] + steps)[1..] == steps;
    hide Next, Allowed, ReportsOnce;
  }

  lemma {:induction false} RunsOn(f: Field, a: seq<Step>, b: seq<Step>)
    requires IsRun(f, a) && AllReportOnce(f, a) && IsRun(After(f, a), b) && AllReportOnce(After(f, a), b)
    ensures IsRun(f, a + b) && AllReportOnce(f, a + b) && After(f, a + b) == After(After(f, a), b)
    decreases |a|
  {
    hide Next, Allowed, ReportsOnce;
    if a == [] {
      assert a + b == b;
    } else {
      assert (a + b)[0] == a[0] && (a + b)[1..] == a[1..] + b;
      RunsOn(Next(f, a[0]), a[1..], b);
    }
  }

  // How far a federate is from having its report taken: first it must be told the start, then report, then the
  // RTIG must come to the report.
  ghost function Phase(st: Station, begun: nat): nat {
    if st.started != begun then 2 else if NoReport(st.up) then 1 else 0
  }

  ghost function Distance(st: Station, begun: nat): nat {
    if st.started != begun then 2 * |st.down| + |st.commands| else if NoReport(st.up) then 0 else |st.up|
  }

  // The next step on the way.
  ghost function Forth(st: Station, h: Handle, begun: nat): Step {
    if st.started != begun then (if st.commands != [] then Ticks(h) else RtiaTakes(h))
    else if NoReport(st.up) then Reports(h, true) else RtigTakes(h, true)
  }

  lemma ForthIsAllowed(st: Station, h: Handle, begun: nat, ended: nat)
    requires StationOk(st, true, begun, ended) && !StuckStation(st)
    ensures var e := Forth(st, h, begun);
      && (e.Ticks? ==> st.commands != []) && (e.RtiaTakes? ==> st.down != []) && (e.RtigTakes? ==> st.up != [])
      && (e.Reports? ==> st.isSaving && !st.reported)
      && !MissesAlone(st, e, begun)
  {
    hide EndsOver, InOrder, AllStarted;
    if OneReport(st.up) {
      ReportIsThere(st.up);
    }
  }

  lemma ForthAlone(st: Station, h: Handle, begun: nat, ended: nat)
    requires StationOk(st, true, begun, ended) && !StuckStation(st) && !Forth(st, h, begun).RtigTakes?
    ensures var e := Forth(st, h, begun);
      && (e.RtiaTakes? ==> st.down != []) && (e.Ticks? ==> st.commands != [])
      && var st' := Alone(st, e, begun);
      || Phase(st', begun) < Phase(st, begun)
      || (Phase(st', begun) == Phase(st, begun) && Distance(st', begun) < Distance(st, begun))
  {
    ForthIsAllowed(st, h, begun, ended);
    HeadOfCommands(st, begun, ended);
    var up := st.up + [TellSaved(true)];
    assert up[|st.up|] == TellSaved(true) && up[|st.up|] in up;
    hide StationOk, StuckStation;
  }

  lemma HeadOfCommands(st: Station, begun: nat, ended: nat)
    requires StationOk(st, true, begun, ended)
    ensures st.started != begun ==> st.started + 1 == begun
  {
  }

  // A call taken while the save goes on changes no other federate.
  ghost predicate Others(f: Field, f': Field, h: Handle) {
    && f'.stations.Keys == f.stations.Keys && f'.rtig.members.Keys == f.rtig.members.Keys && f'.begun == f.begun
    && forall k :: k in f.stations && k in f.rtig.members && k != h ==>
         f'.stations[k] == f.stations[k] && f'.rtig.members[k].saving == f.rtig.members[k].saving
  }

  // The call of `h` that the RTIG takes is refused, or is the report.
  lemma ForthRefused(f: Field, h: Handle)
    requires FieldOk(f) && f.rtig.saveInProgress && h in f.stations && f.stations[h].up != []
    requires f.stations[h].up[0].AskSave?
    ensures var f' := Taken(f, h, true);
      Others(f, f', h) && f'.rtig == f.rtig && f'.stations[h] == f.stations[h].(up := f.stations[h].up[1..])
  {
    hide FieldOk, Taken;
    Refusal(f, h, true);
  }

  lemma ForthReported(f: Field, h: Handle)
    requires FieldOk(f) && h in f.stations && f.stations[h].up != [] && f.stations[h].up[0].TellSaved?
    ensures var f' := Taken(f, h, true);
      f'.rtig.saveInProgress ==> Others(f, f', h) && h in f'.rtig.members && !f'.rtig.members[h].saving
  {
    var f' := Taken(f, h, true);
    FieldOf(f, h);
    hide FieldOk, StationOk, Taken, Answered, AllSent;
    if IsLast(f, h) {
      ReportTakenKeepsStation(f.stations[h], f.rtig.members[h].saving, f.begun, f.ended);
      hide Others;
      Ended(f, h, true);
    } else {
      Continued(f, h, true);
      SentNothing(f, h, true);
      hide IsLast;
      forall k | k in f.stations ensures k in f'.stations && (k != h ==> f'.stations[k] == f.stations[k]) {
        AllSentTaking(f, h, f', None, k);
      }
    }
  }

  // The mark of `h` is gone and nothing else has changed, or the save is over.
  ghost predicate BroughtIn(f: Field, f': Field, h: Handle) {
    f'.rtig.saveInProgress ==> Others(f, f', h) && h in f'.rtig.members && !f'.rtig.members[h].saving
  }

  lemma OthersStay(f: Field, f1: Field, f2: Field, h: Handle)
    requires f.stations.Keys == f.rtig.members.Keys
    requires Others(f, f1, h) && BroughtIn(f1, f2, h)
    ensures BroughtIn(f, f2, h)
  {
  }

  // A step forth of `h`: it brings the report in, or brings it nearer.
  ghost predicate StepsForth(f: Field, e: Step, h: Handle)
    requires h in f.stations
  {
    && Allowed(f, e) && ReportsOnce(f, e)
    && var f1 := Next(f, e);
    && FieldOk(f1)
    && (BroughtIn(f, f1, h) ||
        (&& Others(f, f1, h) && f1.rtig.saveInProgress && h in f1.stations && h in f1.rtig.members
         && f1.rtig.members[h].saving && !Stuck(f1, h)
         && (Phase(f1.stations[h], f1.begun) < Phase(f.stations[h], f.begun) ||
             (Phase(f1.stations[h], f1.begun) == Phase(f.stations[h], f.begun)
              && Distance(f1.stations[h], f1.begun) < Distance(f.stations[h], f.begun)))))
  }

  lemma AloneStepsForth(f: Field, h: Handle)
    requires FieldOk(f) && f.rtig.saveInProgress && h in f.stations && h in f.rtig.members
    requires f.rtig.members[h].saving && !Stuck(f, h) && !Forth(f.stations[h], h, f.begun).RtigTakes?
    ensures StepsForth(f, Forth(f.stations[h], h, f.begun), h)
  {
    var st, e := f.stations[h], Forth(f.stations[h], h, f.begun);
    FieldOf(f, h);
    StuckParts(f, h);
    hide FieldOk, StationOk, StuckStation, Alone, Phase, Distance, Stuck, Others, BroughtIn;
    ForthIsAllowed(st, h, f.begun, f.ended);
    ForthAlone(st, h, f.begun, f.ended);
    assert Allowed(f, e) && ReportsOnce(f, e) && !Misses(f, e, h);
    StepKeeps(f, e);
    StepSticks(f, e, h);
    AloneLeavesOthers(f, e);
    hide Next, Allowed, ReportsOnce, Misses, Forth;
  }

  lemma AloneLeavesOthers(f: Field, e: Step)
    requires Allowed(f, e) && !e.RtigTakes?
    ensures Others(f, Next(f, e), e.h)
    ensures Next(f, e).rtig == f.rtig && Next(f, e).stations[e.h] == Alone(f.stations[e.h], e, f.begun)
  {
    hide Alone;
  }

  lemma TakingStepsForth(f: Field, h: Handle)
    requires FieldOk(f) && f.rtig.saveInProgress && h in f.stations && h in f.rtig.members
    requires f.rtig.members[h].saving && !Stuck(f, h) && Forth(f.stations[h], h, f.begun).RtigTakes?
    ensures StepsForth(f, RtigTakes(h, true), h)
  {
    var st, e := f.stations[h], RtigTakes(h, true);
    FieldOf(f, h);
    StuckParts(f, h);
    hide FieldOk, StationOk, StuckStation, Taken, Stuck, Others, NoReport;
    ForthIsAllowed(st, h, f.begun, f.ended);
    StepKeeps(f, e);
    StepSticks(f, e, h);
    if st.up[0].AskSave? {
      ForthRefused(f, h);
      AskLeavesReport(st.up);
    } else {
      ForthReported(f, h);
    }
  }

  lemma {:induction false} BringReport(f: Field, h: Handle) returns (steps: seq<Step>)
    requires FieldOk(f) && f.rtig.saveInProgress && h in f.stations && h in f.rtig.members
    requires f.rtig.members[h].saving && !Stuck(f, h)
    ensures IsRun(f, steps) && AllReportOnce(f, steps) && FieldOk(After(f, steps)) && BroughtIn(f, After(f, steps), h)
    decreases Phase(f.stations[h], f.begun), Distance(f.stations[h], f.begun)
  {
    var e := Forth(f.stations[h], h, f.begun);
    if e.RtigTakes? {
      TakingStepsForth(f, h);
    } else {
      AloneStepsForth(f, h);
    }
    FieldKeys(f);
    hide FieldOk, Stuck, Next, Allowed, ReportsOnce, Others, BroughtIn, Phase, Distance;
    var f1 := Next(f, e);
    if BroughtIn(f, f1, h) {
      OneStep(f, e);
      return [e];
    }
    var rest := BringReport(f1, h);
    Push(f, e, rest);
    OthersStay(f, f1, After(f1, rest), h);
    steps := [e] + rest;
  }

  lemma OneStep(f: Field, e: Step)
    requires Allowed(f, e) && ReportsOnce(f, e)
    ensures IsRun(f, [e]) && AllReportOnce(f, [e]) && After(f, [e]) == Next(f, e)
  {
    Push(f, e, []);
    assert [e] + [] == [e];
  }

  lemma AskLeavesReport(up: seq<Call>)
    requires up != [] && up[0].AskSave?
    ensures NoReport(up) <==> NoReport(up[1..])
  {
    assert up == [up[0]] + up[1..];
  }

  lemma FieldKeys(f: Field)
    requires FieldOk(f)
    ensures f.stations.Keys == f.rtig.members.Keys
  {
  }

  lemma NotStuck(f: Field, f': Field, h: Handle, k: Handle)
    requires f.stations.Keys == f.rtig.members.Keys && k in f'.stations && f'.rtig.saveInProgress
    requires BroughtIn(f, f', h) && !Stuck(f, k)
    ensures !Stuck(f', k)
  {
  }

  ghost function Marked(f: Field): set<Handle> {
    set h | h in f.rtig.members && f.rtig.members[h].saving
  }

  lemma FewerMarked(f: Field, f': Field, h: Handle)
    requires f.stations.Keys == f.rtig.members.Keys && f'.rtig.saveInProgress
    requires BroughtIn(f, f', h) && h in f.rtig.members && f.rtig.members[h].saving
    ensures Marked(f') == Marked(f) - {h} && h in Marked(f)
  {
  }

  ghost predicate NobodyStuck(f: Field) {
    forall h :: h in f.stations ==> !Stuck(f, h)
  }

  // One report is brought in, and either the save is over or there are fewer to come.
  lemma BringOne(f: Field) returns (steps: seq<Step>)
    requires FieldOk(f) && NobodyStuck(f) && f.rtig.saveInProgress
    ensures IsRun(f, steps) && AllReportOnce(f, steps) && FieldOk(After(f, steps))
    ensures var f' := After(f, steps);
      f'.rtig.saveInProgress ==> NobodyStuck(f') && |Marked(f')| < |Marked(f)|
  {
    FieldKeys(f);
    var h :| h in f.rtig.members && f.rtig.members[h].saving;
    steps := BringReport(f, h);
    hide FieldOk, Stuck, BroughtIn, Marked, After, IsRun, AllReportOnce;
    var f' := After(f, steps);
    if f'.rtig.saveInProgress {
      FewerMarked(f, f', h);
      forall k | k in f'.stations ensures !Stuck(f', k) {
        StationWasThere(f, f', h, k);
        NotStuck(f, f', h, k);
      }
    }
  }

  // One report after the other is brought in, until the save ends.
  lemma {:induction false} BringReports(f: Field) returns (steps: seq<Step>)
    requires FieldOk(f) && NobodyStuck(f)
    ensures IsRun(f, steps) && AllReportOnce(f, steps) && !After(f, steps).rtig.saveInProgress
    decreases |Marked(f)|
  {
    hide FieldOk, NobodyStuck, Marked, Next, Allowed, ReportsOnce;
    if !f.rtig.saveInProgress {
      return [];
    }
    steps := BringOne(f);
    var f' := After(f, steps);
    if f'.rtig.saveInProgress {
      var rest := BringReports(f');
      RunsOn(f, steps, rest);
      steps := steps + rest;
    }
  }

  lemma StationWasThere(f: Field, f': Field, h: Handle, k: Handle)
    requires f'.rtig.saveInProgress && BroughtIn(f, f', h) && k in f'.stations
    ensures k in f.stations
  {
  }

  // In any state of any run, a save in progress can end exactly when no federate is stuck.
  lemma SaveCanEndIff(members: set<Handle>, past: seq<Step>)
    requires IsRun(Begin(members), past) && AllReportOnce(Begin(members), past)
    ensures var f := After(Begin(members), past);
      (exists steps :: IsRun(f, steps) && AllReportOnce(f, steps) && !After(f, steps).rtig.saveInProgress)
      <==> forall h :: h in f.stations ==> !Stuck(f, h)
  {
    BeginIsOk(members);
    RunKeeps(Begin(members), past);
    var f := After(Begin(members), past);
    hide FieldOk, Stuck, Begin;
    if steps :| IsRun(f, steps) && AllReportOnce(f, steps) && !After(f, steps).rtig.saveInProgress {
      forall h | h in f.stations ensures !Stuck(f, h) {
        if Stuck(f, h) {
          StuckForever(f, steps, h);
        }
      }
    }
    if forall h :: h in f.stations ==> !Stuck(f, h) {
      var steps := BringReports(f);
    }
  }

  // ---- Being stuck comes of overtaking ----

  // What an RTIA believes after telling its federate all this.
  function SavingAfter(told: seq<Tagged>): bool {
    if told == [] then false
    else
      var last := told[|told| - 1].message;
      if last.InitiateSave? then true else if last.SaveEnded? then false else SavingAfter(told[..|told| - 1])
  }

  ghost predicate Remembers(st: Station, ended: nat) {
    EndsOver(st.delivered, ended) && st.isSaving == SavingAfter(st.delivered)
  }

  ghost predicate AllRemember(f: Field) {
    forall h :: h in f.stations ==> Remembers(f.stations[h], f.ended)
  }

  lemma DeliveredRemembers(st: Station, ended: nat)
    requires st.commands != [] && Remembers(st, ended) && EndsOver(st.commands, ended)
    ensures Remembers(Delivered(st), ended)
  {
    var t := st.commands[0];
    assert t in st.commands && (st.delivered + [t])[..|st.delivered|] == st.delivered;
  }

  lemma StepRemembers(f: Field, e: Step)
    requires FieldOk(f) && Allowed(f, e) && AllRemember(f)
    ensures AllRemember(Next(f, e))
  {
    FieldOf(f, e.h);
    hide FieldOk;
    if e.RtigTakes? {
      forall k | k in Next(f, e).stations ensures Remembers(Next(f, e).stations[k], Next(f, e).ended) {
        TakenRemembers(f, e.h, e.written, k);
      }
    } else if e.Ticks? {
      DeliveredRemembers(f.stations[e.h], f.ended);
      hide Remembers, Delivered;
    }
  }

  lemma TakenRemembers(f: Field, h: Handle, written: bool, k: Handle)
    requires AllRemember(f) && h in f.stations && f.stations[h].up != [] && k in Taken(f, h, written).stations
    ensures Remembers(Taken(f, h, written).stations[k], Taken(f, h, written).ended)
  {
    OverLonger(f.stations[k].delivered, f.ended, Taken(f, h, written).ended);
    hide Answered, For, SavingAfter;
  }

  lemma {:induction false} RunRemembers(f: Field, steps: seq<Step>)
    requires FieldOk(f) && AllRemember(f) && IsRun(f, steps) && AllReportOnce(f, steps)
    ensures AllRemember(After(f, steps))
    decreases |steps|
  {
    hide FieldOk, AllRemember, Next, Allowed, ReportsOnce;
    if steps != [] {
      StepKeeps(f, steps[0]);
      StepRemembers(f, steps[0]);
      RunRemembers(Next(f, steps[0]), steps[1..]);
    }
  }

  lemma {:induction false} EndCameAfter(told: seq<Tagged>, round: nat, ended: nat)
    requires HasStart(told, round) && !SavingAfter(told) && EndsOver(told, ended)
    ensures exists end :: 1 <= end <= ended && Precedes(told, Start(round), End(end))
    decreases |told|
  {
    var i :| 0 <= i < |told| && StartOf(told[i], round);
    var n := |told| - 1;
    if told[n].message.SaveEnded? {
      assert told[n] in told && Is(told[i], Start(round)) && Is(told[n], End(told[n].round));
    } else {
      var front := told[..n];
      assert StartOf(front[i], round) && forall t :: t in front ==> t in told;
      EndCameAfter(front, round, ended);
      var end :| 1 <= end <= ended && Precedes(front, Start(round), End(end));
      AtBack(front, told[n], Start(round), End(end));
      assert told == front + [told[n]];
    }
  }

  lemma StuckHasStarted(f: Field, h: Handle)
    requires FieldOk(f) && Stuck(f, h)
    ensures f.begun == f.ended + 1 && HasStart(f.stations[h].delivered, f.begun) && !f.stations[h].isSaving
  {
    FieldOf(f, h);
    assert AnySaving(f.rtig);
    var st := f.stations[h];
    hide FieldOk, EndsOver, InOrder, HasStart;
    if OneStart(st.down, f.begun) {
      StartIsThere(st.down, f.begun);
    }
    if OneStart(st.commands, f.begun) {
      StartIsThere(st.commands, f.begun);
    }
  }

  // In every run, a stuck federate was told an older end after the start of the present save.
  lemma StuckWasOvertaken(members: set<Handle>, steps: seq<Step>, h: Handle)
    requires IsRun(Begin(members), steps) && AllReportOnce(Begin(members), steps)
    requires Stuck(After(Begin(members), steps), h)
    ensures h in After(Begin(members), steps).stations
    ensures var f := After(Begin(members), steps);
      exists end :: 1 <= end < f.begun && Precedes(f.stations[h].delivered, Start(f.begun), End(end))
  {
    BeginIsOk(members);
    assert AllRemember(Begin(members)) by { hide FieldOk; }
    RunKeeps(Begin(members), steps);
    RunRemembers(Begin(members), steps);
    var f := After(Begin(members), steps);
    StuckHasStarted(f, h);
    assert Remembers(f.stations[h], f.ended) by { assert h in f.stations; }
    hide FieldOk, Stuck, HasStart, SavingAfter, Precedes;
    EndCameAfter(f.stations[h].delivered, f.begun, f.ended);
  }

  // When federates ask calmly none is ever stuck, so that every save can end.
  lemma CalmAsksNeverStick(members: set<Handle>, steps: seq<Step>, h: Handle)
    requires IsRun(Begin(members), steps) && AllAskCalmly(Begin(members), steps) && AllReportOnce(Begin(members), steps)
    ensures !Stuck(After(Begin(members), steps), h)
  {
    var f := After(Begin(members), steps);
    if Stuck(f, h) {
      StuckWasOvertaken(members, steps, h);
      MembersStay(Begin(members), steps);
      var end :| 1 <= end < f.begun && Precedes(f.stations[h].delivered, Start(f.begun), End(end));
      CalmAsksKeepOrder(members, steps, h, f.begun, end);
    }
  }

  lemma {:induction false} MembersStay(f: Field, steps: seq<Step>)
    requires IsRun(f, steps)
    ensures After(f, steps).stations.Keys == f.stations.Keys
    decreases |steps|
  {
    if steps != [] {
      MembersStay(Next(f, steps[0]), steps[1..]);
      hide Answered, Alone, For;
    }
  }

  lemma CalmSavesCanEnd(members: set<Handle>, past: seq<Step>)
    requires IsRun(Begin(members), past) && AllAskCalmly(Begin(members), past) && AllReportOnce(Begin(members), past)
    ensures var f := After(Begin(members), past);
      exists steps :: IsRun(f, steps) && AllReportOnce(f, steps) && !After(f, steps).rtig.saveInProgress
  {
    hide Stuck, AllAskCalmly, Begin;
    forall h {
      CalmAsksNeverStick(members, past, h);
    }
    SaveCanEndIff(members, past);
  }
}
