/** Save rounds and restore rounds, over any run of the RTIG.

    The two kinds of round are the same machine: a request marks every member, each report clears one
    mark, and the last one ends the round with an outcome for all. Reports that nobody owes are taken too.
 */
module SaveRounds {
  import opened FederationTime
  import opened Messages
  import opened RtigState
  import opened RtigRuns

  datatype Round = Saving | Restoring

  predicate Busy(r: Rtig, round: Round) {
    if round.Saving? then r.saveInProgress else r.restoreInProgress
  }

  // Whether every report so far was positive.
  predicate Status(r: Rtig, round: Round) {
    if round.Saving? then r.saveStatus else r.restoreStatus
  }

  predicate Marked(m: Member, round: Round) {
    if round.Saving? then m.saving else m.restoring
  }

  predicate Requests(s: Service, round: Round) {
    if round.Saving? then s.RequestsSave? else s.RequestsRestore?
  }

  // A report of federate `h`; the outcome is positive only if `final` is, should this be the last.
  datatype Report = Report(h: Handle, good: bool, final: bool)

  function ReportOf(s: Service, round: Round): Option<Report> {
    match s
    case ReportsSave(h, saved, written) => if round.Saving? then Some(Report(h, saved, written)) else None
    case ReportsRestore(h, restored) => if round.Restoring? then Some(Report(h, restored, true)) else None
    case _ => None
  }

  function OutcomeOf(m: Message, round: Round): Option<bool> {
    match m
    case SaveEnded(saved) => if round.Saving? then Some(saved) else None
    case Command(RestoreEnded(restored)) => if round.Restoring? then Some(restored) else None
    case _ => None
  }

  // The outcomes among some responses.
  function Outcomes(responses: seq<Response>, round: Round): seq<bool> {
    if responses == [] then [] else
      var outcome := OutcomeOf(responses[0].message, round);
      (if outcome.Some? then [outcome.value] else []) + Outcomes(responses[1..], round)
  }

  ghost predicate AnyMarked(r: Rtig, round: Round) {
    exists h :: h in r.members && Marked(r.members[h], round)
  }

  // A round is in progress while some member has yet to report; in between all is as at the start.
  ghost predicate InStep(r: Rtig, round: Round) {
    && (Busy(r, round) <==> AnyMarked(r, round))
    && (!Busy(r, round) ==> Status(r, round))
  }

  // ---- One service ----

  // A service that has nothing to do with the round.
  ghost predicate SameRound(r: Rtig, a: Answer, round: Round) {
    && Busy(a.rtig, round) == Busy(r, round) && Status(a.rtig, round) == Status(r, round)
    && r.members.Keys <= a.rtig.members.Keys
    && (forall h :: h in r.members ==> Marked(a.rtig.members[h], round) == Marked(r.members[h], round))
    && (forall h :: h in a.rtig.members && h !in r.members ==> !Marked(a.rtig.members[h], round))
    && Outcomes(a.responses, round) == []
  }

  predicate InRound(s: Service, round: Round) {
    Requests(s, round) || ReportOf(s, round).Some?
  }

  lemma OneOutcome(r: Response, round: Round, outcome: bool)
    requires OutcomeOf(r.message, round) == Some(outcome)
    ensures Outcomes([r], round) == [outcome]
  {
    assert [r][1..] == [];
  }

  lemma NoOutcomes(responses: seq<Response>, round: Round)
    requires forall i :: 0 <= i < |responses| ==> OutcomeOf(responses[i].message, round).None?
    ensures Outcomes(responses, round) == []
  {
    if responses != [] {
      NoOutcomes(responses[1..], round);
    }
  }

  // Nothing about either kind of round changes.
  ghost predicate SameFlags(r: Rtig, r': Rtig) {
    && r'.saveInProgress == r.saveInProgress && r'.saveStatus == r.saveStatus
    && r'.restoreInProgress == r.restoreInProgress && r'.restoreStatus == r.restoreStatus
    && r.members.Keys == r'.members.Keys
    && forall h :: h in r.members ==>
         r'.members[h].saving == r.members[h].saving && r'.members[h].restoring == r.members[h].restoring
  }

  predicate EndsRound(m: Message) {
    m.SaveEnded? || (m.Command? && m.notice.RestoreEnded?)
  }

  predicate EndsNone(responses: seq<Response>) {
    forall i :: 0 <= i < |responses| ==> !EndsRound(responses[i].message)
  }

  lemma SameFlagsSameRound(r: Rtig, a: Answer, round: Round)
    requires SameFlags(r, a.rtig) && EndsNone(a.responses)
    ensures SameRound(r, a, round)
  {
    NoOutcomes(a.responses, round);
    hide Outcomes;
  }

  lemma JoinSameRound(r: Rtig, h: Handle, round: Round)
    ensures SameRound(r, if h in r.members then Failure(r) else Add(r, h), round)
  {
  }

  lemma UpdateSameFlags(r: Rtig, h: Handle, date: Time)
    ensures SameFlags(r, UpdateRegulator(r, h, date).rtig)
  {
  }

  lemma AddSameFlags(r: Rtig, h: Handle, date: Time)
    ensures SameFlags(r, AddRegulator(r, h, date).rtig)
  {
    AddForms(r, h, date);
    hide AddRegulator;
  }

  lemma AddForms(r: Rtig, h: Handle, date: Time)
    ensures var r' := AddRegulator(r, h, date).rtig;
      || r' == r.(regulators := r'.regulators)
      || (h in r.members
          && r' == r.(regulators := r'.regulators, members := r.members[h := r.members[h].(regulator := true)]))
  {
  }

  lemma RemoveSameFlags(r: Rtig, h: Handle)
    ensures SameFlags(r, RemoveRegulator(r, h).rtig)
  {
  }

  lemma ConstrainSameFlags(r: Rtig, h: Handle, on: bool)
    ensures SameFlags(r, SetConstrained(r, h, on).rtig)
  {
  }

  lemma RelaySameFlags(r: Rtig, m: Message, subscribers: set<Handle>)
    ensures SameFlags(r, Process(r, m, subscribers).rtig)
  {
    hide UpdateRegulator, AddRegulator, RemoveRegulator, SetConstrained;
    match m
    case Null(src, date) => UpdateSameFlags(r, src, date);
    case RegulatorOn(src, date) => AddSameFlags(r, src, date);
    case RegulatorOff(src) => RemoveSameFlags(r, src);
    case Constraining(src, on) => ConstrainSameFlags(r, src, on);
    case _ =>
  }

  lemma RelayEndsNone(r: Rtig, m: Message, subscribers: set<Handle>)
    ensures EndsNone(Process(r, m, subscribers).responses)
  {
  }

  lemma {:induction false} OweInTurnKeepsMarks(members: map<Handle, Member>, who: seq<Handle>, point: string)
    ensures var members' := OweInTurn(members, who, point).0;
      && members'.Keys == members.Keys
      && forall k :: k in members ==>
           members'[k].saving == members[k].saving && members'[k].restoring == members[k].restoring
    decreases |who|
  {
    if who != [] && who[0] in members && point !in members[who[0]].points {
      OweInTurnKeepsMarks(members[who[0] := Owing(members[who[0]], point)], who[1..], point);
    }
  }

  lemma RegisterSameFlags(r: Rtig, h: Handle, point: string, tag: string)
    requires Sound(r)
    ensures SameFlags(r, RegisterForAll(r, h, point, tag).rtig) && EndsNone(RegisterForAll(r, h, point, tag).responses)
  {
    hide NoStrayPoints;
  }

  lemma AchieveSameFlags(r: Rtig, h: Handle, point: string)
    ensures SameFlags(r, Achieve(r, h, point).rtig)
  {
    AchieveLeaves(r, h, point);
    hide Achieve;
  }

  lemma AchieveEndsNone(r: Rtig, h: Handle, point: string)
    ensures EndsNone(Achieve(r, h, point).responses)
  {
    hide Owes;
  }

  lemma RegisterForSomeSameFlags(r: Rtig, h: Handle, point: string, tag: string, who: seq<Handle>)
    ensures SameFlags(r, RegisterForSome(r, h, point, tag, who).rtig)
  {
    OweInTurnKeepsMarks(r.members, Owers(h, who), point);
    RegisterForSomeLeaves(r, h, point, tag, who);
    hide OweInTurn, RegisterForSome;
  }

  lemma RegisterForSomeEndsNone(r: Rtig, h: Handle, point: string, tag: string, who: seq<Handle>)
    ensures EndsNone(RegisterForSome(r, h, point, tag, who).responses)
  {
    hide OweInTurn;
  }

  lemma NoLongerAskingSameFlags(r: Rtig, r': Rtig)
    requires r'.members == map k | k in r.members :: NoLongerAsking(r.members[k])
    requires r'.saveInProgress == r.saveInProgress && r'.saveStatus == r.saveStatus
    requires r'.restoreInProgress == r.restoreInProgress && r'.restoreStatus == r.restoreStatus
    ensures SameFlags(r, r')
  {
  }

  lemma NullPrimeSameFlags(r: Rtig, h: Handle, date: Time)
    requires Sound(r)
    ensures SameFlags(r, NullPrime(r, h, date).rtig) && EndsNone(NullPrime(r, h, date).responses)
  {
    hide MinNerx, NoStrayPoints;
    if h in r.members {
      var r1 := r.(members := r.members[h := r.members[h].(nerx := date, usingNerx := true)]);
      assert SameFlags(r, r1);
      if r.minNerx.Lt(MinNerx(r1)) {
        NoLongerAskingSameFlags(r1, NullPrime(r, h, date).rtig);
      }
    }
  }

  // A request or report of one kind of round does not touch the flags of the other.
  ghost predicate SameOtherFlags(r: Rtig, r': Rtig, round: Round) {
    && Busy(r', round) == Busy(r, round) && Status(r', round) == Status(r, round)
    && r'.members.Keys == r.members.Keys
    && forall h :: h in r.members ==> Marked(r'.members[h], round) == Marked(r.members[h], round)
  }

  predicate EndsNoRound(responses: seq<Response>, round: Round) {
    forall i :: 0 <= i < |responses| ==> OutcomeOf(responses[i].message, round).None?
  }

  lemma SameOtherRound(r: Rtig, a: Answer, round: Round)
    requires SameOtherFlags(r, a.rtig, round) && EndsNoRound(a.responses, round)
    ensures SameRound(r, a, round)
  {
    NoOutcomes(a.responses, round);
    hide Outcomes, Busy, Status, Marked;
  }

  lemma RequestRestoreSameSave(r: Rtig, h: Handle, title: string)
    ensures SameOtherFlags(r, RequestRestore(r, h, title).rtig, Saving)
    ensures EndsNoRound(RequestRestore(r, h, title).responses, Saving)
  {
  }

  lemma RestoreReportSameSave(r: Rtig, h: Handle, restored: bool)
    ensures SameOtherFlags(r, RestoreReport(r, h, restored).rtig, Saving)
    ensures EndsNoRound(RestoreReport(r, h, restored).responses, Saving)
  {
    hide AnyRestoring;
  }

  lemma RequestSaveSameRestore(r: Rtig, h: Handle, title: string)
    ensures SameOtherFlags(r, RequestSave(r, h, title).rtig, Restoring)
    ensures EndsNoRound(RequestSave(r, h, title).responses, Restoring)
  {
  }

  lemma SaveReportSameRestore(r: Rtig, h: Handle, saved: bool, written: bool)
    ensures SameOtherFlags(r, SaveReport(r, h, saved, written).rtig, Restoring)
    ensures EndsNoRound(SaveReport(r, h, saved, written).responses, Restoring)
  {
    hide AnySaving;
  }

  lemma OtherKindSameRound(r: Rtig, s: Service, round: Round)
    requires Sound(r) && !InRound(s, round)
    requires s.RequestsSave? || s.ReportsSave? || s.RequestsRestore? || s.ReportsRestore?
    ensures SameRound(r, Serve(r, s), round)
  {
    hide Sound, SameRound, SameOtherFlags, EndsNoRound, RequestSave, SaveReport, RequestRestore, RestoreReport;
    match s
    case RequestsSave(h, title) => RequestSaveSameRestore(r, h, title);
      SameOtherRound(r, RequestSave(r, h, title), Restoring);
    case ReportsSave(h, saved, written) => SaveReportSameRestore(r, h, saved, written);
      SameOtherRound(r, SaveReport(r, h, saved, written), Restoring);
    case RequestsRestore(h, title) => RequestRestoreSameSave(r, h, title);
      SameOtherRound(r, RequestRestore(r, h, title), Saving);
    case ReportsRestore(h, restored) => RestoreReportSameSave(r, h, restored);
      SameOtherRound(r, RestoreReport(r, h, restored), Saving);
  }

  lemma OthersSameFlags(r: Rtig, s: Service)
    requires Sound(r) && !s.Joins?
    requires !s.RequestsSave? && !s.ReportsSave? && !s.RequestsRestore? && !s.ReportsRestore?
    ensures SameFlags(r, Serve(r, s).rtig) && EndsNone(Serve(r, s).responses)
  {
    hide SameFlags, EndsNone, Sound, Process, NullPrime, Achieve, RegisterForSome, RegisterForAll;
    match s
    case Relays(m, subscribers) => RelaySameFlags(r, m, subscribers); RelayEndsNone(r, m, subscribers);
    case RegistersFor(h, point, tag, who) =>
      RegisterForSomeSameFlags(r, h, point, tag, who);
      RegisterForSomeEndsNone(r, h, point, tag, who);
    case AsksNext(h, date) => NullPrimeSameFlags(r, h, date);
    case Registers(h, point, tag) => RegisterSameFlags(r, h, point, tag);
    case Achieves(h, point) => AchieveSameFlags(r, h, point); AchieveEndsNone(r, h, point);
  }

  lemma OthersSameRound(r: Rtig, s: Service, round: Round)
    requires Sound(r) && !InRound(s, round)
    ensures SameRound(r, Serve(r, s), round)
  {
    hide SameRound, SameFlags, EndsNone, Sound, Add, Failure, RequestSave, SaveReport, RequestRestore, RestoreReport,
         Process, NullPrime, Achieve, RegisterForSome, RegisterForAll;
    if s.Joins? {
      JoinSameRound(r, s.h, round);
    } else if s.RequestsSave? || s.ReportsSave? || s.RequestsRestore? || s.ReportsRestore? {
      OtherKindSameRound(r, s, round);
    } else {
      OthersSameFlags(r, s);
      SameFlagsSameRound(r, Serve(r, s), round);
    }
  }

  // A request is accepted between rounds, from a member, and marks every member.
  predicate Accepted(r: Rtig, s: Service, round: Round) {
    Requests(s, round) && s.h in r.members && !Busy(r, round)
  }

  lemma RequestChanges(r: Rtig, s: Service, round: Round)
    requires Sound(r) && Requests(s, round)
    ensures var a := Serve(r, s);
      && Outcomes(a.responses, round) == []
      && (if Accepted(r, s, round) then
            && Busy(a.rtig, round) && Status(a.rtig, round) && a.rtig.members.Keys == r.members.Keys
            && forall h :: h in r.members ==> Marked(a.rtig.members[h], round)
          else a.rtig == r)
  {
    NoOutcomes(Serve(r, s).responses, round);
    hide Outcomes, Sound;
  }

  // Only `h` has yet to report.
  predicate LastToReport(r: Rtig, h: Handle, round: Round) {
    h in r.members && forall k :: k in r.members && k != h ==> !Marked(r.members[k], round)
  }

  // What a report of a member does.
  ghost predicate TakesReport(r: Rtig, report: Report, a: Answer, round: Round)
    requires report.h in r.members
  {
    && a.rtig.members.Keys == r.members.Keys
    && !Marked(a.rtig.members[report.h], round)
    && (forall k :: k in r.members && k != report.h ==> Marked(a.rtig.members[k], round) == Marked(r.members[k], round))
    && (if LastToReport(r, report.h, round) then
          && !Busy(a.rtig, round) && Status(a.rtig, round)
          && |a.responses| == 1 && a.responses[0].to == r.members.Keys
          && OutcomeOf(a.responses[0].message, round) == Some(Status(r, round) && report.good && report.final)
        else
          && Busy(a.rtig, round) == Busy(r, round) && Status(a.rtig, round) == (Status(r, round) && report.good)
          && a.responses == [])
  }

  lemma SaveReportTaken(r: Rtig, h: Handle, saved: bool, written: bool)
    requires h in r.members
    ensures TakesReport(r, Report(h, saved, written), SaveReport(r, h, saved, written), Saving)
  {
    LastIsLast(r, h, Saving);
    hide AnySaving;
  }

  lemma RestoreReportTaken(r: Rtig, h: Handle, restored: bool)
    requires h in r.members
    ensures TakesReport(r, Report(h, restored, true), RestoreReport(r, h, restored), Restoring)
  {
    LastIsLast(r, h, Restoring);
    hide AnyRestoring;
  }

  lemma ReportChanges(r: Rtig, s: Service, round: Round)
    requires Sound(r) && ReportOf(s, round).Some?
    ensures var report, a := ReportOf(s, round).value, Serve(r, s);
      if report.h in r.members then TakesReport(r, report, a, round) else a == Failure(r)
  {
    hide TakesReport;
    var report := ReportOf(s, round).value;
    if report.h in r.members {
      if round.Saving? {
        SaveReportTaken(r, report.h, report.good, report.final);
      } else {
        RestoreReportTaken(r, report.h, report.good);
      }
    }
  }

  lemma LastIsLast(r: Rtig, h: Handle, round: Round)
    requires h in r.members
    ensures LastToReport(r, h, round) <==>
      if round.Saving? then !AnySaving(r.(members := r.members[h := r.members[h].(saving := false)]))
      else !AnyRestoring(r.(members := r.members[h := r.members[h].(restoring := false)]))
  {
    if !LastToReport(r, h, round) {
      var k :| k in r.members && k != h && Marked(r.members[k], round);
      assert round.Saving? ==> r.members[h := r.members[h].(saving := false)][k].saving;
      assert round.Restoring? ==> r.members[h := r.members[h].(restoring := false)][k].restoring;
    }
  }

  // ---- Every run keeps in step ----

  lemma SameRoundKeepsStep(r: Rtig, a: Answer, round: Round)
    requires InStep(r, round) && SameRound(r, a, round)
    ensures InStep(a.rtig, round)
  {
    if AnyMarked(r, round) {
      var h :| h in r.members && Marked(r.members[h], round);
      assert Marked(a.rtig.members[h], round);
    }
    if AnyMarked(a.rtig, round) {
      var h :| h in a.rtig.members && Marked(a.rtig.members[h], round);
      assert h in r.members && Marked(r.members[h], round);
    }
  }

  lemma RequestKeepsStep(r: Rtig, s: Service, round: Round)
    requires Sound(r) && InStep(r, round) && Requests(s, round)
    ensures InStep(Serve(r, s).rtig, round)
  {
    RequestChanges(r, s, round);
    hide Serve;
    if Accepted(r, s, round) {
      assert Marked(Serve(r, s).rtig.members[s.h], round);
    }
  }

  lemma TakenReportKeepsStep(r: Rtig, report: Report, a: Answer, round: Round)
    requires InStep(r, round) && report.h in r.members
    requires TakesReport(r, report, a, round)
    ensures InStep(a.rtig, round)
  {
    if LastToReport(r, report.h, round) {
      assert forall k :: k in a.rtig.members ==> !Marked(a.rtig.members[k], round);
    } else {
      var k :| k in r.members && k != report.h && Marked(r.members[k], round);
      assert Marked(a.rtig.members[k], round);
    }
  }

  lemma ServeKeepsStep(r: Rtig, s: Service, round: Round)
    requires Sound(r) && InStep(r, round)
    ensures InStep(Serve(r, s).rtig, round)
  {
    hide InStep, Serve, SameRound, TakesReport, Sound;
    if Requests(s, round) {
      RequestKeepsStep(r, s, round);
    } else if ReportOf(s, round).Some? {
      ReportChanges(r, s, round);
      if s.h in r.members {
        TakenReportKeepsStep(r, ReportOf(s, round).value, Serve(r, s), round);
      }
    } else {
      OthersSameRound(r, s, round);
      SameRoundKeepsStep(r, Serve(r, s), round);
    }
  }

  lemma {:induction false} RunKeepsStep(r: Rtig, services: seq<Service>, round: Round)
    requires Sound(r) && InStep(r, round)
    ensures InStep(After(r, services), round)
    decreases |services|
  {
    hide InStep, Serve, Sound;
    if services != [] {
      ServeIsSound(r, services[0]);
      ServeKeepsStep(r, services[0], round);
      RunKeepsStep(Serve(r, services[0]).rtig, services[1..], round);
    }
  }

  // After any run a round is in progress exactly while some member has yet to report; between rounds
  // the status is as at the start.
  lemma RoundsInStep(services: seq<Service>, round: Round)
    ensures Sound(INITIAL)
    ensures InStep(After(INITIAL, services), round)
  {
    RunKeepsStep(INITIAL, services, round);
  }

  // ---- The outcome comes with the last report, once ----

  lemma OneResponse(responses: seq<Response>, round: Round)
    requires |responses| == 1 && OutcomeOf(responses[0].message, round).Some?
    ensures Outcomes(responses, round) == [OutcomeOf(responses[0].message, round).value]
  {
    OneOutcome(responses[0], round, OutcomeOf(responses[0].message, round).value);
    assert responses == [responses[0]];
  }

  // The report of the only member that has yet to report.
  predicate Ends(r: Rtig, s: Service, round: Round) {
    ReportOf(s, round).Some? && s.h in r.members && Marked(r.members[s.h], round) && LastToReport(r, s.h, round)
  }

  // A report of a member while no round is in progress.
  predicate Stray(r: Rtig, s: Service, round: Round) {
    ReportOf(s, round).Some? && s.h in r.members && !Busy(r, round)
  }

  // A service announces an outcome, to every member, exactly when it is the last report or a stray one; only
  // the last report ends the round.
  lemma OutcomeWithLastReport(r: Rtig, s: Service, round: Round)
    requires Sound(r) && InStep(r, round)
    ensures Outcomes(Serve(r, s).responses, round)
         == if Ends(r, s, round) || Stray(r, s, round) then
              [Status(r, round) && ReportOf(s, round).value.good && ReportOf(s, round).value.final]
            else []
    ensures Ends(r, s, round) || Stray(r, s, round) ==>
      |Serve(r, s).responses| == 1 && Serve(r, s).responses[0].to == r.members.Keys
    ensures Busy(r, round) && !Busy(Serve(r, s).rtig, round) <==> Ends(r, s, round)
  {
    hide Serve, Sound, SameRound, Outcomes;
    if Requests(s, round) {
      RequestChanges(r, s, round);
    } else if ReportOf(s, round).Some? {
      ReportChanges(r, s, round);
      if s.h in r.members {
        OnlyMarkIsLast(r, s.h, round);
        if LastToReport(r, s.h, round) {
          OneResponse(Serve(r, s).responses, round);
        } else {
          NoOutcomes([], round);
        }
      } else {
        NoOutcomes([], round);
      }
    } else {
      OthersSameRound(r, s, round);
      SameRoundIs(r, Serve(r, s), round);
    }
  }

  lemma OnlyMarkIsLast(r: Rtig, h: Handle, round: Round)
    requires InStep(r, round) && h in r.members
    ensures LastToReport(r, h, round) <==> !Busy(r, round) || (Marked(r.members[h], round) && LastToReport(r, h, round))
  {
  }

  lemma SameRoundIs(r: Rtig, a: Answer, round: Round)
    requires SameRound(r, a, round)
    ensures Busy(a.rtig, round) == Busy(r, round) && Outcomes(a.responses, round) == []
  {
  }

  // The accepted requests of a run.
  ghost function Rounds(r: Rtig, services: seq<Service>, round: Round): nat
    requires Sound(r)
    decreases |services|
  {
    if services == [] then 0 else
      ServeIsSound(r, services[0]);
      (if Accepted(r, services[0], round) then 1 else 0) + Rounds(Serve(r, services[0]).rtig, services[1..], round)
  }

  lemma {:induction false} OutcomesConcat(a: seq<Response>, b: seq<Response>, round: Round)
    ensures Outcomes(a + b, round) == Outcomes(a, round) + Outcomes(b, round)
    decreases |a|
  {
    hide OutcomeOf;
    if a == [] {
      assert a + b == b;
    } else {
      assert (a + b)[1..] == a[1..] + b && (a + b)[0] == a[0];
      OutcomesConcat(a[1..], b, round);
      OneThenOutcomes(a, round);
      OneThenOutcomes(a + b, round);
      hide Outcomes;
      var outcome, first, second := OutcomeOf(a[0].message, round), Outcomes(a[1..], round), Outcomes(b, round);
      var head := if outcome.Some? then [outcome.value] else [];
      assert head + (first + second) == head + first + second;
    }
  }

  lemma OneThenOutcomes(responses: seq<Response>, round: Round)
    requires responses != []
    ensures var outcome := OutcomeOf(responses[0].message, round);
      Outcomes(responses, round) == (if outcome.Some? then [outcome.value] else []) + Outcomes(responses[1..], round)
  {
    hide OutcomeOf;
  }

  // The stray reports of a run.
  ghost function Strays(r: Rtig, services: seq<Service>, round: Round): nat
    requires Sound(r)
    decreases |services|
  {
    if services == [] then 0 else
      ServeIsSound(r, services[0]);
      (if Stray(r, services[0], round) then 1 else 0) + Strays(Serve(r, services[0]).rtig, services[1..], round)
  }

  lemma BusyAfter(r: Rtig, s: Service, round: Round)
    requires Sound(r) && InStep(r, round)
    ensures !Busy(r, round) && Busy(Serve(r, s).rtig, round) <==> Accepted(r, s, round)
  {
    hide Serve, Sound;
    if Requests(s, round) {
      RequestChanges(r, s, round);
    } else if ReportOf(s, round).Some? {
      ReportChanges(r, s, round);
    } else {
      OthersSameRound(r, s, round);
      SameRoundIs(r, Serve(r, s), round);
    }
  }

  lemma StrayEndsNone(r: Rtig, s: Service, round: Round)
    requires InStep(r, round) && Stray(r, s, round)
    ensures !Ends(r, s, round)
  {
  }

  // Over any run there is one outcome for each round begun, but for the last if it is still in progress, and
  // one more for each stray report.
  lemma {:induction false} OneOutcomePerRound(r: Rtig, services: seq<Service>, round: Round)
    requires Sound(r) && InStep(r, round)
    ensures |Outcomes(Responses(r, services), round)| + (if Busy(After(r, services), round) then 1 else 0)
         == Rounds(r, services, round) + Strays(r, services, round) + (if Busy(r, round) then 1 else 0)
    decreases |services|
  {
    hide InStep, Serve, Sound, Accepted, Ends, Stray, Busy;
    if services == [] {
      NoOutcomes([], round);
    } else {
      var s, r1 := services[0], Serve(r, services[0]).rtig;
      ServeIsSound(r, s);
      ServeKeepsStep(r, s, round);
      OneOutcomePerRound(r1, services[1..], round);
      OutcomesConcat(Serve(r, s).responses, Responses(r1, services[1..]), round);
      OutcomeWithLastReport(r, s, round);
      if Stray(r, s, round) {
        StrayEndsNone(r, s, round);
      }
      BusyAfter(r, s, round);
    }
  }

  // ---- What the outcome is ----

  // All reports of members in the run are positive.
  ghost predicate AllGood(r: Rtig, services: seq<Service>, round: Round)
    requires Sound(r)
    decreases |services|
  {
    services == [] || (
      ServeIsSound(r, services[0]);
      && (ReportOf(services[0], round).Some? && services[0].h in r.members ==> ReportOf(services[0], round).value.good)
      && AllGood(Serve(r, services[0]).rtig, services[1..], round))
  }

  lemma StatusAfter(r: Rtig, s: Service, round: Round)
    requires Sound(r) && InStep(r, round) && Busy(r, round) && !Ends(r, s, round)
    ensures Busy(Serve(r, s).rtig, round)
    ensures Status(Serve(r, s).rtig, round)
         == (Status(r, round) && (ReportOf(s, round).Some? && s.h in r.members ==> ReportOf(s, round).value.good))
  {
    hide Serve, Sound;
    if Requests(s, round) {
      RequestChanges(r, s, round);
    } else if ReportOf(s, round).Some? {
      ReportChanges(r, s, round);
    } else {
      OthersSameRound(r, s, round);
    }
  }

  // No service of the run ends the round.
  ghost predicate Continues(r: Rtig, services: seq<Service>, round: Round)
    requires Sound(r)
    decreases |services|
  {
    services == [] || (
      ServeIsSound(r, services[0]);
      !Ends(r, services[0], round) && Continues(Serve(r, services[0]).rtig, services[1..], round))
  }

  lemma {:induction false} StatusFollowsReports(r: Rtig, services: seq<Service>, round: Round)
    requires Sound(r) && InStep(r, round) && Busy(r, round) && Continues(r, services, round)
    ensures Busy(After(r, services), round)
    ensures Status(After(r, services), round) == (Status(r, round) && AllGood(r, services, round))
    decreases |services|
  {
    hide InStep, Serve, Sound, Ends, Busy, Status;
    if services != [] {
      ServeIsSound(r, services[0]);
      ServeKeepsStep(r, services[0], round);
      StatusAfter(r, services[0], round);
      StatusFollowsReports(Serve(r, services[0]).rtig, services[1..], round);
    }
  }

  // One whole round: an accepted request, whatever happens until the last report, and that report. The
  // outcome is positive exactly when all reports were, repeated ones included (and, for a save, the data could
  // be written), and afterwards all flags are as they were before.
  lemma RoundOutcome(r: Rtig, request: Service, during: seq<Service>, last: Service, round: Round)
    requires Sound(r) && InStep(r, round) && Accepted(r, request, round)
    requires Sound(Serve(r, request).rtig) && Continues(Serve(r, request).rtig, during, round)
    requires Ends(After(Serve(r, request).rtig, during), last, round)
    ensures var r1 := Serve(r, request).rtig; var r2 := After(r1, during); var end := Serve(r2, last);
      && Outcomes(end.responses, round)
         == [AllGood(r1, during, round) && ReportOf(last, round).value.good && ReportOf(last, round).value.final]
      && |end.responses| == 1 && end.responses[0].to == r2.members.Keys
      && !Busy(end.rtig, round) && Status(end.rtig, round) && !AnyMarked(end.rtig, round)
  {
    hide Serve, Sound, Ends;
    var r1 := Serve(r, request).rtig;
    RequestChanges(r, request, round);
    RequestKeepsStep(r, request, round);
    StatusFollowsReports(r1, during, round);
    RunKeepsStep(r1, during, round);
    OutcomeWithLastReport(After(r1, during), last, round);
    ServeKeepsStep(After(r1, during), last, round);
  }

  // ---- Each member reports once ----

  // A federate reports only when it owes a report: once for each round.
  predicate Owed(r: Rtig, s: Service) {
    && (s.ReportsSave? && s.h in r.members ==> r.members[s.h].saving)
    && (s.ReportsRestore? && s.h in r.members ==> r.members[s.h].restoring)
  }

  // A run in which each report is owed.
  ghost predicate Orderly(r: Rtig, services: seq<Service>)
    requires Sound(r)
    decreases |services|
  {
    services == [] || (
      ServeIsSound(r, services[0]);
      Owed(r, services[0]) && Orderly(Serve(r, services[0]).rtig, services[1..]))
  }

  ghost function ReportsOf(services: seq<Service>, h: Handle, round: Round): nat {
    if services == [] then 0 else
      (if ReportOf(services[0], round).Some? && services[0].h == h then 1 else 0) + ReportsOf(services[1..], h, round)
  }

  lemma MarkAfter(r: Rtig, s: Service, h: Handle, round: Round)
    requires Sound(r) && InStep(r, round) && Busy(r, round) && h in r.members
    ensures h in Serve(r, s).rtig.members
    ensures Marked(Serve(r, s).rtig.members[h], round)
       <==> Marked(r.members[h], round) && !(ReportOf(s, round).Some? && s.h == h)
  {
    hide Serve, Sound, InStep;
    if Requests(s, round) {
      RequestChanges(r, s, round);
    } else if ReportOf(s, round).Some? {
      ReportChanges(r, s, round);
    } else {
      OthersSameRound(r, s, round);
    }
  }

  // Until the round ends, a member's mark is gone exactly when it has reported; if members report only when
  // they owe a report, that was once.
  lemma EachReportsOnce(r: Rtig, services: seq<Service>, h: Handle, round: Round)
    requires Sound(r) && InStep(r, round) && Busy(r, round) && Continues(r, services, round)
    requires h in r.members && Marked(r.members[h], round)
    ensures h in After(r, services).members
    ensures Marked(After(r, services).members[h], round) <==> ReportsOf(services, h, round) == 0
    ensures Orderly(r, services) ==> ReportsOf(services, h, round) <= 1
  {
    MarksCount(r, services, h, round);
  }

  lemma {:induction false} MarksCount(r: Rtig, services: seq<Service>, h: Handle, round: Round)
    requires Sound(r) && InStep(r, round) && Busy(r, round) && Continues(r, services, round)
    requires h in r.members
    ensures h in After(r, services).members
    ensures Marked(After(r, services).members[h], round)
       <==> Marked(r.members[h], round) && ReportsOf(services, h, round) == 0
    ensures Orderly(r, services) ==> ReportsOf(services, h, round) <= if Marked(r.members[h], round) then 1 else 0
    decreases |services|
  {
    hide InStep, Serve, Sound, Owed, Ends, Busy, Status, Marked;
    if services != [] {
      ServeIsSound(r, services[0]);
      ServeKeepsStep(r, services[0], round);
      StatusAfter(r, services[0], round);
      MarkAfter(r, services[0], h, round);
      if Owed(r, services[0]) && ReportOf(services[0], round).Some? && services[0].h in r.members {
        OwedIsMarked(r, services[0], round);
      }
      MarksCount(Serve(r, services[0]).rtig, services[1..], h, round);
    }
  }

  lemma OwedIsMarked(r: Rtig, s: Service, round: Round)
    requires Owed(r, s) && ReportOf(s, round).Some? && s.h in r.members
    ensures Marked(r.members[s.h], round)
  {
  }

  // An outcome of no round is announced exactly when a member reports while no round is in progress.
  lemma StrayReportIsAnnounced(r: Rtig, s: Service, round: Round)
    requires Sound(r) && InStep(r, round)
    ensures Outcomes(Serve(r, s).responses, round) != [] && !(Busy(r, round) && !Busy(Serve(r, s).rtig, round))
       <==> ReportOf(s, round).Some? && s.h in r.members && !Busy(r, round)
    ensures Stray(r, s, round) ==>
      Outcomes(Serve(r, s).responses, round) == [ReportOf(s, round).value.good && ReportOf(s, round).value.final]
  {
    hide Serve, Sound, Outcomes;
    OutcomeWithLastReport(r, s, round);
  }
}
