/** Save rounds from end to end: federates, their RTIAs, the streams and the RTIG.

    An RTIA puts both the start and the end of a round at the front of its command list, so an end that
    arrives would overtake a start still waiting there. When federates report once it never does: the RTIG
    ends a round only on reports, and an RTIA refuses a report until the start has been delivered.
 */
module SaveOrder {
  import opened FederationTime
  import opened Messages
  import opened TimeState
  import opened RtigState

  // What a federate asks or tells the RTIG about saving.
  datatype Call = AskSave(title: string) | TellSaved(saved: bool)

  // A message of the RTIG, with the number of the round in which it was sent.
  datatype Tagged = Tagged(message: Message, round: nat)

  // One federate with its RTIA: the stream to the RTIG, the stream back, the command list, whether the
  // RTIA believes a save to be on, whether the federate has reported since it was last told to save,
  // how often it was told to, and all it was told.
  datatype Station = Station(
    up: seq<Call>,
    down: seq<Tagged>,
    commands: seq<Tagged>,
    isSaving: bool,
    reported: bool,
    started: nat,
    delivered: seq<Tagged>)

  // `begun` and `ended` count the rounds the RTIG has begun and ended.
  datatype Field = Field(rtig: Rtig, begun: nat, ended: nat, stations: map<Handle, Station>)

  datatype Step =
    | AsksSave(h: Handle, title: string)
    | Reports(h: Handle, saved: bool)
    | RtigTakes(h: Handle, written: bool)
    | RtigTells(h: Handle, notice: Notice)
    | RtiaTakes(h: Handle)
    | Ticks(h: Handle)

  const NEW_STATION := Station([], [], [], false, false, 0, [])

  function Begin(members: set<Handle>): Field {
    Field(INITIAL.(members := map h | h in members :: NEW_MEMBER), 0, 0, map h | h in members :: NEW_STATION)
  }

  // What a federate asks for and reports, and when, is up to it.
  predicate Allowed(f: Field, e: Step) {
    && e.h in f.stations
    && (e.RtigTakes? ==> f.stations[e.h].up != [])
    && (e.RtiaTakes? ==> f.stations[e.h].down != [])
    && (e.Ticks? ==> f.stations[e.h].commands != [])
  }

  // Where a message goes in the command list.
  function Queued(commands: seq<Tagged>, t: Tagged): seq<Tagged> {
    if t.message.InitiateSave? || t.message.SaveEnded? then [t] + commands else commands + [t]
  }

  function Untagged(q: seq<Tagged>): seq<Message> {
    seq(|q|, i requires 0 <= i < |q| => q[i].message)
  }

  // It is what the RTIA does with it.
  lemma QueuedAsReceived(s: Rtia, q: seq<Tagged>, t: Tagged)
    requires s.commands == Untagged(q) && (t.message.InitiateSave? || t.message.SaveEnded? || t.message.Command?)
    ensures Receive(s, t.message).Some? && Receive(s, t.message).value.commands == Untagged(Queued(q, t))
  {
    assert Untagged([t] + q) == [t.message] + Untagged(q);
    assert Untagged(q + [t]) == Untagged(q) + [t.message];
  }

  // And a tick delivers the first command.
  lemma FirstAsTicked(s: Rtia, q: seq<Tagged>)
    requires s.commands == Untagged(q) && q != []
    ensures Tick(s).told == [Evoked(q[0].message)] && Tick(s).rtia.commands == Untagged(q[1..])
  {
    hide AdvanceTime;
    assert Untagged(q)[1..] == Untagged(q[1..]);
  }

  // The RTIA refuses to ask for a save while it believes one to be on.
  function Asked(st: Station, title: string): Station {
    if st.isSaving then st else st.(up := st.up + [AskSave(title)])
  }

  // And it refuses a report unless it believes a save to be on.
  function Reported(st: Station, saved: bool): Station {
    if st.isSaving then st.(up := st.up + [TellSaved(saved)], reported := true) else st
  }

  function Delivered(st: Station): Station
    requires st.commands != []
  {
    var t := st.commands[0];
    var st1 := st.(commands := st.commands[1..], delivered := st.delivered + [t]);
    if t.message.InitiateSave? then st1.(isSaving := true, reported := false, started := st.started + 1)
    else if t.message.SaveEnded? then st1.(isSaving := false)
    else st1
  }

  function Answered(rtig: Rtig, h: Handle, call: Call, written: bool): Answer {
    match call
    case AskSave(title) => RequestSave(rtig, h, title)
    case TellSaved(saved) => SaveReport(rtig, h, saved, written)
  }

  function TagAll(messages: seq<Message>, round: nat): seq<Tagged> {
    seq(|messages|, i requires 0 <= i < |messages| => Tagged(messages[i], round))
  }

  // The RTIG takes the first call of `h`; each station is sent what the answer holds for it.
  function Taken(f: Field, h: Handle, written: bool): Field
    requires h in f.stations && f.stations[h].up != []
  {
    var answer := Answered(f.rtig, h, f.stations[h].up[0], written);
    var begun := f.begun + if !f.rtig.saveInProgress && answer.rtig.saveInProgress then 1 else 0;
    var ended := f.ended + if f.rtig.saveInProgress && !answer.rtig.saveInProgress then 1 else 0;
    Field(answer.rtig, begun, ended,
          map k | k in f.stations ::
            var st := f.stations[k];
            st.(up := if k == h then st.up[1..] else st.up, down := st.down + TagAll(For(answer.responses, k), begun)))
  }

  // What a step of its own, or a message of the RTIG, does to a station.
  function Alone(st: Station, e: Step, begun: nat): Station
    requires !e.RtigTakes? && (e.RtiaTakes? ==> st.down != []) && (e.Ticks? ==> st.commands != [])
  {
    match e
    case AsksSave(_, title) => Asked(st, title)
    case Reports(_, saved) => Reported(st, saved)
    case RtigTells(_, notice) => st.(down := st.down + [Tagged(Command(notice), begun)])
    case RtiaTakes(_) => st.(down := st.down[1..], commands := Queued(st.commands, st.down[0]))
    case Ticks(_) => Delivered(st)
  }

  function Next(f: Field, e: Step): Field
    requires Allowed(f, e)
  {
    if e.RtigTakes? then Taken(f, e.h, e.written)
    else f.(stations := f.stations[e.h := Alone(f.stations[e.h], e, f.begun)])
  }

  predicate IsRun(f: Field, steps: seq<Step>)
    decreases |steps|
  {
    steps == [] || (Allowed(f, steps[0]) && IsRun(Next(f, steps[0]), steps[1..]))
  }

  function After(f: Field, steps: seq<Step>): Field
    requires IsRun(f, steps)
    decreases |steps|
  {
    if steps == [] then f else After(Next(f, steps[0]), steps[1..])
  }

  // A report that the RTIA lets through is the first since its federate was last told to save.
  predicate ReportsOnce(f: Field, e: Step) {
    e.Reports? && e.h in f.stations && f.stations[e.h].isSaving ==> !f.stations[e.h].reported
  }

  predicate AllReportOnce(f: Field, steps: seq<Step>)
    requires IsRun(f, steps)
    decreases |steps|
  {
    steps == [] || (ReportsOnce(f, steps[0]) && AllReportOnce(Next(f, steps[0]), steps[1..]))
  }

  // ---- The invariant of one station ----

  predicate NoStart(q: seq<Tagged>) {
    forall t :: t in q ==> !t.message.InitiateSave?
  }

  // The only start in `q` is that of `round`.
  predicate OneStart(q: seq<Tagged>, round: nat) {
    exists k :: 0 <= k < |q| && q[k].message.InitiateSave? && q[k].round == round
             && NoStart(q[..k]) && NoStart(q[k + 1..])
  }

  predicate NoReport(up: seq<Call>) {
    forall c :: c in up ==> !c.TellSaved?
  }

  predicate OneReport(up: seq<Call>) {
    exists k :: 0 <= k < |up| && up[k].TellSaved? && NoReport(up[..k]) && NoReport(up[k + 1..])
  }

  // The ends in `q` are those of rounds that are over.
  predicate EndsOver(q: seq<Tagged>, ended: nat) {
    forall t :: t in q && t.message.SaveEnded? ==> 1 <= t.round <= ended
  }

  predicate StartOf(t: Tagged, round: nat) {
    t.message.InitiateSave? && t.round == round
  }

  ghost predicate HasStart(delivered: seq<Tagged>, round: nat) {
    exists i :: 0 <= i < |delivered| && StartOf(delivered[i], round)
  }

  // Each end that was delivered came after the start of its round.
  ghost predicate InOrder(delivered: seq<Tagged>) {
    forall j :: 0 <= j < |delivered| && delivered[j].message.SaveEnded? ==> HasStart(delivered[..j], delivered[j].round)
  }

  ghost predicate AllStarted(delivered: seq<Tagged>, started: nat) {
    forall r :: 1 <= r <= started ==> HasStart(delivered, r)
  }

  // Between the start being sent and being delivered.
  ghost predicate AwaitsStart(st: Station, marked: bool, begun: nat) {
    && st.started + 1 == begun
    && marked && NoReport(st.up)
    && (if st.started == 0 then !st.isSaving else st.reported)
    && ((OneStart(st.down, begun) && NoStart(st.commands)) || (NoStart(st.down) && OneStart(st.commands, begun)))
  }

  // With every start so far delivered; a report is in flight from when it is made until the RTIG takes it.
  ghost predicate HasStarted(st: Station, marked: bool, begun: nat) {
    && st.started == begun
    && NoStart(st.down) && NoStart(st.commands)
    && (if st.reported && marked then OneReport(st.up) else NoReport(st.up))
    && (if begun == 0 then !st.isSaving && !st.reported && !marked else marked || st.reported)
  }

  ghost predicate StationOk(st: Station, marked: bool, begun: nat, ended: nat) {
    && (AwaitsStart(st, marked, begun) || HasStarted(st, marked, begun))
    && EndsOver(st.down, ended) && EndsOver(st.commands, ended)
    && InOrder(st.delivered) && AllStarted(st.delivered, st.started)
    && ended <= st.started
  }

  ghost predicate FieldOk(f: Field) {
    && f.stations.Keys == f.rtig.members.Keys
    && f.begun == f.ended + (if f.rtig.saveInProgress then 1 else 0)
    && (f.rtig.saveInProgress <==> AnySaving(f.rtig))
    && forall h :: h in f.stations ==> StationOk(f.stations[h], f.rtig.members[h].saving, f.begun, f.ended)
  }

  // ---- Steps of one station ----

  lemma NoReportAfterAsk(up: seq<Call>, title: string)
    ensures NoReport(up) ==> NoReport(up + [AskSave(title)])
    ensures OneReport(up) ==> OneReport(up + [AskSave(title)])
  {
    var up' := up + [AskSave(title)];
    if OneReport(up) {
      var k :| 0 <= k < |up| && up[k].TellSaved? && NoReport(up[..k]) && NoReport(up[k + 1..]);
      assert up'[..k] == up[..k] && up'[k + 1..] == up[k + 1..] + [AskSave(title)] && up'[k] == up[k];
    }
  }

  lemma AskKeepsStation(st: Station, title: string, marked: bool, begun: nat, ended: nat)
    requires StationOk(st, marked, begun, ended)
    ensures StationOk(Asked(st, title), marked, begun, ended)
  {
    NoReportAfterAsk(st.up, title);
    hide NoReport, OneReport, NoStart, OneStart, EndsOver, InOrder, AllStarted;
  }

  lemma ReportAppears(up: seq<Call>, saved: bool)
    requires NoReport(up)
    ensures OneReport(up + [TellSaved(saved)])
  {
    var up' := up + [TellSaved(saved)];
    assert up'[..|up|] == up && up'[|up| + 1..] == [];
  }

  lemma ReportKeepsStation(st: Station, saved: bool, marked: bool, begun: nat, ended: nat)
    requires StationOk(st, marked, begun, ended) && (st.isSaving ==> !st.reported)
    ensures StationOk(Reported(st, saved), marked, begun, ended)
  {
    if st.isSaving {
      ReportAppears(st.up, saved);
    }
    hide NoReport, OneReport, NoStart, OneStart, EndsOver, InOrder, AllStarted;
  }

  lemma OtherAtBack(q: seq<Tagged>, t: Tagged, round: nat)
    requires !t.message.InitiateSave?
    ensures NoStart(q) ==> NoStart(q + [t])
    ensures OneStart(q, round) ==> OneStart(q + [t], round)
  {
    if OneStart(q, round) {
      var k :| 0 <= k < |q| && q[k].message.InitiateSave? && q[k].round == round
            && NoStart(q[..k]) && NoStart(q[k + 1..]);
      assert (q + [t])[..k] == q[..k] && (q + [t])[k + 1..] == q[k + 1..] + [t];
    }
  }

  lemma EndsAtBack(q: seq<Tagged>, t: Tagged, ended: nat)
    requires EndsOver(q, ended) && !t.message.SaveEnded?
    ensures EndsOver(q + [t], ended)
  {
  }

  lemma TellKeepsStation(st: Station, t: Tagged, marked: bool, begun: nat, ended: nat)
    requires StationOk(st, marked, begun, ended) && t.message.Command?
    ensures StationOk(st.(down := st.down + [t]), marked, begun, ended)
  {
    OtherAtBack(st.down, t, begun);
    EndsAtBack(st.down, t, ended);
    hide NoReport, OneReport, NoStart, OneStart, EndsOver, InOrder, AllStarted;
  }

  // The first message of a stream, and the rest.
  lemma HeadStart(q: seq<Tagged>, round: nat)
    requires q != []
    ensures NoStart(q) ==> NoStart(q[1..]) && !q[0].message.InitiateSave?
    ensures OneStart(q, round) ==>
      if q[0].message.InitiateSave? then q[0].round == round && NoStart(q[1..]) else OneStart(q[1..], round)
    ensures forall ended: nat :: EndsOver(q, ended) ==> EndsOver(q[1..], ended) && EndsOver([q[0]], ended)
  {
    if OneStart(q, round) {
      var k :| 0 <= k < |q| && q[k].message.InitiateSave? && q[k].round == round
            && NoStart(q[..k]) && NoStart(q[k + 1..]);
      if k > 0 {
        assert q[..k][0] == q[0];
        assert q[1..][k - 1] == q[k] && q[1..][..k - 1] == q[..k][1..] && q[1..][k..] == q[k + 1..];
      }
    }
  }

  lemma EndInFront(q: seq<Tagged>, t: Tagged, round: nat)
    requires !t.message.InitiateSave?
    ensures NoStart(q) ==> NoStart([t] + q)
    ensures OneStart(q, round) ==> OneStart([t] + q, round)
  {
    if OneStart(q, round) {
      var k :| 0 <= k < |q| && q[k].message.InitiateSave? && q[k].round == round
            && NoStart(q[..k]) && NoStart(q[k + 1..]);
      assert ([t] + q)[k + 1] == q[k] && ([t] + q)[..k + 1] == [t] + q[..k] && ([t] + q)[k + 2..] == q[k + 1..];
    }
  }

  lemma StartInFront(q: seq<Tagged>, t: Tagged)
    requires NoStart(q) && t.message.InitiateSave?
    ensures OneStart([t] + q, t.round)
  {
    assert ([t] + q)[..0] == [] && ([t] + q)[1..] == q;
  }

  lemma QueuedEnds(commands: seq<Tagged>, t: Tagged, ended: nat)
    requires EndsOver(commands, ended) && EndsOver([t], ended)
    ensures EndsOver(Queued(commands, t), ended)
  {
    assert [t][0] == t;
  }

  lemma Queueing(commands: seq<Tagged>, t: Tagged, round: nat)
    ensures NoStart(commands) && !t.message.InitiateSave? ==> NoStart(Queued(commands, t))
    ensures NoStart(commands) && t.message.InitiateSave? && t.round == round ==> OneStart(Queued(commands, t), round)
    ensures OneStart(commands, round) && !t.message.InitiateSave? ==> OneStart(Queued(commands, t), round)
  {
    hide NoStart, OneStart;
    if t.message.InitiateSave? {
      if NoStart(commands) { StartInFront(commands, t); }
    } else {
      EndInFront(commands, t, round);
      OtherAtBack(commands, t, round);
    }
  }

  lemma TakeKeepsStation(st: Station, marked: bool, begun: nat, ended: nat)
    requires StationOk(st, marked, begun, ended) && st.down != []
    ensures StationOk(st.(down := st.down[1..], commands := Queued(st.commands, st.down[0])), marked, begun, ended)
  {
    HeadStart(st.down, begun);
    Queueing(st.commands, st.down[0], begun);
    QueuedEnds(st.commands, st.down[0], ended);
    hide NoReport, OneReport, NoStart, OneStart, EndsOver, InOrder, AllStarted, Queued;
  }

  lemma Delivering(delivered: seq<Tagged>, t: Tagged, started: nat)
    requires InOrder(delivered) && AllStarted(delivered, started)
    requires t.message.SaveEnded? ==> 1 <= t.round <= started
    requires t.message.InitiateSave? ==> t.round == started + 1
    ensures InOrder(delivered + [t])
    ensures AllStarted(delivered + [t], if t.message.InitiateSave? then started + 1 else started)
  {
    var delivered' := delivered + [t];
    forall j | 0 <= j < |delivered'| && delivered'[j].message.SaveEnded?
      ensures HasStart(delivered'[..j], delivered'[j].round)
    {
      assert delivered'[..j] == delivered[..j];
      assert delivered[..|delivered|] == delivered;
    }
    forall r | 1 <= r <= (if t.message.InitiateSave? then started + 1 else started) ensures HasStart(delivered', r) {
      if r == started + 1 {
        assert StartOf(delivered'[|delivered|], r);
      } else {
        assert HasStart(delivered, r);
        var i :| 0 <= i < |delivered| && StartOf(delivered[i], r);
        assert StartOf(delivered'[i], r);
      }
    }
  }

  lemma TickKeepsStation(st: Station, marked: bool, begun: nat, ended: nat)
    requires StationOk(st, marked, begun, ended) && st.commands != []
    ensures StationOk(Delivered(st), marked, begun, ended)
  {
    HeadStart(st.commands, begun);
    assert EndsOver([st.commands[0]], ended) && [st.commands[0]][0] == st.commands[0];
    Delivering(st.delivered, st.commands[0], st.started);
    hide NoReport, OneReport, NoStart, OneStart, EndsOver, InOrder, AllStarted;
  }

  // ---- Steps of the RTIG ----

  // What is left when the first call is taken.
  lemma HeadCall(up: seq<Call>)
    requires up != []
    ensures NoReport(up) ==> NoReport(up[1..]) && up[0].AskSave?
    ensures OneReport(up) ==> if up[0].TellSaved? then NoReport(up[1..]) else OneReport(up[1..])
  {
    if OneReport(up) {
      var k :| 0 <= k < |up| && up[k].TellSaved? && NoReport(up[..k]) && NoReport(up[k + 1..]);
      if k > 0 {
        assert up[..k][0] == up[0];
        assert up[1..][k - 1] == up[k] && up[1..][..k - 1] == up[..k][1..] && up[1..][k..] == up[k + 1..];
      }
    }
  }

  lemma StartArrives(q: seq<Tagged>, title: string, begun: nat, ended: nat)
    requires NoStart(q) && EndsOver(q, ended)
    ensures OneStart(q + [Tagged(InitiateSave(title), begun)], begun)
    ensures EndsOver(q + [Tagged(InitiateSave(title), begun)], ended)
  {
    var q' := q + [Tagged(InitiateSave(title), begun)];
    assert q'[..|q|] == q && q'[|q| + 1..] == [];
  }

  lemma EndArrives(q: seq<Tagged>, saved: bool, begun: nat, ended: nat)
    requires NoStart(q) && EndsOver(q, ended) && ended <= begun && 1 <= begun
    ensures NoStart(q + [Tagged(SaveEnded(saved), begun)])
    ensures EndsOver(q + [Tagged(SaveEnded(saved), begun)], begun)
  {
  }

  lemma OverLonger(q: seq<Tagged>, ended: nat, later: nat)
    requires EndsOver(q, ended) && ended <= later
    ensures EndsOver(q, later)
  {
  }

  // A station that only lost a request to save from its stream.
  lemma AskTakenKeepsStation(st: Station, marked: bool, begun: nat, ended: nat)
    requires StationOk(st, marked, begun, ended) && st.up != [] && st.up[0].AskSave?
    ensures StationOk(st.(up := st.up[1..]), marked, begun, ended)
  {
    HeadCall(st.up);
    hide NoReport, OneReport, NoStart, OneStart, EndsOver, InOrder, AllStarted;
  }

  // A station to which the start of a new round is sent.
  lemma BeginKeepsStation(st: Station, title: string, begun: nat, ended: nat)
    requires StationOk(st, false, begun, ended)
    ensures StationOk(st.(down := st.down + [Tagged(InitiateSave(title), begun + 1)]), true, begun + 1, ended)
  {
    StartArrives(st.down, title, begun + 1, ended);
    hide NoReport, OneReport, NoStart, OneStart, EndsOver, InOrder, AllStarted;
  }

  // The station whose report is taken.
  lemma ReportTakenKeepsStation(st: Station, marked: bool, begun: nat, ended: nat)
    requires StationOk(st, marked, begun, ended) && st.up != [] && st.up[0].TellSaved?
    ensures marked && 1 <= begun && StationOk(st.(up := st.up[1..]), false, begun, ended)
  {
    HeadCall(st.up);
    hide NoReport, OneReport, NoStart, OneStart, EndsOver, InOrder, AllStarted;
  }

  // A station to which the end of the round is sent; nobody owes a report any more.
  lemma EndKeepsStation(st: Station, saved: bool, begun: nat, ended: nat)
    requires StationOk(st, false, begun, ended) && begun == ended + 1
    ensures StationOk(st.(down := st.down + [Tagged(SaveEnded(saved), begun)]), false, begun, begun)
  {
    EndArrives(st.down, saved, begun, ended);
    OverLonger(st.commands, ended, begun);
    hide NoReport, OneReport, NoStart, OneStart, EndsOver, InOrder, AllStarted;
  }

  lemma TagOne(m: Message, round: nat)
    ensures TagAll([m], round) == [Tagged(m, round)] && TagAll([], round) == []
  {
  }

  lemma ForAll(to: set<Handle>, m: Message, h: Handle)
    ensures For([], h) == []
    ensures h in to ==> For([Response(to, m)], h) == [m]
  {
    assert [Response(to, m)][1..] == [];
  }

  // The station of `k` once the first call of `h` is gone.
  function Taking(f: Field, h: Handle, k: Handle): Station
    requires h in f.stations && f.stations[h].up != [] && k in f.stations
  {
    if k == h then f.stations[k].(up := f.stations[k].up[1..]) else f.stations[k]
  }

  // What becomes of every station: it is sent nothing, or `m`.
  ghost predicate AllSent(f: Field, h: Handle, f': Field, message: Option<Message>)
    requires h in f.stations && f.stations[h].up != []
  {
    && f'.stations.Keys == f.stations.Keys
    && forall k :: k in f.stations ==>
         f'.stations[k] == (var st := Taking(f, h, k);
           if message.Some? then st.(down := st.down + [Tagged(message.value, f'.begun)]) else st)
  }

  lemma SentNothing(f: Field, h: Handle, written: bool)
    requires h in f.stations && f.stations[h].up != []
    requires Answered(f.rtig, h, f.stations[h].up[0], written).responses == []
    ensures AllSent(f, h, Taken(f, h, written), None)
  {
    forall k | k in f.stations ensures Taken(f, h, written).stations[k] == Taking(f, h, k) {
      assert For([], k) == [];
      assert f.stations[k].down + TagAll([], Taken(f, h, written).begun) == f.stations[k].down;
    }
  }

  lemma SentOne(f: Field, h: Handle, written: bool, m: Message)
    requires h in f.stations && f.stations[h].up != []
    requires Answered(f.rtig, h, f.stations[h].up[0], written).responses == [Response(f.stations.Keys, m)]
    ensures AllSent(f, h, Taken(f, h, written), Some(m))
  {
    forall k | k in f.stations
      ensures Taken(f, h, written).stations[k]
           == Taking(f, h, k).(down := Taking(f, h, k).down + [Tagged(m, Taken(f, h, written).begun)])
    {
      ForAll(f.stations.Keys, m, k);
      TagOne(m, Taken(f, h, written).begun);
    }
  }

  lemma FieldOf(f: Field, h: Handle)
    requires FieldOk(f) && h in f.stations
    ensures h in f.rtig.members && StationOk(f.stations[h], f.rtig.members[h].saving, f.begun, f.ended)
  {
  }

  lemma FieldFrom(f: Field)
    requires f.stations.Keys == f.rtig.members.Keys
    requires f.begun == f.ended + (if f.rtig.saveInProgress then 1 else 0)
    requires f.rtig.saveInProgress <==> AnySaving(f.rtig)
    requires forall h :: h in f.stations ==> StationOk(f.stations[h], f.rtig.members[h].saving, f.begun, f.ended)
    ensures FieldOk(f)
  {
  }

  // The station of `h` that lost a request, and the others, are as good as they were.
  lemma TakingKeeps(f: Field, h: Handle, k: Handle)
    requires FieldOk(f) && h in f.stations && f.stations[h].up != [] && f.stations[h].up[0].AskSave? && k in f.stations
    ensures k in f.rtig.members && StationOk(Taking(f, h, k), f.rtig.members[k].saving, f.begun, f.ended)
  {
    FieldOf(f, k);
    hide StationOk;
    if k == h {
      AskTakenKeepsStation(f.stations[h], f.rtig.members[h].saving, f.begun, f.ended);
    }
  }

  // The RTIG takes a request to save while a save is on: it refuses.
  lemma AskRefused(f: Field, h: Handle, written: bool)
    requires FieldOk(f) && h in f.stations && f.stations[h].up != [] && f.stations[h].up[0].AskSave?
    requires f.rtig.saveInProgress
    ensures FieldOk(Taken(f, h, written))
  {
    SentNothing(f, h, written);
    var f' := Taken(f, h, written);
    assert f'.rtig == f.rtig && f'.begun == f.begun && f'.ended == f.ended && f'.stations.Keys == f.stations.Keys;
    hide StationOk, Taken, AllSent, Taking;
    forall k | k in f'.stations ensures StationOk(f'.stations[k], f'.rtig.members[k].saving, f'.begun, f'.ended) {
      TakingKeeps(f, h, k);
      SentNoOne(f, h, f', k);
    }
    hide FieldOk;
    FieldFrom(f');
  }

  lemma Begun(f: Field, h: Handle, written: bool)
    requires FieldOk(f) && h in f.stations && f.stations[h].up != [] && f.stations[h].up[0].AskSave?
    requires !f.rtig.saveInProgress
    ensures var f' := Taken(f, h, written);
      && f'.begun == f.begun + 1 && f'.ended == f.ended && f'.rtig.saveInProgress
      && f'.rtig.members.Keys == f.rtig.members.Keys && AnySaving(f'.rtig)
      && (forall k :: k in f.stations ==> f'.rtig.members[k].saving && !f.rtig.members[k].saving)
      && AllSent(f, h, f', Some(InitiateSave(f.stations[h].up[0].title)))
  {
    hide StationOk;
    SentOne(f, h, written, InitiateSave(f.stations[h].up[0].title));
    hide AllSent;
    assert Taken(f, h, written).rtig.members[h].saving;
  }

  // The RTIG takes a request to save and begins a round.
  lemma AskAccepted(f: Field, h: Handle, written: bool)
    requires FieldOk(f) && h in f.stations && f.stations[h].up != [] && f.stations[h].up[0].AskSave?
    requires !f.rtig.saveInProgress
    ensures FieldOk(Taken(f, h, written))
  {
    Begun(f, h, written);
    var f', title := Taken(f, h, written), f.stations[h].up[0].title;
    assert f.begun == f.ended && f'.stations.Keys == f'.rtig.members.Keys;
    forall k | k in f'.stations ensures StationOk(f'.stations[k], f'.rtig.members[k].saving, f'.begun, f'.ended) {
      StationBegins(f, h, f', title, k);
    }
    hide *;
    FieldFrom(f');
  }

  lemma StationBegins(f: Field, h: Handle, f': Field, title: string, k: Handle)
    requires FieldOk(f) && h in f.stations && f.stations[h].up != [] && f.stations[h].up[0].AskSave?
    requires k in f.stations && k in f.rtig.members && !f.rtig.members[k].saving
    requires k in f'.rtig.members && f'.rtig.members[k].saving && f'.begun == f.begun + 1 && f'.ended == f.ended
    requires AllSent(f, h, f', Some(InitiateSave(title)))
    ensures StationOk(f'.stations[k], f'.rtig.members[k].saving, f'.begun, f'.ended)
  {
    hide FieldOk, StationOk, AllSent, Taking;
    TakingKeeps(f, h, k);
    SentStart(f, h, f', title, k);
    BeginKeepsStation(Taking(f, h, k), title, f.begun, f.ended);
  }

  lemma SentNoOne(f: Field, h: Handle, f': Field, k: Handle)
    requires h in f.stations && f.stations[h].up != [] && k in f.stations && AllSent(f, h, f', None)
    ensures k in f'.stations && f'.stations[k] == Taking(f, h, k)
  {
  }

  lemma SentStart(f: Field, h: Handle, f': Field, title: string, k: Handle)
    requires h in f.stations && f.stations[h].up != [] && k in f.stations
    requires AllSent(f, h, f', Some(InitiateSave(title)))
    ensures k in f'.stations
    ensures f'.stations[k]
         == Taking(f, h, k).(down := Taking(f, h, k).down + [Tagged(InitiateSave(title), f'.begun)])
  {
  }

  // The report of `h` is the last.
  predicate IsLast(f: Field, h: Handle) {
    forall k :: k in f.rtig.members && k != h ==> !f.rtig.members[k].saving
  }

  lemma SomeoneElse(r: Rtig, h: Handle, saved: bool)
    requires h in r.members
    ensures var r1 := r.(members := r.members[h := r.members[h].(saving := false)],
                         saveStatus := r.saveStatus && saved);
      AnySaving(r1) <==> exists k :: k in r.members && k != h && r.members[k].saving
  {
    if k :| k in r.members && k != h && r.members[k].saving {
      assert r.members[h := r.members[h].(saving := false)][k].saving;
    }
  }

  // The RTIG after the report of `h`, with others still to come.
  lemma Waits(r: Rtig, h: Handle, saved: bool, written: bool)
    requires h in r.members && r.saveInProgress && exists k :: k in r.members && k != h && r.members[k].saving
    ensures var answer := SaveReport(r, h, saved, written);
      && answer.responses == [] && answer.rtig.saveInProgress && AnySaving(answer.rtig)
      && answer.rtig.members.Keys == r.members.Keys
      && (forall k :: k in r.members ==> answer.rtig.members[k].saving == (k != h && r.members[k].saving))
  {
    SomeoneElse(r, h, saved);
  }

  lemma Continued(f: Field, h: Handle, written: bool)
    requires FieldOk(f) && h in f.stations && f.stations[h].up != [] && f.stations[h].up[0].TellSaved?
    requires !IsLast(f, h)
    ensures var f' := Taken(f, h, written);
      && f.begun == f.ended + 1 && f'.begun == f.begun && f'.ended == f.ended
      && f'.rtig.members.Keys == f.rtig.members.Keys && f'.stations.Keys == f.stations.Keys
      && f'.rtig.saveInProgress && AnySaving(f'.rtig)
      && (forall k :: k in f'.rtig.members ==> f'.rtig.members[k].saving == (k != h && f.rtig.members[k].saving))
    ensures Answered(f.rtig, h, f.stations[h].up[0], written).responses == []
  {
    SavingIsOn(f, h);
    Waits(f.rtig, h, f.stations[h].up[0].saved, written);
    hide StationOk, For, TagAll, SaveReport, AnySaving;
  }

  lemma SavingIsOn(f: Field, h: Handle)
    requires FieldOk(f) && !IsLast(f, h)
    ensures f.rtig.saveInProgress
  {
    assert AnySaving(f.rtig);
  }

  lemma StationContinues(f: Field, h: Handle, f': Field, k: Handle)
    requires FieldOk(f) && h in f.stations && f.stations[h].up != [] && f.stations[h].up[0].TellSaved?
    requires k in f.stations && k in f.rtig.members && k in f'.rtig.members
    requires f'.rtig.members[k].saving == (k != h && f.rtig.members[k].saving)
    requires f'.begun == f.begun && f'.ended == f.ended && AllSent(f, h, f', None)
    ensures StationOk(f'.stations[k], f'.rtig.members[k].saving, f'.begun, f'.ended)
  {
    FieldOf(f, k);
    if k == h {
      ReportTakenKeepsStation(f.stations[h], f.rtig.members[h].saving, f.begun, f.ended);
    }
    hide FieldOk, StationOk;
  }

  // The RTIG takes a report while others are still to come.
  lemma ReportTaken(f: Field, h: Handle, written: bool)
    requires FieldOk(f) && h in f.stations && f.stations[h].up != [] && f.stations[h].up[0].TellSaved?
    requires !IsLast(f, h)
    ensures FieldOk(Taken(f, h, written))
  {
    Continued(f, h, written);
    var f' := Taken(f, h, written);
    SentNothing(f, h, written);
    assert f.stations.Keys == f.rtig.members.Keys;
    hide StationOk, Taken, AnySaving, FieldOk, AllSent, Answered;
    forall k | k in f'.stations ensures StationOk(f'.stations[k], f'.rtig.members[k].saving, f'.begun, f'.ended) {
      StationContinues(f, h, f', k);
    }
    hide *;
    FieldFrom(f');
  }

  lemma Ended(f: Field, h: Handle, written: bool)
    requires FieldOk(f) && h in f.stations && f.stations[h].up != [] && f.stations[h].up[0].TellSaved?
    requires IsLast(f, h) && f.rtig.members[h].saving
    ensures var f' := Taken(f, h, written);
      && f.begun == f.ended + 1 && f'.begun == f.begun && f'.ended == f.begun
      && f'.rtig.members.Keys == f.rtig.members.Keys && f'.stations.Keys == f.stations.Keys
      && !f'.rtig.saveInProgress && !AnySaving(f'.rtig)
      && (forall k :: k in f'.rtig.members ==> !f'.rtig.members[k].saving)
    ensures Answered(f.rtig, h, f.stations[h].up[0], written).responses
         == [Response(f.stations.Keys, SaveEnded(f.rtig.saveStatus && f.stations[h].up[0].saved && written))]
  {
    hide StationOk;
    SomeoneElse(f.rtig, h, f.stations[h].up[0].saved);
    assert AnySaving(f.rtig);
  }

  lemma StationEnds(f: Field, h: Handle, f': Field, saved: bool, k: Handle)
    requires FieldOk(f) && h in f.stations && f.stations[h].up != [] && f.stations[h].up[0].TellSaved?
    requires k in f.stations && k in f.rtig.members && (k != h ==> !f.rtig.members[k].saving)
    requires f.begun == f.ended + 1 && f'.begun == f.begun && f'.ended == f.begun
    requires AllSent(f, h, f', Some(SaveEnded(saved)))
    ensures StationOk(f'.stations[k], false, f'.begun, f'.ended)
  {
    FieldOf(f, k);
    if k == h {
      ReportTakenKeepsStation(f.stations[h], f.rtig.members[h].saving, f.begun, f.ended);
    }
    hide FieldOk, StationOk;
    EndKeepsStation(Taking(f, h, k), saved, f.begun, f.ended);
  }

  // The RTIG takes the last report and ends the round.
  lemma LastReportTaken(f: Field, h: Handle, written: bool)
    requires FieldOk(f) && h in f.stations && f.stations[h].up != [] && f.stations[h].up[0].TellSaved?
    requires IsLast(f, h)
    ensures FieldOk(Taken(f, h, written))
  {
    FieldOf(f, h);
    ReportTakenKeepsStation(f.stations[h], f.rtig.members[h].saving, f.begun, f.ended);
    Ended(f, h, written);
    var f', saved := Taken(f, h, written), f.rtig.saveStatus && f.stations[h].up[0].saved && written;
    SentOne(f, h, written, SaveEnded(saved));
    assert f.stations.Keys == f.rtig.members.Keys;
    hide StationOk, Taken, AnySaving, FieldOk, AllSent, Answered;
    forall k | k in f'.stations ensures StationOk(f'.stations[k], f'.rtig.members[k].saving, f'.begun, f'.ended) {
      StationEnds(f, h, f', saved, k);
    }
    hide *;
    FieldFrom(f');
  }

  // ---- Runs ----

  lemma OneStationKeeps(f: Field, h: Handle, st: Station)
    requires FieldOk(f) && h in f.stations && StationOk(st, f.rtig.members[h].saving, f.begun, f.ended)
    ensures FieldOk(f.(stations := f.stations[h := st]))
  {
    hide StationOk;
  }

  lemma AloneKeepsStation(st: Station, e: Step, marked: bool, begun: nat, ended: nat)
    requires StationOk(st, marked, begun, ended) && !e.RtigTakes? && (e.Reports? && st.isSaving ==> !st.reported)
    requires (e.RtiaTakes? ==> st.down != []) && (e.Ticks? ==> st.commands != [])
    ensures StationOk(Alone(st, e, begun), marked, begun, ended)
  {
    hide StationOk, Delivered, Queued, Reported, Asked;
    match e
    case AsksSave(_, title) => AskKeepsStation(st, title, marked, begun, ended);
    case Reports(_, saved) => ReportKeepsStation(st, saved, marked, begun, ended);
    case RtigTells(_, notice) => TellKeepsStation(st, Tagged(Command(notice), begun), marked, begun, ended);
    case RtiaTakes(_) => TakeKeepsStation(st, marked, begun, ended);
    case Ticks(_) => TickKeepsStation(st, marked, begun, ended);
  }

  lemma StepKeeps(f: Field, e: Step)
    requires FieldOk(f) && Allowed(f, e) && ReportsOnce(f, e)
    ensures FieldOk(Next(f, e))
  {
    var st := f.stations[e.h];
    FieldOf(f, e.h);
    hide FieldOk, StationOk, Taken, Alone;
    if !e.RtigTakes? {
      AloneKeepsStation(st, e, f.rtig.members[e.h].saving, f.begun, f.ended);
      OneStationKeeps(f, e.h, Alone(st, e, f.begun));
    } else if st.up[0].TellSaved? {
      if IsLast(f, e.h) { LastReportTaken(f, e.h, e.written); } else { ReportTaken(f, e.h, e.written); }
    } else if f.rtig.saveInProgress {
      AskRefused(f, e.h, e.written);
    } else {
      AskAccepted(f, e.h, e.written);
    }
  }

  lemma {:induction false} RunKeeps(f: Field, steps: seq<Step>)
    requires FieldOk(f) && IsRun(f, steps) && AllReportOnce(f, steps)
    ensures FieldOk(After(f, steps))
    decreases |steps|
  {
    hide FieldOk, Next, Allowed, ReportsOnce;
    if steps != [] {
      StepKeeps(f, steps[0]);
      RunKeeps(Next(f, steps[0]), steps[1..]);
    }
  }

  lemma BeginIsOk(members: set<Handle>)
    ensures FieldOk(Begin(members))
  {
  }

  // In every run in which federates report once, over any number of rounds: each end of a round was delivered
  // after the start of that round; and wherever an end still is, on its way or in the command list, the start
  // of its round has been delivered already.
  lemma EndNeverOvertakesStart(members: set<Handle>, steps: seq<Step>, h: Handle)
    requires IsRun(Begin(members), steps) && AllReportOnce(Begin(members), steps)
    requires h in After(Begin(members), steps).stations
    ensures var st := After(Begin(members), steps).stations[h];
      && InOrder(st.delivered)
      && forall t :: (t in st.down || t in st.commands) && t.message.SaveEnded? ==> HasStart(st.delivered, t.round)
  {
    BeginIsOk(members);
    RunKeeps(Begin(members), steps);
    var f := After(Begin(members), steps);
    assert StationOk(f.stations[h], f.rtig.members[h].saving, f.begun, f.ended);
  }
}
