/** Runs of the RTIG: any sequence of services, each as it was proved of the class Federation.

    Federates join and do not leave.
 */
module RtigRuns {
  import opened FederationTime
  import opened Messages
  import opened RtigState
  import Federation

  datatype Service =
    | Joins(h: Handle)
    | Relays(m: Message, subscribers: set<Handle>)
    | Registers(h: Handle, point: string, tag: string)
    | RegistersFor(h: Handle, point: string, tag: string, who: seq<Handle>)
    | Achieves(h: Handle, point: string)
    | RequestsSave(h: Handle, title: string)
    | ReportsSave(h: Handle, saved: bool, written: bool)
    | RequestsRestore(h: Handle, title: string)
    | ReportsRestore(h: Handle, restored: bool)
    | AsksNext(h: Handle, date: Time)

  ghost function Serve(r: Rtig, s: Service): Answer
    requires Sound(r)
  {
    match s
    case Joins(h) => if h in r.members then Failure(r) else Add(r, h)
    case Relays(m, subscribers) => Process(r, m, subscribers)
    case Registers(h, point, tag) => RegisterForAll(r, h, point, tag)
    case RegistersFor(h, point, tag, who) => RegisterForSome(r, h, point, tag, who)
    case Achieves(h, point) => Achieve(r, h, point)
    case RequestsSave(h, title) => RequestSave(r, h, title)
    case ReportsSave(h, saved, written) => SaveReport(r, h, saved, written)
    case RequestsRestore(h, title) => RequestRestore(r, h, title)
    case ReportsRestore(h, restored) => RestoreReport(r, h, restored)
    case AsksNext(h, date) => NullPrime(r, h, date)
  }

  lemma ProcessIsSound(r: Rtig, m: Message, subscribers: set<Handle>)
    requires Sound(r)
    ensures Sound(Process(r, m, subscribers).rtig)
  {
    hide Sound, AddRegulator, UpdateRegulator, RemoveRegulator, SetConstrained;
    match m
    case Null(src, date) => Federation.UpdateRegulatorIsSound(r, src, date);
    case RegulatorOn(src, date) => Federation.AddRegulatorIsSound(r, src, date);
    case RegulatorOff(src) => Federation.RemoveRegulatorIsSound(r, src);
    case Constraining(src, on) => Federation.SetConstrainedIsSound(r, src, on);
    case _ =>
  }

  lemma ServeIsSound(r: Rtig, s: Service)
    requires Sound(r)
    ensures Sound(Serve(r, s).rtig)
  {
    hide Sound, Process, RegisterForAll, RegisterForSome, Achieve, RequestSave, SaveReport, RequestRestore,
         RestoreReport, NullPrime, Add;
    match s
    case Joins(h) => if h !in r.members { Federation.AddIsSound(r, h); }
    case Relays(m, subscribers) => ProcessIsSound(r, m, subscribers);
    case Registers(h, point, tag) => Federation.RegisterForAllPends(r, h, point, tag);
    case RegistersFor(h, point, tag, who) => Federation.RegisterForSomeIsSound(r, h, point, tag, who);
    case Achieves(h, point) => Federation.AchieveIsSound(r, h, point);
    case RequestsSave(h, title) => Federation.RequestSaveChanges(r, h, title);
    case ReportsSave(h, saved, written) => Federation.SaveReportIsSound(r, h, saved, written);
    case RequestsRestore(h, title) => Federation.RequestRestoreChanges(r, h, title);
    case ReportsRestore(h, restored) => Federation.RestoreReportIsSound(r, h, restored);
    case AsksNext(h, date) => Federation.NullPrimeIsSound(r, h, date);
  }

  ghost function After(r: Rtig, services: seq<Service>): (r': Rtig)
    requires Sound(r)
    ensures Sound(r')
    decreases |services|
  {
    if services == [] then r else
      ServeIsSound(r, services[0]);
      After(Serve(r, services[0]).rtig, services[1..])
  }

  // All that is sent during the run, in order.
  ghost function Responses(r: Rtig, services: seq<Service>): seq<Response>
    requires Sound(r)
    decreases |services|
  {
    if services == [] then [] else
      ServeIsSound(r, services[0]);
      Serve(r, services[0]).responses + Responses(Serve(r, services[0]).rtig, services[1..])
  }

  lemma {:induction false} AfterConcat(r: Rtig, a: seq<Service>, b: seq<Service>)
    requires Sound(r)
    ensures After(r, a + b) == After(After(r, a), b)
    ensures Responses(r, a + b) == Responses(r, a) + Responses(After(r, a), b)
    decreases |a|
  {
    hide Sound, Serve;
    if a == [] {
      assert a + b == b;
    } else {
      assert (a + b)[0] == a[0] && (a + b)[1..] == a[1..] + b;
      ServeIsSound(r, a[0]);
      AfterConcat(Serve(r, a[0]).rtig, a[1..], b);
    }
  }

  lemma RegisterForSomeLeaves(r: Rtig, h: Handle, p: string, tag: string, who: seq<Handle>)
    ensures RegisterForSome(r, h, p, tag, who).rtig
         == if h !in r.members || p == "" || p in r.points then r
            else r.(points := r.points[p := tag], members := OweInTurn(r.members, Owers(h, who), p).0)
  {
    hide OweInTurn;
  }

  lemma AchieveLeaves(r: Rtig, h: Handle, p: string)
    ensures var r' := Achieve(r, h, p).rtig;
      r' == if p == "" || !Owes(r, h, p) then r
            else r.(members := r.members[h := r.members[h].(points := r.members[h].points - {p})], points := r'.points)
  {
  }
}
