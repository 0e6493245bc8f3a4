/** Null prime messages, over any run of the RTIG: when an anonymous null message is issued, and its date. */
module NerxRounds {
  import opened FederationTime
  import opened Lbts
  import opened Messages
  import opened RtigState
  import opened RtigRuns

  // The date a federate asks for, if it asks.
  function AskedFor(r: Rtig, h: Handle): Option<Time> {
    if h in r.members && r.members[h].usingNerx then Some(r.members[h].nerx) else None
  }

  // A service that leaves the next event requests alone; new members ask for nothing.
  ghost predicate SameAsking(r: Rtig, r': Rtig) {
    && r'.minNerx == r.minNerx
    && (forall h :: AskedFor(r', h) == AskedFor(r, h))
  }

  lemma JoinSameAsking(r: Rtig, h: Handle)
    ensures SameAsking(r, if h in r.members then r else Add(r, h).rtig)
  {
  }

  lemma RelaySameAsking(r: Rtig, m: Message, subscribers: set<Handle>)
    ensures SameAsking(r, Process(r, m, subscribers).rtig)
  {
  }

  lemma RegisterSameAsking(r: Rtig, h: Handle, point: string, tag: string)
    requires Sound(r)
    ensures SameAsking(r, RegisterForAll(r, h, point, tag).rtig)
  {
    hide NoStrayPoints;
  }

  lemma {:induction false} OweInTurnSameAsking(members: map<Handle, Member>, who: seq<Handle>, point: string)
    ensures var members' := OweInTurn(members, who, point).0;
      members'.Keys == members.Keys
      && forall k :: k in members ==>
           members'[k].usingNerx == members[k].usingNerx && members'[k].nerx == members[k].nerx
    decreases |who|
  {
    if who != [] && who[0] in members && point !in members[who[0]].points {
      OweInTurnSameAsking(members[who[0] := Owing(members[who[0]], point)], who[1..], point);
    }
  }

  lemma RegisterForSomeSameAsking(r: Rtig, h: Handle, point: string, tag: string, who: seq<Handle>)
    ensures SameAsking(r, RegisterForSome(r, h, point, tag, who).rtig)
  {
    OweInTurnSameAsking(r.members, Owers(h, who), point);
    RegisterForSomeLeaves(r, h, point, tag, who);
    hide OweInTurn, RegisterForSome;
  }

  lemma AchieveSameAsking(r: Rtig, h: Handle, point: string)
    ensures SameAsking(r, Achieve(r, h, point).rtig)
  {
    AchieveLeaves(r, h, point);
    hide Achieve;
  }

  lemma SaveSameAsking(r: Rtig, s: Service)
    requires Sound(r) && (s.RequestsSave? || s.ReportsSave?)
    ensures SameAsking(r, Serve(r, s).rtig)
  {
    hide Sound, AnySaving;
  }

  lemma RestoreSameAsking(r: Rtig, s: Service)
    requires Sound(r) && (s.RequestsRestore? || s.ReportsRestore?)
    ensures SameAsking(r, Serve(r, s).rtig)
  {
    hide Sound, AnyRestoring;
  }

  lemma OthersSameAsking(r: Rtig, s: Service)
    requires Sound(r) && !s.AsksNext?
    ensures SameAsking(r, Serve(r, s).rtig)
  {
    hide SameAsking, Sound, Process, NullPrime, Achieve, RegisterForSome, RegisterForAll, Add, SaveReport, RequestSave,
         RestoreReport, RequestRestore;
    match s
    case Joins(h) => JoinSameAsking(r, h);
    case Relays(m, subscribers) => RelaySameAsking(r, m, subscribers);
    case Registers(h, point, tag) => RegisterSameAsking(r, h, point, tag);
    case RegistersFor(h, point, tag, who) => RegisterForSomeSameAsking(r, h, point, tag, who);
    case Achieves(h, point) => AchieveSameAsking(r, h, point);
    case RequestsSave(_, _) => SaveSameAsking(r, s);
    case ReportsSave(_, _, _) => SaveSameAsking(r, s);
    case RequestsRestore(_, _) => RestoreSameAsking(r, s);
    case ReportsRestore(_, _) => RestoreSameAsking(r, s);
  }

  // ---- One null prime message ----

  // The state in which a null prime message of `h` is judged.
  function Asked(r: Rtig, h: Handle, date: Time): Rtig
    requires h in r.members
  {
    r.(members := r.members[h := r.members[h].(nerx := date, usingNerx := true)])
  }

  // Whether the message leads to an anonymous null message.
  ghost predicate Issues(r: Rtig, s: Service)
    requires Sound(r)
  {
    s.AsksNext? && Serve(r, s).responses != []
  }

  // A null message is issued exactly when the minimum strictly increases. It goes to every member and
  // carries that minimum: the least, over the regulators, of the date asked for by those that ask and
  // the clock of those that do not; and at least two regulators ask.
  lemma IssueIsMinimum(r: Rtig, s: Service)
    requires Sound(r)
    ensures Issues(r, s) <==> r.minNerx.Lt(Serve(r, s).rtig.minNerx)
    ensures !Issues(r, s) ==> Serve(r, s).rtig.minNerx == r.minNerx
    ensures Issues(r, s) ==> s.AsksNext?
    ensures Issues(r, s) ==>
      var date := Serve(r, s).rtig.minNerx;
      && s.h in r.members && Sound(Asked(r, s.h, s.date))
      && Serve(r, s).responses == [Response(r.members.Keys, Null(0, date))]
      && (ZERO.Le(r.minNerx) ==>
            && |Asking(Asked(r, s.h, s.date))| >= 2
            && IsLeast(NerxClocks(Asked(r, s.h, s.date)), 0, date))
      && (forall h :: h in Serve(r, s).rtig.members ==> !Serve(r, s).rtig.members[h].usingNerx)
  {
    if !s.AsksNext? {
      OthersSameAsking(r, s);
      hide Serve;
    } else {
      AskIssues(r, s.h, s.date);
      hide NullPrime, NerxClocks, Asking, NoStrayPoints;
    }
  }

  // The answer to a null prime message.
  lemma AskIssues(r: Rtig, h: Handle, date: Time)
    requires Sound(r)
    ensures var a := NullPrime(r, h, date);
      if h !in r.members then a == Failure(r)
      else
        Sound(Asked(r, h, date))
        && var least := MinNerx(Asked(r, h, date));
        if r.minNerx.Lt(least) then
          && a.responses == [Response(r.members.Keys, Null(0, least))] && a.rtig.minNerx == least
          && forall k :: k in a.rtig.members ==> !a.rtig.members[k].usingNerx
        else a.responses == [] && a.rtig == Asked(r, h, date)
  {
    hide MinNerx;
  }

  // ---- Over runs ----

  // The minimum never decreases.
  lemma {:induction false} MinNeverDecreases(r: Rtig, services: seq<Service>)
    requires Sound(r)
    ensures r.minNerx.Le(After(r, services).minNerx)
    decreases |services|
  {
    hide Sound, Serve, Issues;
    if services != [] {
      ServeIsSound(r, services[0]);
      IssueIsMinimum(r, services[0]);
      MinNeverDecreases(Serve(r, services[0]).rtig, services[1..]);
    }
  }

  ghost predicate AskedBy(services: seq<Service>, h: Handle) {
    exists s :: s in services && s.AsksNext? && s.h == h
  }

  lemma AskingStep(r: Rtig, s: Service, h: Handle)
    requires Sound(r) && h in Serve(r, s).rtig.members && Serve(r, s).rtig.members[h].usingNerx
    ensures (h in r.members && r.members[h].usingNerx) || (s.AsksNext? && s.h == h)
  {
    AskStays(r, s, h);
    hide Serve, Issues;
  }

  // A federate that asks has sent a null prime message since it last did not.
  lemma {:induction false} AskersAreFresh(r: Rtig, services: seq<Service>, h: Handle)
    requires Sound(r) && h in After(r, services).members && After(r, services).members[h].usingNerx
    ensures (h in r.members && r.members[h].usingNerx) || AskedBy(services, h)
    decreases |services|
  {
    hide Sound, Serve;
    if services != [] {
      var r1 := Serve(r, services[0]).rtig;
      ServeIsSound(r, services[0]);
      AskersAreFresh(r1, services[1..], h);
      if AskedBy(services[1..], h) {
        var s :| s in services[1..] && s.AsksNext? && s.h == h;
        assert s in services;
      } else {
        AskingStep(r, services[0], h);
        assert services[0] in services;
      }
    }
  }

  lemma TwoOf(s: set<Handle>) returns (a: Handle, b: Handle)
    requires |s| >= 2
    ensures a in s && b in s && a != b
  {
    a :| a in s;
    assert |s - {a}| >= 1;
    b :| b in s - {a};
  }

  // Between two anonymous null messages at least two different regulators have sent a null prime
  // message, the last of them bringing on the second.
  lemma NextIssueNeedsTwo(r: Rtig, first: Service, during: seq<Service>, next: Service)
    requires Sound(r) && ZERO.Le(r.minNerx) && Issues(r, first)
    requires Sound(Serve(r, first).rtig) && Issues(After(Serve(r, first).rtig, during), next)
    ensures var r2 := After(Serve(r, first).rtig, during);
      exists a, b :: a != b && a in r2.regulators && b in r2.regulators
                  && AskedBy(during + [next], a) && AskedBy(during + [next], b)
  {
    hide Serve, NoStrayPoints, Issues;
    var r1 := Serve(r, first).rtig;
    var r2 := After(r1, during);
    IssueIsMinimum(r, first);
    MinNeverDecreases(r1, during);
    IssueIsMinimum(r2, next);
    var a, b := TwoOf(Asking(Asked(r2, next.h, next.date)));
    AskerIsFresh(r1, during, next, a);
    AskerIsFresh(r1, during, next, b);
  }

  lemma AskerIsFresh(r: Rtig, during: seq<Service>, next: Service, h: Handle)
    requires Sound(r) && forall k :: k in r.members ==> !r.members[k].usingNerx
    requires next.AsksNext? && next.h in After(r, during).members
    requires Sound(Asked(After(r, during), next.h, next.date))
    requires h in Asking(Asked(After(r, during), next.h, next.date))
    ensures AskedBy(during + [next], h)
  {
    if h == next.h {
      assert next in during + [next];
    } else {
      AskersAreFresh(r, during, h);
      var s :| s in during && s.AsksNext? && s.h == h;
      assert s in during + [next];
    }
  }

  // ---- What the minimum is the minimum of ----

  // The date h asked for last, if it has asked since the last anonymous null message.
  ghost function LastAsked(r: Rtig, services: seq<Service>, h: Handle, before: Option<Time>): Option<Time>
    requires Sound(r)
    decreases |services|
  {
    if services == [] then before else
      var s := services[0];
      ServeIsSound(r, s);
      LastAsked(Serve(r, s).rtig, services[1..], h,
                if Issues(r, s) then None
                else if s.AsksNext? && s.h == h && h in r.members then Some(s.date) else before)
  }

  lemma AskStays(r: Rtig, s: Service, h: Handle)
    requires Sound(r)
    ensures AskedFor(Serve(r, s).rtig, h)
         == if Issues(r, s) then None
            else if s.AsksNext? && s.h == h && h in r.members then Some(s.date) else AskedFor(r, h)
  {
    if s.AsksNext? {
      AskIssues(r, s.h, s.date);
      hide NullPrime, NoStrayPoints;
    } else {
      OthersSameAsking(r, s);
      hide Serve;
    }
  }

  lemma {:induction false} LastAskedIs(r: Rtig, services: seq<Service>, h: Handle)
    requires Sound(r)
    ensures LastAsked(r, services, h, AskedFor(r, h)) == AskedFor(After(r, services), h)
    decreases |services|
  {
    hide Sound, Serve, AskedFor, Issues;
    if services != [] {
      ServeIsSound(r, services[0]);
      AskStays(r, services[0], h);
      LastAskedIs(Serve(r, services[0]).rtig, services[1..], h);
    }
  }

  // A regulator that has asked, h with its present message.
  ghost predicate Asks(services: seq<Service>, k: Handle, h: Handle)
    requires Sound(INITIAL)
  {
    k in After(INITIAL, services).regulators && (k == h || LastAsked(INITIAL, services, k, None).Some?)
  }

  // The date with which a regulator counts when h asks for `date`.
  ghost function Bid(services: seq<Service>, k: Handle, h: Handle, date: Time): Time
    requires Sound(INITIAL) && k in After(INITIAL, services).regulators
  {
    var asked := LastAsked(INITIAL, services, k, None);
    if k == h then date
    else if asked.Some? then asked.value
    else After(INITIAL, services).regulators[k]
  }

  lemma BidsAreClocks(services: seq<Service>, k: Handle, h: Handle, date: Time)
    requires Sound(INITIAL) && h in After(INITIAL, services).members
    requires Sound(Asked(After(INITIAL, services), h, date))
    ensures var r1 := Asked(After(INITIAL, services), h, date);
      && (k in r1.regulators ==> NerxClocks(r1)[k] == Bid(services, k, h, date))
      && (k in Asking(r1) <==> Asks(services, k, h))
      && NerxClocks(r1).Keys == After(INITIAL, services).regulators.Keys
  {
    LastAskedIs(INITIAL, services, k);
    assert AskedFor(INITIAL, k) == None;
    hide After, LastAsked, NoStrayPoints;
  }

  lemma AtLeastTwo(s: set<Handle>)
    ensures |s| >= 2 <==> exists a, b :: a in s && b in s && a != b
  {
    if |s| >= 2 {
      var a, b := TwoOf(s);
    } else if s != {} {
      var a :| a in s;
      assert |s - {a}| == 0;
    }
  }

  // Over any run: a null prime message brings on an anonymous null message with the date `least` exactly when two
  // regulators have asked since the last one, and `least` is the least of what all regulators count with, and
  // greater than the last minimum. A regulator counts with what it asked for last, or else with its clock.
  lemma MinimumIssuedIff(services: seq<Service>, h: Handle, date: Time, least: Time)
    requires Sound(INITIAL) && h in After(INITIAL, services).members
    ensures var r := After(INITIAL, services);
      Serve(r, AsksNext(h, date)).responses == [Response(r.members.Keys, Null(0, least))] <==>
        && r.minNerx.Lt(least)
        && (exists a, b :: Asks(services, a, h) && Asks(services, b, h) && a != b)
        && (forall k :: k in r.regulators && k != 0 ==> least.Le(Bid(services, k, h, date)))
        && (exists k :: k in r.regulators && k != 0 && Bid(services, k, h, date) == least)
  {
    var r := After(INITIAL, services);
    var r1 := Asked(r, h, date);
    assert Serve(r, AsksNext(h, date)) == NullPrime(r, h, date) && r1.regulators == r.regulators by {
      hide NullPrime, After;
    }
    assert INITIAL.minNerx == ZERO;
    hide *;
    MinNeverDecreases(INITIAL, services);
    AskIssues(r, h, date);
    forall k ensures k in r.regulators ==> NerxClocks(r1)[k] == Bid(services, k, h, date)
             ensures k in Asking(r1) <==> Asks(services, k, h)
             ensures NerxClocks(r1).Keys == r.regulators.Keys
    {
      BidsAreClocks(services, k, h, date);
    }
    AtLeastTwo(Asking(r1));
    LeastOfBids(r1, least);
    Below(r.minNerx, least);
  }

  lemma Below(a: Time, b: Time)
    requires ZERO.Le(a)
    ensures a.Lt(b) ==> b != ZERO
  {
  }

  lemma LeastOfBids(r: Rtig, least: Time)
    requires Sound(r)
    ensures MinNerx(r) == least && |Asking(r)| >= 2 <==>
      |Asking(r)| >= 2 && (forall k :: k in NerxClocks(r) && k != 0 ==> least.Le(NerxClocks(r)[k]))
      && exists k :: k in NerxClocks(r) && k != 0 && NerxClocks(r)[k] == least
    ensures |Asking(r)| < 2 ==> MinNerx(r) == ZERO
  {
    if |Asking(r)| >= 2 {
      var a, b := TwoOf(Asking(r));
      var k := if a != 0 then a else b;
      assert k in NerxClocks(r) && k != 0;
      if MinNerx(r) == Infinity {
        assert NerxClocks(r)[k] == Infinity;
      }
    }
    hide NoStrayPoints;
  }
}
