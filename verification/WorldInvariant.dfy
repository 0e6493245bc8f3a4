/** The inductive invariant of a federation, and its preservation by every step. */
module WorldInvariant {
  import opened FederationTime
  import opened Lbts
  import opened Messages
  import opened Queues
  import opened TimeState
  import opened RtigState
  import opened World
  import opened CausalSafety

  // From federate h to the RTIG.
  ghost predicate UpOk(w: World, h: Handle)
    requires h in w.rtias && h in w.up
  {
    && w.rtias[h].me == h != 0
    && Consistent(w.rtias[h])
    && (forall m :: m in w.up[h] ==> SpokenBy(m, h))
    && Honest(Get(w.rtig.regulators, h), w.up[h], h)
    && Covers(ClockAfter(Get(w.rtig.regulators, h), w.up[h], h), w.rtias[h])
  }

  // From the RTIG to federate j, about federate i.
  ghost predicate LinkOk(w: World, i: Handle, j: Handle)
    requires j in w.rtias && j in w.down
  {
    var clock := ClockAfter(Get(w.rtias[j].clocks, i), w.down[j], i);
    && Honest(Get(w.rtias[j].clocks, i), w.down[j], i)
    && clock.Some? == (i in w.rtig.regulators)
    && (i != j ==> clock == Get(w.rtig.regulators, i))
  }

  predicate ToldTo(m: Message, j: Handle) {
    !(m.Null? && m.src == 0) && !m.Constraining? && !m.JoinReply? && !m.EventReply? && !(m.Timed? && m.event.src == j)
  }

  ghost predicate DownOk(w: World, j: Handle)
    requires j in w.down
  {
    forall m :: m in w.down[j] ==> ToldTo(m, j)
  }

  ghost predicate FlagsOk(r: Rtig) {
    forall h :: (h in r.members && r.members[h].regulator) <==> h in r.regulators
  }

  ghost predicate Invariant(w: World) {
    && w.rtias.Keys == w.up.Keys == w.down.Keys == w.rtig.members.Keys
    && FlagsOk(w.rtig)
    && (forall h :: h in w.rtias ==> UpOk(w, h))
    && (forall j :: j in w.rtias ==> DownOk(w, j))
    && (forall i, j :: j in w.rtias ==> LinkOk(w, i, j))
  }

  // What a step leaves alone keeps its invariant.

  lemma UpFrame(w: World, w': World, h: Handle)
    requires h in w.rtias && h in w.up && UpOk(w, h)
    requires h in w'.rtias && h in w'.up && w'.rtias[h] == w.rtias[h] && w'.up[h] == w.up[h]
    requires Get(w'.rtig.regulators, h) == Get(w.rtig.regulators, h)
    ensures UpOk(w', h)
  {
  }

  lemma LinkFrame(w: World, w': World, i: Handle, j: Handle)
    requires j in w.rtias && j in w.down && LinkOk(w, i, j)
    requires j in w'.rtias && j in w'.down && w'.rtias[j].clocks == w.rtias[j].clocks && w'.down[j] == w.down[j]
    requires Get(w'.rtig.regulators, i) == Get(w.rtig.regulators, i)
    ensures LinkOk(w', i, j)
  {
  }

  lemma DownFrame(w: World, w': World, j: Handle)
    requires j in w.down && DownOk(w, j)
    requires j in w'.down && w'.down[j] == w.down[j]
    ensures DownOk(w', j)
  {
  }

  // ---- Local steps ----

  lemma MoveKeepsUp(w: World, h: Handle, o: Outcome)
    requires h in w.rtias && h in w.up && UpOk(w, h) && KeepsWord(w.rtias[h], o)
    ensures UpOk(Moved(w, h, o), h)
  {
    HonestConcat(Get(w.rtig.regulators, h), w.up[h], o.sent, h);
  }

  lemma MoveKeepsInvariant(w: World, h: Handle, o: Outcome)
    requires Invariant(w) && h in w.rtias && KeepsWord(w.rtias[h], o)
    ensures Invariant(Moved(w, h, o))
  {
    hide UpOk, LinkOk, DownOk;
    var w' := Moved(w, h, o);
    forall k | k in w'.rtias ensures UpOk(w', k) {
      if k == h { MoveKeepsUp(w, h, o); } else { UpFrame(w, w', k); }
    }
    forall i, j | j in w'.rtias ensures LinkOk(w', i, j) {
      LinkFrame(w, w', i, j);
    }
    forall j | j in w'.rtias ensures DownOk(w', j) {
      DownFrame(w, w', j);
    }
  }

  lemma LocalStepKeepsInvariant(w: World, e: Step)
    requires Invariant(w) && IsLocal(e) && Allowed(w, e)
    ensures Invariant(Next(w, e))
  {
    assert UpOk(w, e.h);
    LocalKeepsWord(w.rtias[e.h], e);
    MoveKeepsInvariant(w, e.h, Local(w.rtias[e.h], e));
  }

  // ---- An RTIA reads a message ----

  // A change of clocks that leaves the LBTS above the goal, or no lower than it was.
  lemma ClocksChange(s: Rtia, clocks: Clocks)
    requires Consistent(s)
    requires s.constrained ==> Min(s.Lbts(), Goal(s)).Le(Least(clocks, s.me))
    ensures Consistent(s.(clocks := clocks))
    ensures Horizon(s).Le(Horizon(s.(clocks := clocks)))
  {
  }

  lemma EventArrives(s: Rtia, event: Event)
    requires Consistent(s) && s.constrained && s.Lbts().Le(event.date)
    ensures Consistent(s.(tsos := Inserted(s.tsos, event)))
    ensures Horizon(s) == Horizon(s.(tsos := Inserted(s.tsos, event)))
  {
    InsertedSorted(s.tsos, event);
    InsertedMembers(s.tsos, event);
  }

  lemma ReceiveIsCovered(s: Rtia, m: Message)
    requires Consistent(s) && RegulatorInTime(s, m) && ToldTo(m, s.me)
    requires forall i :: Fits(Get(s.clocks, i), m, i)
    ensures Receive(s, m).Some?
    ensures var s' := Receive(s, m).value;
      Consistent(s') && s'.regulating == s.regulating && Horizon(s).Le(Horizon(s'))
  {
    match m
    case Null(src, date) =>
      assert Fits(Get(s.clocks, src), m, src);
      ClocksChange(s, s.clocks[src := Advanced(s.clocks[src], date)]);
    case RegulatorOn(src, date) =>
      assert Fits(Get(s.clocks, src), m, src);
      ClocksChange(s, s.clocks[src := date]);
    case RegulatorOff(src) =>
      assert Fits(Get(s.clocks, src), m, src);
      ClocksChange(s, s.clocks - {src});
    case Timed(event) =>
      assert Fits(Get(s.clocks, event.src), m, event.src);
      if s.constrained {
        EventArrives(s, event);
      }
    case _ =>
  }

  lemma ReceiveHears(s: Rtia, m: Message)
    requires Receive(s, m).Some? && (m.Null? ==> m.src != 0)
    requires forall i :: Fits(Get(s.clocks, i), m, i)
    ensures Receive(s, m).value.me == s.me
    ensures forall i :: Get(Receive(s, m).value.clocks, i) == Heard(Get(s.clocks, i), m, i)
  {
  }

  // What an RTIA may be about to read.
  ghost predicate Readable(w: World, h: Handle)
    requires h in w.rtias && h in w.down
  {
    && w.down[h] != []
    && Consistent(w.rtias[h]) && w.rtias[h].me == h
    && ToldTo(w.down[h][0], h)
    && forall i :: Fits(Get(w.rtias[h].clocks, i), w.down[h][0], i)
  }

  lemma StreamIsReadable(w: World, h: Handle)
    requires Invariant(w) && h in w.rtias && w.down[h] != []
    ensures Readable(w, h)
  {
    assert w.down[h][0] in w.down[h] && DownOk(w, h) && UpOk(w, h);
    forall i ensures Fits(Get(w.rtias[h].clocks, i), w.down[h][0], i) {
      assert LinkOk(w, i, h);
    }
  }

  lemma RtiaReadUp(w: World, h: Handle)
    requires h in w.rtias && h in w.up && h in w.down && UpOk(w, h) && Readable(w, h)
    requires RegulatorInTime(w.rtias[h], w.down[h][0])
    ensures Receive(w.rtias[h], w.down[h][0]).Some? && UpOk(RtiaRead(w, h), h)
  {
    hide Receive, Horizon, Consistent, ClockAfter, Honest, Heard, Fits;
    ReceiveIsCovered(w.rtias[h], w.down[h][0]);
    ReceiveHears(w.rtias[h], w.down[h][0]);
  }

  lemma RtiaReadLink(w: World, i: Handle, h: Handle)
    requires h in w.rtias && h in w.down && LinkOk(w, i, h) && Readable(w, h)
    requires Receive(w.rtias[h], w.down[h][0]).Some?
    ensures LinkOk(RtiaRead(w, h), i, h)
  {
    ReceiveHears(w.rtias[h], w.down[h][0]);
  }

  lemma RtiaReadDown(w: World, h: Handle)
    requires h in w.rtias && h in w.down && DownOk(w, h) && w.down[h] != []
    requires Receive(w.rtias[h], w.down[h][0]).Some?
    ensures DownOk(RtiaRead(w, h), h)
  {
  }

  lemma RtiaReadKeepsInvariant(w: World, h: Handle)
    requires Invariant(w) && h in w.rtias && w.down[h] != [] && RegulatorInTime(w.rtias[h], w.down[h][0])
    ensures Receive(w.rtias[h], w.down[h][0]).Some?
    ensures Invariant(RtiaRead(w, h))
  {
    hide UpOk, LinkOk, DownOk, Readable, Receive;
    StreamIsReadable(w, h);
    RtiaReadUp(w, h);
    var w' := RtiaRead(w, h);
    forall k | k in w'.rtias ensures UpOk(w', k) {
      if k != h { UpFrame(w, w', k); }
    }
    forall i, j | j in w'.rtias ensures LinkOk(w', i, j) {
      if j == h { RtiaReadLink(w, i, h); } else { LinkFrame(w, w', i, j); }
    }
    forall j | j in w'.rtias ensures DownOk(w', j) {
      if j == h { RtiaReadDown(w, h); } else { DownFrame(w, w', j); }
    }
  }

  // ---- The RTIG reads a message ----

  // What the RTIG passes on to `j` about a message `m` of federate `h`.
  predicate Forwards(f: seq<Message>, m: Message, h: Handle, j: Handle) {
    match m
    case Null(_, _) => f == if j == h then [] else [m]
    case RegulatorOn(_, date) => f == if j == h then [m, Command(RegulationEnabled(date))] else [m]
    case RegulatorOff(_) => f == [m]
    case Constraining(_, on) => f == [] || f == [Command(ConstrainedEnabled)]
    case _ => f == [] || (f == [m] && j != h)
  }

  ghost predicate Passes(r: Rtig, a: Answer, m: Message, h: Handle) {
    && a.rtig.members.Keys == r.members.Keys
    && FlagsOk(a.rtig)
    && (forall i ::
          Get(a.rtig.regulators, i) == if i == h then Heard(Get(r.regulators, h), m, h) else Get(r.regulators, i))
    && (forall j :: j in r.members ==> Forwards(For(a.responses, j), m, h, j))
  }

  lemma ForNone(j: Handle)
    ensures For([], j) == []
  {
  }

  lemma ForOne(r: Response, j: Handle)
    ensures For([r], j) == if j in r.to then [r.message] else []
  {
    assert [r][1..] == [];
  }

  lemma ForTwo(r: Response, q: Response, j: Handle)
    ensures For([r, q], j) == For([r], j) + For([q], j)
  {
    assert [r, q][1..] == [q];
    ForOne(r, j);
  }

  lemma UpdateForwards(r: Rtig, h: Handle, date: Time)
    requires FlagsOk(r) && h in r.members && h in r.regulators
    ensures UpdateRegulator(r, h, date).ok && Passes(r, UpdateRegulator(r, h, date), Null(h, date), h)
  {
    forall j { ForOne(Response(r.members.Keys - {h}, Null(h, date)), j); }
  }

  lemma OnForwards(r: Rtig, h: Handle, date: Time, j: Handle)
    requires j in r.members
    ensures Forwards(For([Response(r.members.Keys, RegulatorOn(h, date)),
                          Response({h}, Command(RegulationEnabled(date)))], j),
                     RegulatorOn(h, date), h, j)
  {
    hide For;
    var on, enabled := Response(r.members.Keys, RegulatorOn(h, date)), Response({h}, Command(RegulationEnabled(date)));
    ForTwo(on, enabled, j);
    ForOne(on, j);
    ForOne(enabled, j);
  }

  lemma AddKeepsFlagsToo(r: Rtig, h: Handle, date: Time)
    requires FlagsOk(r) && h in r.members && h !in r.regulators
    ensures AddRegulator(r, h, date).ok && FlagsOk(AddRegulator(r, h, date).rtig)
  {
  }

  lemma AddForwards(r: Rtig, h: Handle, date: Time)
    requires FlagsOk(r) && h in r.members && h !in r.regulators
    ensures AddRegulator(r, h, date).ok && Passes(r, AddRegulator(r, h, date), RegulatorOn(h, date), h)
  {
    AddKeepsFlagsToo(r, h, date);
    assert AddRegulator(r, h, date).responses
        == [Response(r.members.Keys, RegulatorOn(h, date)), Response({h}, Command(RegulationEnabled(date)))];
    hide For, Forwards, FlagsOk;
    forall j | j in r.members
      ensures Forwards(For(AddRegulator(r, h, date).responses, j), RegulatorOn(h, date), h, j)
    {
      OnForwards(r, h, date, j);
    }
  }

  lemma RemoveForwards(r: Rtig, h: Handle)
    requires FlagsOk(r) && h in r.members && h in r.regulators
    ensures RemoveRegulator(r, h).ok && Passes(r, RemoveRegulator(r, h), RegulatorOff(h), h)
  {
    forall j { ForOne(Response(r.members.Keys, RegulatorOff(h)), j); }
  }

  // The RTIG refuses no message that the clocks fit, and passes it on as described.
  lemma ProcessForwards(r: Rtig, m: Message, h: Handle, subscribers: set<Handle>)
    requires FlagsOk(r) && h in r.members && SpokenBy(m, h) && Fits(Get(r.regulators, h), m, h)
    ensures Process(r, m, subscribers).ok || m.Constraining?
    ensures Passes(r, Process(r, m, subscribers), m, h)
  {
    match m
    case Null(_, date) => UpdateForwards(r, h, date);
    case RegulatorOn(_, date) => AddForwards(r, h, date);
    case RegulatorOff(_) => RemoveForwards(r, h);
    case _ => OtherForwards(r, m, h, subscribers);
  }

  lemma OtherForwards(r: Rtig, m: Message, h: Handle, subscribers: set<Handle>)
    requires FlagsOk(r) && h in r.members && SpokenBy(m, h)
    requires m.Constraining? || m.Timed? || m.Plain?
    ensures Process(r, m, subscribers).ok || m.Constraining?
    ensures Passes(r, Process(r, m, subscribers), m, h)
  {
    var responses := Process(r, m, subscribers).responses;
    forall j | j in r.members ensures Forwards(For(responses, j), m, h, j) {
      hide For;
      if responses == [] { ForNone(j); } else { ForOne(responses[0], j); }
    }
  }

  lemma OneHeard(clock: Option<Time>, m: Message, src: Handle)
    ensures ClockAfter(clock, [m], src) == Heard(clock, m, src)
    ensures Honest(clock, [m], src) <==> Fits(clock, m, src)
  {
    assert [m][1..] == [];
  }

  // The link to j follows what the RTIG forwards about `h`; `reg` is the RTIG's own clock for h.
  lemma ForwardKeepsLink(clock: Option<Time>, stream: seq<Message>, f: seq<Message>, m: Message, h: Handle, j: Handle,
                         reg: Option<Time>)
    requires Honest(clock, stream, h) && SpokenBy(m, h) && Fits(reg, m, h) && Forwards(f, m, h, j)
    requires ClockAfter(clock, stream, h).Some? == reg.Some?
    requires h != j ==> ClockAfter(clock, stream, h) == reg
    ensures Honest(clock, stream + f, h)
    ensures ClockAfter(clock, stream + f, h).Some? == Heard(reg, m, h).Some?
    ensures h != j ==> ClockAfter(clock, stream + f, h) == Heard(reg, m, h)
  {
    var c := ClockAfter(clock, stream, h);
    HonestConcat(clock, stream, f, h);
    if f != [] {
      OneHeard(c, f[0], h);
      if |f| == 1 {
        assert f == [f[0]];
      } else {
        assert f == [f[0]] + [f[1]];
        HonestConcat(c, [f[0]], [f[1]], h);
        OneHeard(Heard(c, f[0], h), f[1], h);
      }
    }
  }

  // Nothing forwarded from h mentions another federate.
  lemma ForwardIsSilent(clock: Option<Time>, stream: seq<Message>, f: seq<Message>, m: Message, h: Handle, j: Handle,
                        i: Handle)
    requires i != h && SpokenBy(m, h) && Forwards(f, m, h, j)
    ensures ClockAfter(clock, stream + f, i) == ClockAfter(clock, stream, i)
    ensures Honest(clock, stream + f, i) <==> Honest(clock, stream, i)
  {
    HonestConcat(clock, stream, f, i);
    HonestSilence(ClockAfter(clock, stream, i), f, i);
  }

  lemma RtigReadKeepsInvariant(w: World, h: Handle, subscribers: set<Handle>)
    requires Invariant(w) && h in w.rtias && w.up[h] != []
    ensures Invariant(RtigRead(w, h, subscribers))
  {
    hide UpOk, LinkOk, DownOk, Process, For, RtigRead, Forwards, Heard, Fits, SpokenBy;
    var m := w.up[h][0];
    UpHead(w, h);
    ProcessForwards(w.rtig, m, h, subscribers);
    var w' := RtigRead(w, h, subscribers);
    var f := (j: Handle) => For(Process(w.rtig, m, subscribers).responses, j);
    RtigReadShape(w, h, subscribers);
    forall k | k in w'.rtias ensures UpOk(w', k) {
      if k == h { RtigReadUp(w, w', h, m); } else { UpFrame(w, w', k); }
    }
    forall j | j in w'.rtias ensures DownOk(w', j) {
      RtigReadDown(w, w', h, m, j, f(j));
    }
    forall i, j | j in w'.rtias ensures LinkOk(w', i, j) {
      RtigReadLink(w, w', h, m, i, j, f(j));
    }
  }

  lemma RtigReadShape(w: World, h: Handle, subscribers: set<Handle>)
    requires h in w.up && w.up[h] != []
    ensures var w', a := RtigRead(w, h, subscribers), Process(w.rtig, w.up[h][0], subscribers);
      && w'.rtig == a.rtig && w'.rtias == w.rtias && w'.up == w.up[h := w.up[h][1..]]
      && w'.down.Keys == w.down.Keys
      && (forall j :: j in w.down ==> w'.down[j] == w.down[j] + For(a.responses, j))
  {
  }

  lemma UpHead(w: World, h: Handle)
    requires h in w.rtias && h in w.up && UpOk(w, h) && w.up[h] != []
    ensures h != 0 && SpokenBy(w.up[h][0], h) && Fits(Get(w.rtig.regulators, h), w.up[h][0], h)
  {
    assert w.up[h][0] in w.up[h];
  }

  lemma RtigReadUp(w: World, w': World, h: Handle, m: Message)
    requires h in w.rtias && h in w.up && UpOk(w, h) && w.up[h] != [] && m == w.up[h][0]
    requires h in w'.rtias && h in w'.up && w'.rtias[h] == w.rtias[h] && w'.up[h] == w.up[h][1..]
    requires Get(w'.rtig.regulators, h) == Heard(Get(w.rtig.regulators, h), m, h)
    ensures UpOk(w', h)
  {
  }

  lemma RtigReadDown(w: World, w': World, h: Handle, m: Message, j: Handle, f: seq<Message>)
    requires j in w.down && DownOk(w, j) && j in w'.down && w'.down[j] == w.down[j] + f
    requires SpokenBy(m, h) && h != 0 && Forwards(f, m, h, j)
    ensures DownOk(w', j)
  {
  }

  lemma RtigReadLink(w: World, w': World, h: Handle, m: Message, i: Handle, j: Handle, f: seq<Message>)
    requires j in w.rtias && j in w.down && LinkOk(w, i, j)
    requires j in w'.rtias && j in w'.down && w'.rtias[j] == w.rtias[j] && w'.down[j] == w.down[j] + f
    requires SpokenBy(m, h) && Fits(Get(w.rtig.regulators, h), m, h) && Forwards(f, m, h, j)
    requires Get(w'.rtig.regulators, i)
          == if i == h then Heard(Get(w.rtig.regulators, h), m, h) else Get(w.rtig.regulators, i)
    ensures LinkOk(w', i, j)
  {
    if i == h {
      ForwardKeepsLink(Get(w.rtias[j].clocks, i), w.down[j], f, m, h, j, Get(w.rtig.regulators, h));
    } else {
      ForwardIsSilent(Get(w.rtias[j].clocks, i), w.down[j], f, m, h, j, i);
    }
  }

  // ---- The other steps ----

  lemma TellLink(w: World, i: Handle, h: Handle, m: Message)
    requires h in w.rtias && h in w.down && LinkOk(w, i, h)
    requires m.Plain? || m.InitiateSave? || m.SaveEnded? || m.Command?
    ensures LinkOk(Told(w, h, m), i, h)
  {
    var clock := Get(w.rtias[h].clocks, i);
    HonestConcat(clock, w.down[h], [m], i);
    HonestSilence(ClockAfter(clock, w.down[h], i), [m], i);
  }

  lemma TellKeepsInvariant(w: World, h: Handle, m: Message)
    requires Invariant(w) && h in w.rtias && (m.Plain? || m.InitiateSave? || m.SaveEnded? || m.Command?)
    ensures Invariant(Told(w, h, m))
  {
    hide UpOk, LinkOk;
    var w' := Told(w, h, m);
    forall k | k in w'.rtias ensures UpOk(w', k) {
      UpFrame(w, w', k);
    }
    forall i, j | j in w'.rtias ensures LinkOk(w', i, j) {
      if j == h { TellLink(w, i, h, m); } else { LinkFrame(w, w', i, j); }
    }
    forall j | j in w'.rtias ensures DownOk(w', j) {
      assert DownOk(w, j);
    }
  }

  lemma JoinUpAndLinks(w: World, h: Handle)
    requires h != 0 && h !in w.rtig.members && FlagsOk(w.rtig)
    ensures var w' := Joined(w, h); UpOk(w', h) && DownOk(w', h) && forall i :: LinkOk(w', i, h)
  {
  }

  lemma JoinShape(w: World, h: Handle)
    requires h !in w.rtig.members
    ensures var w' := Joined(w, h);
      && w'.rtias.Keys == w.rtias.Keys + {h} && w'.up.Keys == w.up.Keys + {h} && w'.down.Keys == w.down.Keys + {h}
      && (forall k :: k in w.rtias && k != h ==> w'.rtias[k] == w.rtias[k])
      && (forall k :: k in w.up && k != h ==> w'.up[k] == w.up[k])
      && (forall k :: k in w.down && k != h ==> w'.down[k] == w.down[k])
      && w'.rtig.regulators == w.rtig.regulators
      && w'.rtig.members.Keys == w.rtig.members.Keys + {h}
  {
  }

  lemma AddKeepsFlags(r: Rtig, h: Handle)
    requires FlagsOk(r) && h !in r.members
    ensures FlagsOk(Add(r, h).rtig)
  {
  }

  lemma JoinKeepsInvariant(w: World, h: Handle)
    requires Invariant(w) && h != 0 && h !in w.rtig.members
    ensures Invariant(Joined(w, h))
  {
    AddKeepsFlags(w.rtig, h);
    assert Joined(w, h).rtig == Add(w.rtig, h).rtig;
    hide UpOk, LinkOk, DownOk, Initial, Joined, FlagsOk;
    var w' := Joined(w, h);
    JoinShape(w, h);
    JoinUpAndLinks(w, h);
    forall k | k in w'.rtias ensures UpOk(w', k) {
      if k != h { UpFrame(w, w', k); }
    }
    forall i, j | j in w'.rtias ensures LinkOk(w', i, j) {
      if j != h { LinkFrame(w, w', i, j); }
    }
    forall j | j in w'.rtias ensures DownOk(w', j) {
      if j != h { DownFrame(w, w', j); }
    }
  }

  lemma InvariantKeys(w: World)
    requires Invariant(w)
    ensures w.rtias.Keys == w.up.Keys == w.down.Keys == w.rtig.members.Keys
  {
  }

  lemma StepKeepsInvariant(w: World, e: Step)
    requires Invariant(w) && Allowed(w, e)
    ensures Invariant(Next(w, e))
  {
    hide Invariant, Process, Receive, Add;
    InvariantKeys(w);
    match e
    case RtigReads(h, subscribers) => assert h in w.rtias; RtigReadKeepsInvariant(w, h, subscribers);
    case RtiaReads(h) => RtiaReadKeepsInvariant(w, h);
    case RtigTells(h, m) => TellKeepsInvariant(w, h, m);
    case Join(h) => JoinKeepsInvariant(w, h);
    case _ => LocalStepKeepsInvariant(w, e);
  }

  lemma {:induction false} RunKeepsInvariant(w: World, steps: seq<Step>)
    requires Invariant(w) && IsRun(w, steps)
    ensures Invariant(After(w, steps))
    decreases |steps|
  {
    if steps != [] {
      StepKeepsInvariant(w, steps[0]);
      RunKeepsInvariant(Next(w, steps[0]), steps[1..]);
    }
  }

  lemma ReachableInvariant(w: World)
    requires Reachable(w)
    ensures Invariant(w)
  {
    var steps :| IsRun(EMPTY, steps) && After(EMPTY, steps) == w;
    RunKeepsInvariant(EMPTY, steps);
  }
}
