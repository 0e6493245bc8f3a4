/** The clocks of an RTIA are a delayed copy of the RTIG's.

    Each position in the stream to an RTIA stands for a moment of the RTIG's past: the clocks the
    RTIA will hold once it has read that far are, its own entry aside, those the RTIG held then.
 */
module Replication {
  import opened FederationTime
  import opened Lbts
  import opened Messages
  import opened TimeState
  import opened RtigState
  import opened World
  import opened CausalSafety
  import opened WorldInvariant

  // Once j has read `m` messages of its stream it will agree with `regulators`.
  ghost predicate AgreesAt(w: World, j: Handle, m: nat, regulators: Clocks)
    requires j in w.rtias && j in w.down && m <= |w.down[j]|
  {
    forall i :: i != j ==> ClockAfter(Get(w.rtias[j].clocks, i), w.down[j][..m], i) == Get(regulators, i)
  }

  // `moments[m]` is the moment of `history` that j will have caught up with after `m` messages.
  ghost predicate Tracks(w: World, j: Handle, history: seq<Clocks>, moments: seq<nat>)
    requires j in w.rtias && j in w.down
  {
    && |moments| == |w.down[j]| + 1
    && (forall a, b :: 0 <= a <= b < |moments| ==> moments[a] <= moments[b] < |history|)
    && (forall m :: 0 <= m < |moments| ==> AgreesAt(w, j, m, history[moments[m]]))
  }

  // The RTIG's clocks at the start of the run and after each of its steps.
  ghost function History(w: World, steps: seq<Step>): (history: seq<Clocks>)
    requires IsRun(w, steps)
    ensures |history| == |steps| + 1
    decreases |steps|
  {
    [w.rtig.regulators] + if steps == [] then [] else History(Next(w, steps[0]), steps[1..])
  }

  lemma TracksFrame(w: World, w': World, j: Handle, history: seq<Clocks>, moments: seq<nat>, last: Clocks)
    requires j in w.rtias && j in w.down && Tracks(w, j, history, moments)
    requires j in w'.rtias && j in w'.down && w'.rtias[j].clocks == w.rtias[j].clocks && w'.down[j] == w.down[j]
    ensures Tracks(w', j, history + [last], moments)
  {
    forall m | 0 <= m < |moments| ensures AgreesAt(w', j, m, (history + [last])[moments[m]]) {
      assert AgreesAt(w, j, m, history[moments[m]]);
    }
  }

  // Reading a message moves every position one moment on.
  lemma TracksRead(w: World, j: Handle, history: seq<Clocks>, moments: seq<nat>, last: Clocks)
    requires j in w.rtias && j in w.down && w.down[j] != [] && Tracks(w, j, history, moments)
    requires Receive(w.rtias[j], w.down[j][0]).Some? && (w.down[j][0].Null? ==> w.down[j][0].src != 0)
    requires forall i :: Fits(Get(w.rtias[j].clocks, i), w.down[j][0], i)
    ensures moments != [] && Tracks(RtiaRead(w, j), j, history + [last], moments[1..])
  {
    var w' := RtiaRead(w, j);
    var stream := w.down[j];
    ReceiveHears(w.rtias[j], stream[0]);
    forall m | 0 <= m < |moments[1..]| ensures AgreesAt(w', j, m, (history + [last])[moments[1..][m]]) {
      assert AgreesAt(w, j, m + 1, history[moments[m + 1]]);
      assert stream[..m + 1][0] == stream[0] && stream[..m + 1][1..] == stream[1..][..m];
    }
  }

  // Messages appended while the RTIG moves to `last` are positions of that moment.
  lemma TracksAppend(w: World, w': World, j: Handle, history: seq<Clocks>, moments: seq<nat>, f: seq<Message>,
                     last: Clocks)
    requires j in w.rtias && j in w.down && Tracks(w, j, history, moments)
    requires j in w'.rtias && j in w'.down && w'.rtias[j].clocks == w.rtias[j].clocks && w'.down[j] == w.down[j] + f
    requires forall i :: LinkOk(w, i, j)
    requires forall t, i :: 1 <= t <= |f| && i != j ==> ClockAfter(Get(w.rtig.regulators, i), f[..t], i) == Get(last, i)
    ensures Tracks(w', j, history + [last], moments + seq(|f|, _ => |history|))
  {
    var stream, all := w.down[j], moments + seq(|f|, _ => |history|);
    forall m | 0 <= m < |all| ensures AgreesAt(w', j, m, (history + [last])[all[m]]) {
      if m <= |stream| {
        assert (stream + f)[..m] == stream[..m];
        assert AgreesAt(w, j, m, history[moments[m]]);
      } else {
        var t := m - |stream|;
        assert (stream + f)[..m] == stream + f[..t];
        forall i | i != j
          ensures ClockAfter(Get(w'.rtias[j].clocks, i), w'.down[j][..m], i) == Get(last, i)
        {
          assert LinkOk(w, i, j);
          HonestConcat(Get(w.rtias[j].clocks, i), stream, f[..t], i);
        }
      }
    }
  }

  // What the RTIG forwards brings a reader from its clocks before to its clocks after.
  lemma ForwardReaches(before: Option<Time>, f: seq<Message>, m: Message, h: Handle, j: Handle, t: nat, i: Handle)
    requires SpokenBy(m, h) && Forwards(f, m, h, j) && 1 <= t <= |f| && i != j
    ensures ClockAfter(before, f[..t], i) == if i == h then Heard(before, m, h) else before
  {
    if t == 1 {
      assert f[..1] == [f[0]];
      OneHeard(before, f[0], i);
    } else {
      assert f[..2] == [f[0]] + [f[1]];
      HonestConcat(before, [f[0]], [f[1]], i);
      OneHeard(before, f[0], i);
      OneHeard(Heard(before, f[0], i), f[1], i);
    }
  }

  ghost predicate Tracked(w: World, j: Handle, history: seq<Clocks>)
    requires j in w.rtias && j in w.down
  {
    exists moments :: Tracks(w, j, history, moments)
  }

  lemma RtigReadTracks(w: World, h: Handle, subscribers: set<Handle>, j: Handle, history: seq<Clocks>)
    requires Invariant(w) && h in w.rtias && w.up[h] != [] && j in w.rtias && Tracked(w, j, history)
    ensures var w' := RtigRead(w, h, subscribers);
      j in w'.rtias && j in w'.down && Tracked(w', j, history + [w'.rtig.regulators])
  {
    hide Tracks, LinkOk, UpOk, DownOk, Process, For, RtigRead, Forwards, FlagsOk;
    var w', m := RtigRead(w, h, subscribers), w.up[h][0];
    var f := For(Process(w.rtig, m, subscribers).responses, j);
    UpHead(w, h);
    ProcessForwards(w.rtig, m, h, subscribers);
    RtigReadShape(w, h, subscribers);
    var moments :| Tracks(w, j, history, moments);
    forall t, i | 1 <= t <= |f| && i != j
      ensures ClockAfter(Get(w.rtig.regulators, i), f[..t], i) == Get(w'.rtig.regulators, i)
    {
      ForwardReaches(Get(w.rtig.regulators, i), f, m, h, j, t, i);
    }
    TracksAppend(w, w', j, history, moments, f, w'.rtig.regulators);
  }

  lemma TellTracks(w: World, j: Handle, m: Message, history: seq<Clocks>)
    requires Invariant(w) && j in w.rtias && Tracked(w, j, history)
    requires m.Plain? || m.InitiateSave? || m.SaveEnded? || m.Command?
    ensures Tracked(Told(w, j, m), j, history + [w.rtig.regulators])
  {
    assert forall i :: LinkOk(w, i, j);
    hide Tracks, UpOk, LinkOk, DownOk, FlagsOk;
    var moments :| Tracks(w, j, history, moments);
    hide Invariant;
    forall t, i | 1 <= t <= 1 && i != j
      ensures ClockAfter(Get(w.rtig.regulators, i), [m][..t], i) == Get(w.rtig.regulators, i)
    {
      OneHeard(Get(w.rtig.regulators, i), m, i);
      assert [m][..t] == [m];
    }
    TracksAppend(w, Told(w, j, m), j, history, moments, [m], w.rtig.regulators);
  }

  lemma JoinTracks(w: World, h: Handle, history: seq<Clocks>)
    requires h !in w.rtig.members
    ensures Tracked(Joined(w, h), h, history + [w.rtig.regulators])
  {
    assert Tracks(Joined(w, h), h, history + [w.rtig.regulators], [|history|]);
  }

  lemma FrameTracks(w: World, w': World, j: Handle, history: seq<Clocks>, last: Clocks)
    requires j in w.rtias && j in w.down && Tracked(w, j, history)
    requires j in w'.rtias && j in w'.down && w'.rtias[j].clocks == w.rtias[j].clocks && w'.down[j] == w.down[j]
    ensures Tracked(w', j, history + [last])
  {
    hide Tracks;
    var moments :| Tracks(w, j, history, moments);
    TracksFrame(w, w', j, history, moments, last);
  }

  lemma RtiaReadTracks(w: World, j: Handle, history: seq<Clocks>)
    requires Invariant(w) && j in w.rtias && w.down[j] != [] && RegulatorInTime(w.rtias[j], w.down[j][0])
    requires Tracked(w, j, history)
    ensures var w' := RtiaRead(w, j);
      j in w'.rtias && j in w'.down && Tracked(w', j, history + [w.rtig.regulators])
  {
    hide Tracks, Receive, RtiaRead, UpOk, LinkOk, DownOk, FlagsOk;
    StreamIsReadable(w, j);
    RtiaReadKeepsInvariant(w, j);
    RtiaReadShape(w, j);
    var moments :| Tracks(w, j, history, moments);
    TracksRead(w, j, history, moments, w.rtig.regulators);
  }

  lemma LocalKeepsClocks(w: World, e: Step)
    requires Invariant(w) && Allowed(w, e) && IsLocal(e)
    ensures Local(w.rtias[e.h], e).rtia.clocks == w.rtias[e.h].clocks
  {
    assert UpOk(w, e.h);
    LocalKeepsWord(w.rtias[e.h], e);
  }

  lemma StepTracks(w: World, e: Step, j: Handle, history: seq<Clocks>)
    requires Invariant(w) && Allowed(w, e) && j in Next(w, e).rtias && j in Next(w, e).down
    requires j in w.rtias ==> Tracked(w, j, history)
    ensures Tracked(Next(w, e), j, history + [Next(w, e).rtig.regulators])
  {
    hide Invariant, Tracked, Local, Process, Receive, Initial, Add, RtigRead, RtiaRead;
    InvariantKeys(w);
    var w' := Next(w, e);
    if e.RtigReads? {
      RtigReadShape(w, e.h, e.subscribers);
      RtigReadTracks(w, e.h, e.subscribers, j, history);
    } else if e.RtiaReads? {
      RtiaReadShape(w, e.h);
      if e.h == j { RtiaReadTracks(w, j, history); } else { FrameTracks(w, w', j, history, w'.rtig.regulators); }
    } else if e.RtigTells? {
      if e.h == j { TellTracks(w, j, e.message, history); } else { FrameTracks(w, w', j, history, w'.rtig.regulators); }
    } else if e.Join? {
      JoinShape(w, e.h);
      if e.h == j { JoinTracks(w, j, history); } else { FrameTracks(w, w', j, history, w'.rtig.regulators); }
    } else {
      LocalKeepsClocks(w, e);
      FrameTracks(w, w', j, history, w'.rtig.regulators);
    }
  }

  lemma RtiaReadShape(w: World, h: Handle)
    requires h in w.rtias && h in w.down && w.down[h] != []
    ensures var w' := RtiaRead(w, h);
      && w'.rtig == w.rtig && w'.up == w.up && w'.rtias.Keys == w.rtias.Keys && w'.down.Keys == w.down.Keys
      && (forall k :: k in w.rtias && k != h ==> w'.rtias[k] == w.rtias[k])
      && (forall k :: k in w.down && k != h ==> w'.down[k] == w.down[k])
  {
  }

  ghost predicate AllTracked(w: World, history: seq<Clocks>) {
    w.rtias.Keys == w.down.Keys && forall j :: j in w.rtias ==> Tracked(w, j, history)
  }

  lemma StepTracksAll(w: World, e: Step, past: seq<Clocks>)
    requires Invariant(w) && Allowed(w, e) && AllTracked(w, past)
    ensures AllTracked(Next(w, e), past + [Next(w, e).rtig.regulators])
  {
    StepKeepsInvariant(w, e);
    InvariantKeys(w);
    InvariantKeys(Next(w, e));
    hide Invariant, Tracked, Next, Allowed;
    forall j | j in Next(w, e).rtias ensures Tracked(Next(w, e), j, past + [Next(w, e).rtig.regulators]) {
      StepTracks(w, e, j, past);
    }
  }

  lemma {:induction false} RunTracks(w: World, steps: seq<Step>, past: seq<Clocks>)
    requires Invariant(w) && IsRun(w, steps) && AllTracked(w, past + [w.rtig.regulators])
    ensures AllTracked(After(w, steps), past + History(w, steps))
    decreases |steps|
  {
    hide Invariant, AllTracked, Next, Allowed;
    if steps == [] {
      assert History(w, steps) == [w.rtig.regulators];
    } else {
      var w1, past1 := Next(w, steps[0]), past + [w.rtig.regulators];
      StepKeepsInvariant(w, steps[0]);
      StepTracksAll(w, steps[0], past1);
      RunTracks(w1, steps[1..], past1);
      assert past1 + History(w1, steps[1..]) == past + History(w, steps);
    }
  }

  // In every run each RTIA's clocks, its own aside, are those of the RTIG at some earlier point,
  // and what waits in its stream leads through later and later points of the RTIG's run.
  lemma ClocksAreADelayedCopy(steps: seq<Step>)
    requires IsRun(EMPTY, steps)
    ensures AllTracked(After(EMPTY, steps), History(EMPTY, steps))
  {
    RunTracks(EMPTY, steps, []);
    assert [] + History(EMPTY, steps) == History(EMPTY, steps);
  }

  // With nothing left to read, they are the RTIG's present clocks.
  lemma DrainedClocksAreCurrent(w: World, i: Handle, j: Handle)
    requires Reachable(w) && j in w.rtias && j in w.down && w.down[j] == [] && i != j
    ensures Get(w.rtias[j].clocks, i) == Get(w.rtig.regulators, i)
  {
    ReachableInvariant(w);
    assert LinkOk(w, i, j);
  }
}
