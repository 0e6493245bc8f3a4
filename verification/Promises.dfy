/** Everything a federate ever sends, in every run, keeps the promises it made before. */
module Promises {
  import opened FederationTime
  import opened Messages
  import opened TimeState
  import opened RtigState
  import opened World
  import opened CausalSafety
  import opened WorldInvariant
  import opened Guarantees
  import opened TimeLaws

  // All that federate `h` hands to its stream during the run, oldest first.
  ghost function SentUp(w: World, steps: seq<Step>, h: Handle): seq<Message>
    requires IsRun(w, steps)
    decreases |steps|
  {
    if steps == [] then [] else
      (if IsLocal(steps[0]) && steps[0].h == h then Local(w.rtias[h], steps[0]).sent else [])
      + SentUp(Next(w, steps[0]), steps[1..], h)
  }

  // What `h` last promised: the RTIG's clock for it, moved on by what is still in flight.
  ghost function Promise(w: World, h: Handle): Option<Time> {
    ClockAfter(Get(w.rtig.regulators, h), if h in w.up then w.up[h] else [], h)
  }

  lemma RtigReadKeepsPromise(w: World, k: Handle, subscribers: set<Handle>, h: Handle)
    requires Invariant(w) && k in w.rtias && w.up[k] != []
    ensures Promise(RtigRead(w, k, subscribers), h) == Promise(w, h)
  {
    hide UpOk, LinkOk, DownOk, Process, For, RtigRead, Forwards, Heard, Fits, SpokenBy, FlagsOk;
    UpHead(w, k);
    ProcessForwards(w.rtig, w.up[k][0], k, subscribers);
    RtigReadShape(w, k, subscribers);
  }

  lemma LocalMovesPromise(w: World, e: Step, h: Handle)
    requires Invariant(w) && Allowed(w, e) && IsLocal(e)
    ensures var sent := if e.h == h then Local(w.rtias[h], e).sent else [];
      && Promise(Next(w, e), h) == ClockAfter(Promise(w, h), sent, h)
      && Honest(Promise(w, h), sent, h)
  {
    LocalMoves(w, e);
    UpFacts(w, e.h);
    var s := w.rtias[e.h];
    assert Disciplined(s, e) && e.h in w.up;
    hide *;
    LocalKeepsWord(s, e);
    WordIsKept(s, Local(s, e), Promise(w, e.h));
    PromiseMoves(w, Next(w, e), e.h, Local(s, e).sent, h);
  }

  lemma WordIsKept(s: Rtia, o: Outcome, promise: Option<Time>)
    requires KeepsWord(s, o) && Covers(promise, s)
    ensures Honest(promise, o.sent, s.me)
  {
  }

  lemma PromiseMoves(w: World, w': World, k: Handle, sent: seq<Message>, h: Handle)
    requires k in w.up && w'.rtig == w.rtig && w'.up == w.up[k := w.up[k] + sent]
    ensures Promise(w', h) == ClockAfter(Promise(w, h), if k == h then sent else [], h)
    ensures Honest(Promise(w, h), [], h)
  {
    HonestConcat(Get(w.rtig.regulators, k), w.up[k], sent, k);
  }

  lemma LocalMoves(w: World, e: Step)
    requires Allowed(w, e) && IsLocal(e)
    ensures var w' := Next(w, e);
      && w'.rtig == w.rtig && w'.up == w.up[e.h := w.up[e.h] + Local(w.rtias[e.h], e).sent]
  {
    hide Local, Disciplined;
  }

  lemma UpFacts(w: World, h: Handle)
    requires Invariant(w) && h in w.rtias
    ensures h in w.up && w.rtias[h].me == h && Consistent(w.rtias[h])
    ensures Covers(Promise(w, h), w.rtias[h])
  {
    assert UpOk(w, h);
    hide LinkOk, DownOk, Consistent, Covers;
  }

  lemma OtherStepsKeepPromise(w: World, e: Step, h: Handle)
    requires Invariant(w) && Allowed(w, e) && !IsLocal(e)
    ensures Promise(Next(w, e), h) == Promise(w, h)
  {
    hide Invariant, Receive, Process, Initial;
    InvariantKeys(w);
    if e.RtigReads? {
      RtigReadKeepsPromise(w, e.h, e.subscribers, h);
    } else if e.Join? {
      JoinShape(w, e.h);
    }
  }

  lemma {:induction false} RunIsHonest(w: World, steps: seq<Step>, h: Handle)
    requires Invariant(w) && IsRun(w, steps)
    ensures Honest(Promise(w, h), SentUp(w, steps, h), h)
    decreases |steps|
  {
    hide Invariant, Promise, Next, Local;
    if steps != [] {
      StepKeepsInvariant(w, steps[0]);
      RunIsHonest(Next(w, steps[0]), steps[1..], h);
      if IsLocal(steps[0]) {
        LocalMovesPromise(w, steps[0], h);
        var sent := if steps[0].h == h then Local(w.rtias[h], steps[0]).sent else [];
        HonestConcat(Promise(w, h), sent, SentUp(Next(w, steps[0]), steps[1..], h), h);
      } else {
        OtherStepsKeepPromise(w, steps[0], h);
        assert SentUp(w, steps, h) == SentUp(Next(w, steps[0]), steps[1..], h);
      }
    }
  }

  // The date of the last null message of `h`.
  function LastNull(w: World, h: Handle): Time {
    if h in w.rtias then w.rtias[h].lastNull else ZERO
  }

  lemma LocalMovesLastNull(w: World, e: Step)
    requires Allowed(w, e) && IsLocal(e)
    ensures e.h in w.rtias && LastNull(w, e.h) == w.rtias[e.h].lastNull
    ensures RemembersNull(w.rtias[e.h], Local(w.rtias[e.h], e))
    ensures LastNull(Next(w, e), e.h) == Local(w.rtias[e.h], e).rtia.lastNull
  {
    hide Local, RemembersNull;
    ActRemembersNull(w.rtias[e.h], Does(e));
  }

  lemma OthersKeepLastNull(w: World, e: Step, h: Handle)
    requires Allowed(w, e) && !(IsLocal(e) && e.h == h)
    ensures LastNull(Next(w, e), h) == LastNull(w, h)
  {
    hide Process, Local, Tick;
  }

  lemma AscendOnward(last: Time, sent: seq<Message>, rest: seq<Message>)
    requires |sent| <= 1
    requires NullsAscend(if sent != [] && sent[0].Null? then sent[0].date else last, rest)
    requires sent != [] && sent[0].Null? ==> last.Lt(sent[0].date)
    ensures NullsAscend(last, sent + rest)
  {
    if sent == [] {
      assert sent + rest == rest;
    } else {
      assert (sent + rest)[1..] == rest;
    }
  }

  lemma {:induction false} RunNullsAscend(w: World, steps: seq<Step>, h: Handle)
    requires IsRun(w, steps)
    ensures NullsAscend(LastNull(w, h), SentUp(w, steps, h))
    decreases |steps|
  {
    hide Next, Local, NullsAscend, LastNull, Allowed;
    if steps == [] {
      NothingAscends(LastNull(w, h));
    } else {
      RunNullsAscend(Next(w, steps[0]), steps[1..], h);
      var rest := SentUp(Next(w, steps[0]), steps[1..], h);
      if IsLocal(steps[0]) && steps[0].h == h {
        LocalMovesLastNull(w, steps[0]);
        AscendOnward(LastNull(w, h), Local(w.rtias[h], steps[0]).sent, rest);
      } else {
        OthersKeepLastNull(w, steps[0], h);
        assert SentUp(w, steps, h) == rest;
      }
    }
  }

  lemma NothingAscends(last: Time)
    ensures NullsAscend(last, [])
  {
  }

  // In every run: the dates of a federate's null messages strictly increase, each of its events is dated no
  // earlier than its regulation date and every null message it sent before, and null messages and events
  // come only between RegulatorOn and RegulatorOff.
  lemma PromisesAreHonest(steps: seq<Step>, h: Handle)
    requires IsRun(EMPTY, steps)
    ensures Honest(None, SentUp(EMPTY, steps, h), h)
    ensures NullsAscend(ZERO, SentUp(EMPTY, steps, h))
  {
    RunIsHonest(EMPTY, steps, h);
    RunNullsAscend(EMPTY, steps, h);
  }

  lemma HonestStretch(sent: seq<Message>, h: Handle, a: nat, b: nat)
    requires Honest(None, sent, h)
    requires a < b < |sent| && (sent[a].Null? || sent[a].RegulatorOn?) && sent[a].src == h
    requires sent[b].Timed? && sent[b].event.src == h && RegulatorOff(h) !in sent[a..b]
    ensures sent[a].date.Le(sent[b].event.date)
  {
    hide Heard, Fits, ClockAfter, Honest;
    var before, later, after := sent[..a], sent[a + 1..b + 1], sent[b + 1..];
    var clock := ClockAfter(None, before, h);
    assert sent == before + ([sent[a]] + (later + after));
    HonestConcat(None, before, [sent[a]] + (later + after), h);
    HonestConcat(clock, [sent[a]], later + after, h);
    OneHeard(clock, sent[a], h);
    HonestConcat(Heard(clock, sent[a], h), later, after, h);
    PromiseSetsClock(clock, sent[a], h);
    forall i | 0 <= i < |later| ensures later[i] != RegulatorOff(h) {
      assert i < |later| - 1 ==> sent[a..b][i + 1] == later[i];
    }
    ClockBoundsStream(Heard(clock, sent[a], h), later, h, sent[a].date);
    assert later[b - a - 1] == sent[b] && sent[b] in later;
  }

  lemma PromiseSetsClock(clock: Option<Time>, m: Message, h: Handle)
    requires Fits(clock, m, h) && (m.Null? || m.RegulatorOn?) && m.src == h
    ensures Heard(clock, m, h).Some? && m.date.Le(Heard(clock, m, h).value)
  {
  }

  // Spelled out for one promise and one later event of the same stretch of regulation.
  lemma EventKeepsEarlierPromise(steps: seq<Step>, h: Handle, a: nat, b: nat)
    requires IsRun(EMPTY, steps)
    requires var sent := SentUp(EMPTY, steps, h);
      && a < b < |sent| && (sent[a].Null? || sent[a].RegulatorOn?) && sent[a].src == h
      && sent[b].Timed? && sent[b].event.src == h && RegulatorOff(h) !in sent[a..b]
    ensures var sent := SentUp(EMPTY, steps, h); sent[a].date.Le(sent[b].event.date)
  {
    PromisesAreHonest(steps, h);
    HonestStretch(SentUp(EMPTY, steps, h), h, a, b);
  }
}
