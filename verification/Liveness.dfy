/** Whenever all wait, one federate has promised least, its round of null messages can be completed, and after
    finitely many rounds some federate is told something.
 */
module Liveness {
  import opened FederationTime
  import opened Lbts
  import opened Messages
  import Queues
  import opened TimeState
  import opened RtigState
  import opened World
  import opened WorldInvariant
  import opened Guarantees
  import opened Promises
  import opened TimeLaws
  import opened Progress

  // ---- Someone promised least ----

  lemma WaitingPromises(w: World, h: Handle)
    requires Invariant(w) && AllWaiting(w) && h in w.rtias
    ensures Promise(w, h).Some?
  {
    PromiseCovers(w, h);
  }

  lemma {:induction false} LeastPromiser(w: World, who: set<Handle>) returns (i: Handle)
    requires who != {} && forall h :: h in who ==> Promise(w, h).Some?
    ensures i in who && forall h :: h in who ==> Promise(w, i).value.Le(Promise(w, h).value)
    decreases |who|
  {
    hide Promise;
    i :| i in who;
    if who != {i} {
      assert who - {i} != {};
      var k := LeastPromiser(w, who - {i});
      if !Promise(w, i).value.Le(Promise(w, k).value) {
        i := k;
      }
    }
  }

  // ---- Its round can be completed ----

  // As AllWaiting, but some of `todo` have yet to read a null message.
  ghost predicate NullsToRead(w: World, todo: set<Handle>) {
    forall h :: h in w.rtias ==>
      && Waits(w.rtias[h])
      && h in w.up && w.up[h] == [] && h in w.down
      && (w.down[h] == [] || (h in todo && |w.down[h]| == 1 && w.down[h][0].Null?))
  }

  lemma ReadOneNull(w: World, todo: set<Handle>, h: Handle)
    requires Invariant(w) && NullsToRead(w, todo) && h in w.rtias && w.down[h] != []
    ensures Allowed(w, RtiaReads(h)) && NullsToRead(Next(w, RtiaReads(h)), todo - {h})
    ensures Next(w, RtiaReads(h)).rtias.Keys == w.rtias.Keys
  {
    hide Invariant, Receive, Waits;
    ReadNeverThrows(w, h);
    NullLeavesWaiting(w.rtias[h], w.down[h][0]);
  }

  lemma NullLeavesWaiting(s: Rtia, m: Message)
    requires m.Null? && Receive(s, m).Some? && Waits(s)
    ensures Waits(Receive(s, m).value)
  {
  }

  lemma {:induction false} ReadNulls(w: World, todo: set<Handle>) returns (flush: seq<Step>)
    requires Invariant(w) && NullsToRead(w, todo)
    ensures OnlyReads(flush) && IsRun(w, flush) && AllWaiting(After(w, flush))
    decreases |todo|
  {
    hide Invariant, Next, Allowed;
    flush := [];
    if h :| h in todo && h in w.rtias && w.down[h] != [] {
      ReadOneNull(w, todo, h);
      var w' := Next(w, RtiaReads(h));
      StepKeepsInvariant(w, RtiaReads(h));
      var rest := ReadNulls(w', todo - {h});
      flush := [RtiaReads(h)] + rest;
      assert flush[1..] == rest;
    }
  }

  // Between the tick and the reads: one null message is on its way to the RTIG.
  ghost predicate NullSentBy(w: World, i: Handle) {
    && i in w.rtias && i in w.up && |w.up[i]| == 1 && w.up[i][0].Null? && w.up[i][0].src == i
    && forall h :: h in w.rtias ==>
         && Waits(w.rtias[h])
         && h in w.up && (h != i ==> w.up[h] == []) && h in w.down && w.down[h] == []
  }

  lemma QuietTickSends(w: World, i: Handle)
    requires Invariant(w) && AllTimely(w) && AllWaiting(w) && PromisedLeast(w, i) && Tick(w.rtias[i]).told == []
    ensures Allowed(w, TickAt(i)) && NullSentBy(Next(w, TickAt(i)), i)
  {
    hide Invariant, AllTimely, Tick, Promise, Waits;
    LeastActs(w, i);
    QuietTickWaits(w.rtias[i]);
  }

  lemma QuietTickWaits(s: Rtia)
    requires Waits(s) && Tick(s).told == []
    ensures Waits(Tick(s).rtia)
  {
    hide Rtia.Lbts;
  }

  // What the RTIG passes on leaves each stream empty or with that message.
  lemma PassedOn(r: Rtig, m: Message, h: Handle)
    requires m.Null?
    ensures var f := For(Process(r, m, {}).responses, h); [] + f == [] || [] + f == [m]
  {
    NullAnswer(r, m);
    var responses := Process(r, m, {}).responses;
    hide Process, For;
    if responses == [] {
      ForNone(h);
    } else {
      ForOne(responses[0], h);
    }
  }

  lemma RtigPassesNull(w: World, i: Handle)
    requires Invariant(w) && NullSentBy(w, i)
    ensures Allowed(w, RtigReads(i, {})) && NullsToRead(Next(w, RtigReads(i, {})), w.rtias.Keys)
  {
    hide Invariant, Process, For, Waits;
    forall h {
      PassedOn(w.rtig, w.up[i][0], h);
    }
  }

  lemma NullAnswer(r: Rtig, m: Message)
    requires m.Null?
    ensures var responses := Process(r, m, {}).responses;
      responses == [] || (|responses| == 1 && responses == [responses[0]] && responses[0].message == m)
  {
  }

  lemma RoundExists(w: World, i: Handle) returns (w': World, flush: seq<Step>)
    requires Invariant(w) && AllTimely(w) && AllWaiting(w) && PromisedLeast(w, i) && Tick(w.rtias[i]).told == []
    ensures IsRound(w, w', i, flush)
  {
    hide Invariant, AllTimely, AllWaiting, PromisedLeast, Tick, Next, Allowed, NullSentBy, NullsToRead;
    QuietTickSends(w, i);
    StepKeepsInvariant(w, TickAt(i));
    var w1 := Next(w, TickAt(i));
    RtigPassesNull(w1, i);
    StepKeepsInvariant(w1, RtigReads(i, {}));
    var w2 := Next(w1, RtigReads(i, {}));
    var rest := ReadNulls(w2, w1.rtias.Keys);
    flush := [RtigReads(i, {})] + rest;
    assert flush[1..] == rest && ([TickAt(i)] + flush)[1..] == flush;
    assert IsRun(w1, flush) && After(w1, flush) == After(w2, rest);
    w' := After(w2, rest);
  }

  // ---- Enough rounds tell someone something ----

  // With every promise beyond its date, a federate's tick tells it something.
  lemma PromisesTell(w: World, h: Handle)
    requires Invariant(w) && AllWaiting(w) && h in w.rtias
    requires forall k :: k in w.rtias ==> Promise(w, k).Some? && w.rtias[h].date.Lt(Promise(w, k).value)
    ensures Tick(w.rtias[h]).told != []
  {
    PromiseCovers(w, h);
    var s := w.rtias[h];
    PromisesBoundLbts(w, h, s.date);
    hide Invariant, AllWaiting, Promise, Tick;
    assert ReadyToGrant(s);
    if s.commands != [] || s.fifos != [] || Queues.Gives(s.tsos, GrantDate(s)) {
      TickProgresses(s);
    } else {
      TickGrants(s);
    }
  }

  lemma PromisesBoundLbts(w: World, h: Handle, date: Time)
    requires Invariant(w) && AllWaiting(w) && h in w.rtias && date.At?
    requires forall k :: k in w.rtias ==> Promise(w, k).Some? && date.Lt(Promise(w, k).value)
    ensures date.Lt(w.rtias[h].Lbts())
  {
    var s := w.rtias[h];
    assert IsLeast(s.clocks, s.me, s.Lbts());
    if s.Lbts() != Infinity {
      var k :| k in s.clocks && k != s.me && s.clocks[k] == s.Lbts();
      assert LinkOk(w, k, h);
    }
  }

  // The federate that is told something in `w`.
  ghost predicate IsTold(w: World, h: Handle) {
    h in w.rtias && Tick(w.rtias[h]).told != []
  }

  lemma LeastIs(w: World, i: Handle)
    requires i in w.rtias && Promise(w, i).Some? && Promise(w, i).value.At?
    requires forall k :: k in w.rtias ==> Promise(w, k).Some? && Promise(w, i).value.Le(Promise(w, k).value)
    ensures PromisedLeast(w, i)
  {
  }

  lemma RoundWaits(w: World, w': World, i: Handle, flush: seq<Step>)
    requires IsRound(w, w', i, flush) && Raises(w, w', i)
    ensures AllWaiting(w') && PositiveLookaheads(w') && SameRequests(w, w')
  {
    hide AllWaiting, IsRun, After, Promise;
    WaitingLookaheads(w');
  }

  lemma RoundThenRounds(w: World, i: Handle, flush: seq<Step>, worlds: seq<World>, movers: seq<Handle>,
                        flushes: seq<seq<Step>>, goal: real)
    requires AreRounds(worlds, movers, flushes, goal) && IsRound(w, worlds[0], i, flush)
    requires Promise(w, i).Some? && Promise(w, i).value.At? && Promise(w, i).value.t < goal
    ensures AreRounds([w] + worlds, [i] + movers, [flush] + flushes, goal)
    ensures ([w] + worlds)[|movers| + 1] == worlds[|movers|]
  {
    hide IsRound, Promise;
  }

  lemma {:induction false} RoundsTell(w: World, h: Handle, goal: real)
    returns (worlds: seq<World>, movers: seq<Handle>, flushes: seq<seq<Step>>, told: Handle)
    requires Invariant(w) && AllTimely(w) && AllWaiting(w) && PositiveLookaheads(w)
    requires h in w.rtias && w.rtias[h].date.Lt(At(goal))
    ensures AreRounds(worlds, movers, flushes, goal) && worlds[0] == w && IsTold(worlds[|movers|], told)
    decreases Budget(w, w.rtias.Keys, goal)
  {
    hide Invariant, AllTimely, AllWaiting, PositiveLookaheads, Promise, Budget, Tick, IsRound, PromisedLeast;
    forall k | k in w.rtias ensures Promise(w, k).Some? {
      WaitingPromises(w, k);
    }
    var i := LeastPromiser(w, w.rtias.Keys);
    worlds, movers, flushes, told := [w], [], [], i;
    if At(goal).Le(Promise(w, i).value) {
      PromisesTell(w, h);
      told := h;
    } else if Tick(w.rtias[i]).told == [] {
      LeastIs(w, i);
      var w', flush := RoundExists(w, i);
      RoundRaises(w, w', i, flush);
      RoundWaits(w, w', i, flush);
      RaiseSpendsBudget(w, w', i, goal);
      var later, movers', flushes', told' := RoundsTell(w', h, goal);
      worlds, movers, flushes, told := [w] + later, [i] + movers', [flush] + flushes', told';
      RoundThenRounds(w, i, flush, later, movers', flushes', goal);
    }
  }

  // However the federation came to wait: as soon as one federate has asked for a finite date, rounds of null
  // messages lead to a world in which some federate is told something, after no more than the budget says.
  lemma WaitingEnds(steps: seq<Step>, h: Handle, goal: real)
    returns (worlds: seq<World>, movers: seq<Handle>, flushes: seq<seq<Step>>, told: Handle)
    requires IsRun(EMPTY, steps) && NoDisabling(steps) && AllWaiting(After(EMPTY, steps))
    requires h in After(EMPTY, steps).rtias && After(EMPTY, steps).rtias[h].date.Lt(At(goal))
    ensures AreRounds(worlds, movers, flushes, goal) && worlds[0] == After(EMPTY, steps)
    ensures IsTold(worlds[|movers|], told)
    ensures PositiveLookaheads(worlds[0]) && |movers| <= Budget(worlds[0], worlds[0].rtias.Keys, goal)
  {
    assert Invariant(EMPTY);
    hide *;
    assert AllTimely(EMPTY) by { NobodyIsLate(); }
    RunIsTimely(EMPTY, steps);
    var w := After(EMPTY, steps);
    WaitingLookaheads(w);
    worlds, movers, flushes, told := RoundsTell(w, h, goal);
    NullMessagesAreBounded(steps, worlds, movers, flushes, goal);
  }

  lemma NothingBeyond(a: Time, b: Time)
    requires a == Infinity && a.Le(b)
    ensures b == Infinity
  {
  }

  lemma NobodyIsLate()
    ensures AllTimely(EMPTY)
  {
  }

  // And some federate promised least, unless all have promised everything.
  lemma SomeonePromisedLeast(w: World)
    requires Reachable(w) && AllWaiting(w) && w.rtias != map[]
    ensures (exists i :: PromisedLeast(w, i)) || forall h :: h in w.rtias ==> Promise(w, h) == Some(Infinity)
  {
    ReachableInvariant(w);
    assert w.rtias.Keys != {};
    hide *;
    forall k | k in w.rtias ensures Promise(w, k).Some? {
      WaitingPromises(w, k);
    }
    var i := LeastPromiser(w, w.rtias.Keys);
    if Promise(w, i).value.At? {
      LeastIs(w, i);
    } else {
      forall k | k in w.rtias ensures Promise(w, k) == Some(Infinity) {
        NothingBeyond(Promise(w, i).value, Promise(w, k).value);
      }
    }
  }
}
