/** How a joining federate comes by the clocks of the regulators: a null message for each waits in its
    stream before the reply, and the reply says how many to wait for.
 */
module JoinHandOff {
  import opened FederationTime
  import Lbts
  import opened Messages
  import opened RtigState
  import opened Communications
  import Federation

  // The answer to the request to join: `nulls` and `others` were sent before the reply, and `rest`,
  // whatever it holds, after it.
  ghost predicate AnswersJoin(pending: seq<Message>, nulls: seq<Message>, others: seq<Message>, reply: Message,
                              rest: seq<Message>) {
    && pending == nulls + others + [reply] + rest
    && reply.JoinReply? && reply.regulators == |nulls|
    && (forall m :: m in nulls ==> KindOf(m) == NullKind)
    && (forall m :: m in others ==> KindOf(m) == OtherKind)
  }

  // The first clocks of the list.
  ghost predicate Holds(clocks: Lbts.Clocks, nulls: seq<Message>, n: nat)
    requires n <= |nulls| && forall i :: 0 <= i < |nulls| ==> nulls[i].Null?
  {
    && (forall i :: 0 <= i < n ==> nulls[i].src in clocks && clocks[nulls[i].src] == nulls[i].date)
    && (forall h :: h in clocks ==> exists i :: 0 <= i < n && nulls[i].src == h)
    && |clocks| == n
  }

  lemma HoldsOneMore(clocks: Lbts.Clocks, nulls: seq<Message>, regulators: Lbts.Clocks, i: nat)
    requires Federation.ListsClocks(nulls, regulators) && i < |nulls| && Holds(clocks, nulls, i)
    ensures nulls[i].src !in clocks && Holds(clocks[nulls[i].src := nulls[i].date], nulls, i + 1)
  {
  }

  lemma HoldsAll(clocks: Lbts.Clocks, nulls: seq<Message>, regulators: Lbts.Clocks)
    requires Federation.ListsClocks(nulls, regulators) && Holds(clocks, nulls, |nulls|)
    ensures clocks == regulators
  {
    assert clocks.Keys <= regulators.Keys;
    SubsetOfEqualSize(clocks.Keys, regulators.Keys);
  }

  lemma SubsetOfEqualSize(a: set<Handle>, b: set<Handle>)
    requires a <= b && |a| == |b|
    ensures a == b
  {
    assert b == a + (b - a);
  }

  // One turn of the loop: wait for a null message and insert its clock.
  method TakeClock(link: Link, lbts: Lbts.ClockSet, ghost nulls: seq<Message>, ghost rest: seq<Message>,
                   ghost regulators: Lbts.Clocks, i: nat)
    requires link.Valid() && Federation.ListsClocks(nulls, regulators) && i < |nulls|
    requires link.Pending() == nulls[i..] + rest
    requires lbts.Valid() && Holds(lbts.clocks, nulls, i)
    modifies link, lbts
    ensures link.Valid() && link.Pending() == nulls[i + 1..] + rest
    ensures lbts.Valid() && lbts.me == old(lbts.me) && Holds(lbts.clocks, nulls, i + 1)
  {
    hide Link.Valid, Lbts.ClockSet.Valid, Without, Holds;
    NullIsFirst(nulls, rest, i);
    HoldsOneMore(lbts.clocks, nulls, regulators, i);
    var m, n := link.WaitMessage(NullKind, 0);
    var ok := lbts.Insert(m.src, m.date);
    assert ok;
  }

  // The clocks end up as the RTIG listed them; of the rest of the stream nothing is lost or reordered.
  method JoinFederationExecution(link: Link, lbts: Lbts.ClockSet, ghost nulls: seq<Message>, ghost others: seq<Message>,
                                 ghost reply: Message, ghost rest: seq<Message>, ghost regulators: Lbts.Clocks)
    returns (federate: Handle)
    requires link.Valid() && AnswersJoin(link.Pending(), nulls, others, reply, rest)
    requires Federation.ListsClocks(nulls, regulators)
    requires lbts.Valid() && lbts.clocks == map[]
    modifies link, lbts
    ensures link.Valid() && link.Pending() == others + rest
    ensures lbts.Valid() && lbts.clocks == regulators && lbts.me == federate == reply.federate
  {
    assert Holds(map[], nulls, 0);
    hide Link.Valid, Lbts.ClockSet.Valid, Without, Holds;
    ReplyIsFirst(nulls, others, reply, rest);
    var answer, k := link.WaitMessage(JoinKind, 0);
    federate := answer.federate;
    lbts.SetFederate(federate);
    for i := 0 to answer.regulators
      invariant link.Valid() && link.Pending() == nulls[i..] + (others + rest)
      invariant lbts.Valid() && lbts.me == federate && Holds(lbts.clocks, nulls, i)
    {
      TakeClock(link, lbts, nulls, others + rest, regulators, i);
    }
    HoldsAll(lbts.clocks, nulls, regulators);
  }

  // What the RTIG answers, the RTIA takes: the joiner starts from exactly the clocks the RTIG held
  // when it joined, whatever comes after the reply, and the pending points wait to be announced.
  method HandOff(federation: Federation.Federation, h: Handle, rest: seq<Message>)
    returns (link: Link, lbts: Lbts.ClockSet, ghost announcements: seq<Message>)
    requires federation.Valid() && h !in federation.federates && h != 0
    modifies federation`federates
    ensures federation.View() == Add(old(federation.View()), h).rtig
    ensures lbts.Valid() && lbts.me == h && lbts.clocks == old(federation.View()).regulators
    ensures link.Valid() && link.Pending() == announcements + rest
    ensures Federation.ListsPoints(announcements, old(federation.View()).points)
  {
    hide Link.Valid, Lbts.ClockSet.Valid, Federation.Federation.Valid, Federation.Federation.View, Add;
    var nulls, points, reply := federation.Add(h);
    announcements := points;
    link := new Link(nulls + points + [reply] + rest);
    lbts := new Lbts.ClockSet();
    var federate := JoinFederationExecution(link, lbts, nulls, points, reply, rest, old(federation.View()).regulators);
  }
}
