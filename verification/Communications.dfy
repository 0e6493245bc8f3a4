/** The link of an RTIA to the RTIG: a blocking wait takes one message out of turn
    and sets aside those it passes over, to be read later in their order.
 */
module Communications {
  import opened FederationTime
  import opened Messages

  predicate Matches(m: Message, kind: Kind, federate: Handle) {
    KindOf(m) == kind && (federate == 0 || FederateOf(m) == federate)
  }

  // The first message of the wanted kind and federate.
  ghost predicate IsFirstMatch(pending: seq<Message>, kind: Kind, federate: Handle, k: nat) {
    && k < |pending| && Matches(pending[k], kind, federate)
    && forall i :: 0 <= i < k ==> !Matches(pending[i], kind, federate)
  }

  ghost predicate HasMatch(pending: seq<Message>, kind: Kind, federate: Handle) {
    exists m :: m in pending && Matches(m, kind, federate)
  }

  function Without<T>(s: seq<T>, k: nat): seq<T>
    requires k < |s|
  {
    s[..k] + s[k + 1..]
  }

  // ---- Where every message of the stream is ----

  // Messages are named by their place in the stream. `pending` are those not yet returned,
  // `read` and `waited` those returned by each kind of use, in order.
  datatype Progress = Progress(pending: seq<nat>, read: seq<nat>, waited: seq<nat>)

  function Start(stream: seq<Message>): Progress {
    Progress(seq(|stream|, i => i), [], [])
  }

  predicate InStream(stream: seq<Message>, places: seq<nat>) {
    forall i :: 0 <= i < |places| ==> places[i] < |stream|
  }

  function Contents(stream: seq<Message>, places: seq<nat>): seq<Message>
    requires InStream(stream, places)
  {
    seq(|places|, i requires 0 <= i < |places| => stream[places[i]])
  }

  function WaitAt(p: Progress, k: nat): Progress
    requires k < |p.pending|
  {
    Progress(Without(p.pending, k), p.read, p.waited + [p.pending[k]])
  }

  function ReadHead(p: Progress): Progress {
    if p.pending == [] then p else Progress(p.pending[1..], p.read + [p.pending[0]], p.waited)
  }

  predicate Ascending(s: seq<nat>) {
    forall i, j :: 0 <= i < j < |s| ==> s[i] < s[j]
  }

  // Every message is in exactly one place, and those read came out in order of arrival.
  ghost predicate Orderly(stream: seq<Message>, p: Progress) {
    && Ascending(p.pending)
    && Ascending(p.read)
    && (forall r, q :: r in p.read && q in p.pending ==> r < q)
    && multiset(p.pending) + multiset(p.read) + multiset(p.waited) == multiset(Start(stream).pending)
  }

  lemma StartIsOrderly(stream: seq<Message>)
    ensures Orderly(stream, Start(stream))
    ensures Contents(stream, Start(stream).pending) == stream
  {
    assert multiset(Start(stream).pending) + multiset([]) + multiset([]) == multiset(Start(stream).pending);
  }

  lemma OrderlyBounds(stream: seq<Message>, p: Progress)
    requires Orderly(stream, p)
    ensures InStream(stream, p.pending)
  {
    forall i | 0 <= i < |p.pending| ensures p.pending[i] < |stream| {
      assert p.pending[i] in multiset(p.pending);
      assert p.pending[i] in multiset(p.pending) + multiset(p.read) + multiset(p.waited);
      assert p.pending[i] in Start(stream).pending;
    }
  }

  lemma WaitMoves(pending: seq<nat>, read: seq<nat>, waited: seq<nat>, k: nat)
    requires k < |pending|
    ensures multiset(Without(pending, k)) + multiset(read) + multiset(waited + [pending[k]])
         == multiset(pending) + multiset(read) + multiset(waited)
  {
    assert pending == pending[..k] + [pending[k]] + pending[k + 1..];
  }

  lemma WithoutMembers(s: seq<nat>, k: nat)
    requires k < |s|
    ensures forall x :: x in Without(s, k) ==> x in s
    ensures Ascending(s) ==> Ascending(Without(s, k))
  {
  }

  lemma ContentsWithout(stream: seq<Message>, places: seq<nat>, k: nat)
    requires k < |places| && InStream(stream, places)
    ensures InStream(stream, Without(places, k))
    ensures Contents(stream, Without(places, k)) == Without(Contents(stream, places), k)
  {
  }

  lemma WaitIsOrderly(stream: seq<Message>, p: Progress, k: nat)
    requires Orderly(stream, p) && k < |p.pending|
    ensures Orderly(stream, WaitAt(p, k)) && InStream(stream, p.pending) && InStream(stream, WaitAt(p, k).pending)
    ensures Contents(stream, WaitAt(p, k).pending) == Without(Contents(stream, p.pending), k)
  {
    OrderlyBounds(stream, p);
    WaitMoves(p.pending, p.read, p.waited, k);
    WithoutMembers(p.pending, k);
    ContentsWithout(stream, p.pending, k);
    hide Ascending, Without;
    assert forall r, q :: r in p.read && q in Without(p.pending, k) ==> r < q;
  }

  lemma ReadMoves(pending: seq<nat>, read: seq<nat>, waited: seq<nat>)
    requires pending != []
    ensures multiset(pending[1..]) + multiset(read + [pending[0]]) + multiset(waited)
         == multiset(pending) + multiset(read) + multiset(waited)
  {
    assert pending == [pending[0]] + pending[1..];
  }

  lemma ReadAscends(pending: seq<nat>, read: seq<nat>)
    requires pending != [] && Ascending(pending) && Ascending(read)
    requires forall r, q :: r in read && q in pending ==> r < q
    ensures Ascending(pending[1..]) && Ascending(read + [pending[0]])
    ensures forall r, q :: r in read + [pending[0]] && q in pending[1..] ==> r < q
  {
    var rest := pending[1..];
    forall x | x in rest ensures pending[0] < x && x in pending {
      var i :| 0 <= i < |rest| && rest[i] == x;
      assert pending[i + 1] == x;
    }
    forall r | r in read ensures r < pending[0] {
      assert pending[0] in pending;
    }
    var read' := read + [pending[0]];
    forall i, j | 0 <= i < j < |read'| ensures read'[i] < read'[j] {
      assert read[i] in read;
    }
  }

  lemma ContentsTail(stream: seq<Message>, places: seq<nat>)
    requires places != [] && InStream(stream, places)
    ensures InStream(stream, places[1..])
    ensures Contents(stream, places[1..]) == Contents(stream, places)[1..]
  {
  }

  lemma ReadIsOrderly(stream: seq<Message>, p: Progress)
    requires Orderly(stream, p) && p.pending != []
    ensures Orderly(stream, ReadHead(p)) && InStream(stream, p.pending) && InStream(stream, ReadHead(p).pending)
    ensures Contents(stream, ReadHead(p).pending) == Contents(stream, p.pending)[1..]
  {
    OrderlyBounds(stream, p);
    ReadMoves(p.pending, p.read, p.waited);
    ReadAscends(p.pending, p.read);
    ContentsTail(stream, p.pending);
    hide Ascending, Contents;
  }

  // ---- Any interleaving of waits and reads ----

  datatype Use = Waits(kind: Kind, federate: Handle) | Reads

  // The index of the first match, or the length when there is none.
  function FirstMatch(pending: seq<Message>, kind: Kind, federate: Handle): (k: nat)
    ensures k <= |pending| && (k < |pending| ==> IsFirstMatch(pending, kind, federate, k))
    ensures forall i :: 0 <= i < k ==> !Matches(pending[i], kind, federate)
  {
    if pending == [] || Matches(pending[0], kind, federate) then 0 else 1 + FirstMatch(pending[1..], kind, federate)
  }

  // A wait for what does not come returns nothing.
  function Used(stream: seq<Message>, p: Progress, use: Use): Progress
    requires InStream(stream, p.pending)
  {
    match use
    case Waits(kind, federate) =>
      var k := FirstMatch(Contents(stream, p.pending), kind, federate);
      if k < |p.pending| then WaitAt(p, k) else p
    case Reads => ReadHead(p)
  }

  lemma UseIsOrderly(stream: seq<Message>, p: Progress, use: Use)
    requires Orderly(stream, p)
    ensures InStream(stream, p.pending) && Orderly(stream, Used(stream, p, use))
  {
    OrderlyBounds(stream, p);
    hide Orderly, Contents;
    if use.Waits? {
      var k := FirstMatch(Contents(stream, p.pending), use.kind, use.federate);
      if k < |p.pending| {
        WaitIsOrderly(stream, p, k);
      }
    } else if p.pending != [] {
      ReadIsOrderly(stream, p);
    }
  }

  ghost function UsedAll(stream: seq<Message>, p: Progress, uses: seq<Use>): (p': Progress)
    requires Orderly(stream, p)
    ensures Orderly(stream, p')
    decreases |uses|
  {
    if uses == [] then p else
      UseIsOrderly(stream, p, uses[0]);
      UsedAll(stream, Used(stream, p, uses[0]), uses[1..])
  }

  lemma OnePlaceEach(stream: seq<Message>, n: nat)
    requires n < |stream|
    ensures multiset(Start(stream).pending)[n] == 1
  {
    var s := Start(stream).pending;
    assert s == s[..n] + [n] + s[n + 1..];
    assert n !in s[..n] && n !in s[n + 1..];
  }

  // After any interleaving every message has been read, or waited for, or is still to come, once; those read
  // were read in order of arrival, and before any that is still to come.
  lemma InterleavingConserves(stream: seq<Message>, uses: seq<Use>, n: nat)
    requires n < |stream|
    ensures Orderly(stream, Start(stream))
    ensures var p := UsedAll(stream, Start(stream), uses);
      && multiset(p.read)[n] + multiset(p.waited)[n] + multiset(p.pending)[n] == 1
      && Ascending(p.read) && Ascending(p.pending) && forall r, q :: r in p.read && q in p.pending ==> r < q
  {
    StartIsOrderly(stream);
    OnePlaceEach(stream, n);
    var p := UsedAll(stream, Start(stream), uses);
    assert (multiset(p.pending) + multiset(p.read) + multiset(p.waited))[n] == 1;
  }

  // A message still to come that matches, while all earlier ones that match were returned.
  ghost predicate Earliest(stream: seq<Message>, p: Progress, kind: Kind, federate: Handle, q: nat) {
    && q in p.pending && q < |stream| && Matches(stream[q], kind, federate)
    && forall n :: 0 <= n < q && Matches(stream[n], kind, federate) ==> n in p.read || n in p.waited
  }

  lemma InSomePlace(stream: seq<Message>, p: Progress, n: nat)
    requires Orderly(stream, p) && n < |stream|
    ensures n in p.pending || n in p.read || n in p.waited
  {
    OnePlaceEach(stream, n);
    assert n in multiset(p.pending) + multiset(p.read) + multiset(p.waited);
  }

  lemma NoEarlierMatch(stream: seq<Message>, p: Progress, kind: Kind, federate: Handle, k: nat)
    requires Ascending(p.pending) && InStream(stream, p.pending) && k < |p.pending|
    requires forall i :: 0 <= i < k ==> !Matches(Contents(stream, p.pending)[i], kind, federate)
    ensures forall n :: n in p.pending && n < p.pending[k] ==> !Matches(stream[n], kind, federate)
  {
    forall n | n in p.pending && n < p.pending[k] ensures !Matches(stream[n], kind, federate) {
      var i :| 0 <= i < |p.pending| && p.pending[i] == n;
      assert Contents(stream, p.pending)[i] == stream[n];
    }
  }

  lemma FirstIsEarliest(stream: seq<Message>, p: Progress, kind: Kind, federate: Handle, k: nat)
    requires Orderly(stream, p) && InStream(stream, p.pending)
    requires IsFirstMatch(Contents(stream, p.pending), kind, federate, k)
    ensures k < |p.pending| && Earliest(stream, p, kind, federate, p.pending[k])
  {
    NoEarlierMatch(stream, p, kind, federate, k);
    forall n | 0 <= n < p.pending[k] && Matches(stream[n], kind, federate) ensures n in p.read || n in p.waited {
      InSomePlace(stream, p, n);
    }
  }

  // After any interleaving a wait returns the earliest match that was not returned before, and nothing exactly
  // when there is none.
  lemma WaitTakesEarliest(stream: seq<Message>, uses: seq<Use>, kind: Kind, federate: Handle)
    ensures Orderly(stream, Start(stream))
    ensures var p := UsedAll(stream, Start(stream), uses);
      InStream(stream, p.pending)
      && var p' := Used(stream, p, Waits(kind, federate));
      && (p' == p <==> forall q :: q in p.pending ==> !Matches(stream[q], kind, federate))
      && (p' != p ==>
            && p.waited < p'.waited && |p'.waited| == |p.waited| + 1
            && Earliest(stream, p, kind, federate, p'.waited[|p.waited|]))
  {
    StartIsOrderly(stream);
    var p := UsedAll(stream, Start(stream), uses);
    OrderlyBounds(stream, p);
    hide Orderly, UsedAll;
    var messages := Contents(stream, p.pending);
    var k := FirstMatch(messages, kind, federate);
    if k < |p.pending| {
      FirstIsEarliest(stream, p, kind, federate, k);
    } else {
      forall q | q in p.pending ensures !Matches(stream[q], kind, federate) {
        var i :| 0 <= i < |p.pending| && p.pending[i] == q;
        assert messages[i] == stream[q];
      }
    }
  }

  // When nothing set aside matches, the first match of all is the first match of the rest.
  lemma StillToCome(aside: seq<Message>, rest: seq<Message>, kind: Kind, federate: Handle)
    requires HasMatch(aside + rest, kind, federate)
    requires forall m :: m in aside ==> !Matches(m, kind, federate)
    ensures HasMatch(rest, kind, federate)
    ensures forall k: nat :: IsFirstMatch(rest, kind, federate, k) ==>
      && IsFirstMatch(aside + rest, kind, federate, |aside| + k)
      && (aside + rest)[|aside| + k] == rest[k]
      && Without(aside + rest, |aside| + k) == aside + rest[..k] + rest[k + 1..]
  {
    assert forall i :: 0 <= i < |aside| ==> aside[i] in aside;
  }

  // When something set aside matches, it is the first match of all.
  lemma SetAside(aside: seq<Message>, rest: seq<Message>, kind: Kind, federate: Handle, k: nat)
    requires IsFirstMatch(aside, kind, federate, k)
    ensures IsFirstMatch(aside + rest, kind, federate, k)
    ensures Without(aside + rest, k) == Without(aside, k) + rest
  {
  }

  // ---- What a wait is for ----

  // The anonymous handle stands for every federate; any other is the one the message must come from.
  lemma WantedIff(m: Message, kind: Kind, federate: Handle)
    ensures Matches(m, kind, federate) <==> match m
      case Null(src, _) => kind == NullKind && (federate == 0 || federate == src)
      case JoinReply(joiner, _) => kind == JoinKind && (federate == 0 || federate == joiner)
      case EventReply(src) => kind == EventReplyKind && (federate == 0 || federate == src)
      case RegulatorOn(src, _) => kind == OtherKind && (federate == 0 || federate == src)
      case RegulatorOff(src) => kind == OtherKind && (federate == 0 || federate == src)
      case Constraining(src, _) => kind == OtherKind && (federate == 0 || federate == src)
      case Timed(event) => kind == OtherKind && (federate == 0 || federate == event.src)
      case Plain(src, _) => kind == OtherKind && (federate == 0 || federate == src)
      case _ => kind == OtherKind && federate == 0
  {
  }

  // A federate that waits for the reply to its own event waits for that reply and no other message.
  lemma OwnReplyIff(pending: seq<Message>, h: Handle, k: nat)
    requires h != 0
    ensures HasMatch(pending, EventReplyKind, h) <==> EventReply(h) in pending
    ensures IsFirstMatch(pending, EventReplyKind, h, k) <==>
      k < |pending| && pending[k] == EventReply(h) && EventReply(h) !in pending[..k]
  {
    forall m | m in pending ensures Matches(m, EventReplyKind, h) <==> m == EventReply(h) {
      WantedIff(m, EventReplyKind, h);
    }
    if k < |pending| {
      forall i | 0 <= i < k ensures pending[..k][i] == pending[i] && pending[i] in pending {
      }
    }
    hide Matches;
  }

  // Messages of other federates and kinds do not matter, wherever they wait: the reply is there for the wait exactly
  // when it is somewhere in the stream, not yet returned, and the earliest such is returned.
  lemma OwnReplyReturned(stream: seq<Message>, uses: seq<Use>, h: Handle)
    requires h != 0
    ensures Orderly(stream, Start(stream))
    ensures var p := UsedAll(stream, Start(stream), uses);
      InStream(stream, p.pending)
      && var p' := Used(stream, p, Waits(EventReplyKind, h));
      && (p' == p <==> EventReply(h) !in Contents(stream, p.pending))
      && (p' != p ==>
            var q := p'.waited[|p.waited|..];
            && p'.waited == p.waited + q && |q| == 1 && q[0] in p.pending && q[0] < |stream|
            && stream[q[0]] == EventReply(h)
            && forall n :: 0 <= n < q[0] && stream[n] == EventReply(h) ==> n in p.read || n in p.waited)
  {
    WaitTakesEarliest(stream, uses, EventReplyKind, h);
    var p := UsedAll(stream, Start(stream), uses);
    var p' := Used(stream, p, Waits(EventReplyKind, h));
    forall n | 0 <= n < |stream| ensures Matches(stream[n], EventReplyKind, h) <==> stream[n] == EventReply(h) {
      OwnReplyIff([stream[n]], h, 0);
    }
    assert forall i :: 0 <= i < |p.pending| ==> Contents(stream, p.pending)[i] == stream[p.pending[i]];
    hide Matches, UsedAll, Used, Orderly;
    if p' != p {
      assert p'.waited == p.waited + p'.waited[|p.waited|..];
    }
  }

  // The reply is the only answer to the join.
  lemma ReplyIsFirst(nulls: seq<Message>, others: seq<Message>, reply: Message, rest: seq<Message>)
    requires KindOf(reply) == JoinKind
    requires forall m :: m in nulls ==> KindOf(m) == NullKind
    requires forall m :: m in others ==> KindOf(m) == OtherKind
    ensures var pending := nulls + others + [reply] + rest;
      && HasMatch(pending, JoinKind, 0)
      && forall k: nat :: IsFirstMatch(pending, JoinKind, 0, k) ==>
           pending[k] == reply && Without(pending, k) == nulls + (others + rest)
  {
    var pending, n := nulls + others + [reply] + rest, |nulls + others|;
    assert pending[n] == reply && reply in pending && Matches(reply, JoinKind, 0);
    forall i | 0 <= i < n ensures !Matches(pending[i], JoinKind, 0) {
      assert pending[i] == (nulls + others)[i] && (pending[i] in nulls || pending[i] in others);
    }
    assert Without(pending, n) == nulls + (others + rest);
    assert forall k: nat :: IsFirstMatch(pending, JoinKind, 0, k) ==> k == n;
  }

  lemma NullIsFirst(nulls: seq<Message>, rest: seq<Message>, i: nat)
    requires i < |nulls| && forall m :: m in nulls ==> KindOf(m) == NullKind
    ensures var pending := nulls[i..] + rest;
      && HasMatch(pending, NullKind, 0)
      && forall k: nat :: IsFirstMatch(pending, NullKind, 0, k) ==>
           pending[k] == nulls[i] && Without(pending, k) == nulls[i + 1..] + rest
  {
    var pending := nulls[i..] + rest;
    assert pending[0] == nulls[i] && nulls[i] in nulls && Matches(pending[0], NullKind, 0) && pending[0] in pending;
  }

  lemma WaitedFor(pending: seq<Message>, kind: Kind, federate: Handle, k: nat)
    requires IsFirstMatch(pending, kind, federate, k)
    ensures k < |pending| && Without(pending, k) == pending[..k] + pending[k + 1..]
    ensures kind == EventReplyKind && federate != 0 ==>
      pending[k] == EventReply(federate) && EventReply(federate) !in pending[..k]
    ensures federate == 0 ==> KindOf(pending[k]) == kind && forall m :: m in pending[..k] ==> KindOf(m) != kind
  {
    if federate != 0 && kind == EventReplyKind {
      OwnReplyIff(pending, federate, k);
    }
    if federate == 0 {
      forall m | m in pending[..k] ensures KindOf(m) != kind {
        var i :| 0 <= i < k && pending[..k][i] == m;
        assert !Matches(pending[i], kind, federate);
      }
    }
  }

  // Its own reply returns to a federate at once, whatever replies of others come before it; those stay in order.
  method WaitForOwnReply(link: Link, h: Handle, ghost before: seq<Message>, ghost rest: seq<Message>)
    returns (m: Message)
    requires link.Valid() && h != 0 && EventReply(h) !in before
    requires link.Pending() == before + [EventReply(h)] + rest
    modifies link
    ensures link.Valid() && m == EventReply(h) && link.Pending() == before + rest
  {
    OwnReplyIff(before + [EventReply(h)] + rest, h, |before|);
    assert (before + [EventReply(h)] + rest)[..|before|] == before;
    ghost var k;
    m, k := link.WaitMessage(EventReplyKind, h);
  }

  class Link {
    var waitingList: seq<Message>
    // What the RTIG sends and the RTIA has not received yet, including what is still to come.
    var tcp: seq<Message>
    ghost const stream: seq<Message>
    ghost var progress: Progress

    ghost predicate Valid()
      reads this
    {
      Orderly(stream, progress) && InStream(stream, progress.pending) && Pending() == Contents(stream, progress.pending)
    }

    ghost function Pending(): seq<Message>
      reads this
    {
      waitingList + tcp
    }

    constructor (messages: seq<Message>)
      ensures Valid() && stream == messages && Pending() == messages && waitingList == []
    {
      waitingList, tcp, stream, progress := [], messages, messages, Start(messages);
      StartIsOrderly(messages);
    }

    method SearchMessage(kind: Kind, federate: Handle) returns (found: Option<Message>, ghost k: nat)
      modifies this`waitingList
      ensures found.Some? ==>
        && IsFirstMatch(old(waitingList), kind, federate, k)
        && found.value == old(waitingList)[k] && waitingList == Without(old(waitingList), k)
      ensures found.None? ==>
        waitingList == old(waitingList) && forall m :: m in waitingList ==> !Matches(m, kind, federate)
    {
      var i := 0;
      k := 0;
      while i < |waitingList|
        invariant 0 <= i <= |waitingList| && waitingList == old(waitingList)
        invariant forall n :: 0 <= n < i ==> !Matches(waitingList[n], kind, federate)
      {
        if Matches(waitingList[i], kind, federate) {
          found := Some(waitingList[i]);
          k := i;
          waitingList := waitingList[..i] + waitingList[i + 1..];
          return;
        }
        i := i + 1;
      }
      found := None;
    }

    // Receives until the wanted message comes, setting the others aside.
    method ReceiveMatch(kind: Kind, federate: Handle) returns (m: Message, ghost k: nat)
      requires HasMatch(tcp, kind, federate)
      modifies this`waitingList, this`tcp
      ensures IsFirstMatch(old(tcp), kind, federate, k) && m == old(tcp)[k]
      ensures waitingList == old(waitingList) + old(tcp)[..k] && tcp == old(tcp)[k + 1..]
    {
      ghost var stream := tcp;
      ghost var g :| 0 <= g < |stream| && Matches(stream[g], kind, federate);
      m := tcp[0];
      tcp := tcp[1..];
      k := 0;
      while !Matches(m, kind, federate)
        invariant k <= g && m == stream[k] && tcp == stream[k + 1..]
        invariant waitingList == old(waitingList) + stream[..k]
        invariant forall i :: 0 <= i < k ==> !Matches(stream[i], kind, federate)
        decreases |stream| - k
      {
        waitingList := waitingList + [m];
        m := tcp[0];
        tcp := tcp[1..];
        k := k + 1;
      }
    }

    // Blocks until the wanted message comes, so it returns only if that message comes.
    method WaitMessage(kind: Kind, federate: Handle) returns (m: Message, ghost k: nat)
      requires Valid() && HasMatch(Pending(), kind, federate)
      modifies this
      ensures Valid() && IsFirstMatch(old(Pending()), kind, federate, k) && m == old(Pending())[k]
      ensures Pending() == Without(old(Pending()), k) && progress == WaitAt(old(progress), k)
      // The rest stays in order, and what was passed over is not what was wanted.
      ensures Pending() == old(Pending())[..k] + old(Pending())[k + 1..]
      ensures kind == EventReplyKind && federate != 0 ==>
        m == EventReply(federate) && EventReply(federate) !in old(Pending())[..k]
      ensures federate == 0 ==>
        KindOf(m) == kind && forall passed :: passed in old(Pending())[..k] ==> KindOf(passed) != kind
    {
      ghost var p, pending := progress, Pending();
      assert Orderly(stream, p) && InStream(stream, p.pending) && Pending() == Contents(stream, p.pending);
      hide Orderly, Without, Matches, HasMatch;
      m, k := TakeMatch(kind, federate);
      WaitIsOrderly(stream, p, k);
      progress := WaitAt(p, k);
      WaitedFor(pending, kind, federate, k);
    }

    // From what was set aside, or else from the socket.
    method TakeMatch(kind: Kind, federate: Handle) returns (m: Message, ghost k: nat)
      requires HasMatch(Pending(), kind, federate)
      modifies this`waitingList, this`tcp
      ensures IsFirstMatch(old(Pending()), kind, federate, k) && m == old(Pending())[k]
      ensures Pending() == Without(old(Pending()), k)
    {
      hide HasMatch, Without, Matches;
      ghost var aside := waitingList;
      var found, n := SearchMessage(kind, federate);
      if found.Some? {
        m, k := found.value, n;
        SetAside(aside, tcp, kind, federate, k);
      } else {
        StillToCome(aside, tcp, kind, federate);
        m, n := ReceiveMatch(kind, federate);
        k := |aside| + n;
      }
    }

    method ReadMessage() returns (m: Option<Message>)
      requires Valid()
      modifies this
      ensures Valid() && progress == ReadHead(old(progress))
      ensures m.Some? == (old(Pending()) != [])
      ensures m.Some? ==> old(Pending()) == [m.value] + Pending()
      ensures m.None? ==> Pending() == old(Pending())
    {
      hide Orderly;
      if Pending() != [] {
        ReadIsOrderly(stream, progress);
      }
      progress := ReadHead(progress);
      if waitingList != [] {
        m := Some(waitingList[0]);
        waitingList := waitingList[1..];
      } else if tcp != [] {
        m := Some(tcp[0]);
        tcp := tcp[1..];
      } else {
        m := None;
      }
    }
  }
}
