/** Delivery in a cluster over every run: no event is written to a client twice, none is forwarded
    a second time, and once the channels have drained every matching client has it. */
module Delivery {
  import opened Topics
  import opened Table
  import opened Fanout
  import opened Cluster
  import opened Coverage
  import opened Renewal

  predicate Carries(p: Packet, e: Event) {
    p.Pub? && p.event == Some(e)
  }

  ghost predicate Pending(ps: seq<Packet>, e: Event) {
    exists p :: p in ps && Carries(p, e)
  }

  ghost predicate NoEvents(ps: seq<Packet>) {
    forall e :: !Pending(ps, e)
  }

  ghost predicate OncePerEvent(ps: seq<Packet>) {
    forall i, j, e | 0 <= i < j < |ps| && Carries(ps[i], e) :: !Carries(ps[j], e)
  }

  /** An event waits only on channels from the node it was published at, at most once on each. */
  ghost predicate Homed(s: State) {
    forall x, y, e | Pending(Channel(s, x, y), e) :: e in s.origin && s.origin[e] == x
  }

  ghost predicate Single(s: State) {
    forall x, y :: OncePerEvent(Channel(s, x, y))
  }

  /** Only the node an event was published at forwards it, once to each peer. */
  ghost predicate SentOnce(s: State) {
    && OneCopy(s.sent)
    && forall x, c, e | (x, c, e) in s.sent :: e in s.origin && s.origin[e] == x
  }

  /** A client is written an event once, and then no further copy is on its way. */
  ghost predicate WrittenOnce(s: State) {
    && OneCopy(s.written)
    && forall n, c, e | (n, c, e) in s.written ::
         e in s.origin && (s.origin[e] != n ==> !Pending(Channel(s, s.origin[e], n), e))
  }

  /** Once to a connection, and to one connection of each id. */
  ghost predicate OneCopy(ms: multiset<Copy>) {
    && (forall t | t in ms :: ms[t] == 1)
    && forall n, c, d, e | (n, c, e) in ms && (n, d, e) in ms && c.id == d.id :: c == d
  }

  ghost predicate Inv(s: State) {
    Homed(s) && Single(s) && SentOnce(s) && WrittenOnce(s)
  }

  // ---------------------------------------------------------------- channels

  /** The channel lost k packets at the front and gained packets without events at the end. */
  ghost predicate Follows(was: seq<Packet>, k: nat, now: seq<Packet>) {
    k <= |was| && |was| - k <= |now| && was[k..] == now[..|was| - k] && NoEvents(now[|was| - k..])
  }

  lemma FollowsFacts(was: seq<Packet>, k: nat, now: seq<Packet>)
    requires Follows(was, k, now)
    ensures forall e | Pending(now, e) :: Pending(was[k..], e) && Pending(was, e)
    ensures OncePerEvent(was) ==> OncePerEvent(now)
  {
    var n := |was| - k;
    forall i, e | 0 <= i < |now| && Carries(now[i], e) ensures i < n && now[i] == was[k..][i]
        && was[k..][i] == was[k + i] {
      assert !Pending(now[n..], e);
    }
    forall e | Pending(now, e) ensures Pending(was[k..], e) && Pending(was, e) {
      var p :| p in now && Carries(p, e);
      var i :| 0 <= i < |now| && now[i] == p;
      assert was[k + i] in was;
    }
  }

  ghost predicate Trails(was: seq<Packet>, now: seq<Packet>) {
    exists k :: Follows(was, k, now)
  }

  ghost predicate Quiet(s: State, s': State) {
    forall x, y :: Trails(Channel(s, x, y), Channel(s', x, y))
  }

  lemma FollowsItself(ps: seq<Packet>, more: seq<Packet>)
    requires NoEvents(more)
    ensures Trails(ps, ps + more)
  {
    assert (ps + more)[|ps|..] == more;
    assert Follows(ps, 0, ps + more);
  }

  lemma Unchanged(ps: seq<Packet>)
    ensures Trails(ps, ps)
  {
    FollowsItself(ps, []);
    assert ps + [] == ps;
  }

  lemma Emptied(ps: seq<Packet>)
    ensures Trails(ps, [])
  {
    assert Follows(ps, |ps|, []);
  }

  lemma QuietChannels(s: State, s': State)
    requires Inv(s) && Quiet(s, s') && s'.origin == s.origin
    ensures Homed(s') && Single(s')
    ensures forall x, y, e | Pending(Channel(s', x, y), e) :: Pending(Channel(s, x, y), e)
  {
    hide Pending, OncePerEvent, Follows, Channel;
    forall x, y
      ensures OncePerEvent(Channel(s', x, y))
      ensures forall e | Pending(Channel(s', x, y), e) :: Pending(Channel(s, x, y), e)
    {
      var k :| Follows(Channel(s, x, y), k, Channel(s', x, y));
      FollowsFacts(Channel(s, x, y), k, Channel(s', x, y));
    }
  }

  lemma QuietKeeps(s: State, s': State)
    requires Inv(s) && Quiet(s, s')
    requires s'.origin == s.origin && s'.sent == s.sent && s'.written == s.written
    ensures Inv(s')
  {
    hide Pending, OncePerEvent, Quiet, Channel;
    QuietChannels(s, s');
  }

  // ---------------------------------------------------------------- every step keeps it

  lemma SubscribeQuiet(s: State, a: Name, c: Client, topics: seq<string>, s': State)
    requires ClientSubscribes(s, a, c, topics, s')
    ensures Quiet(s, s')
  {
    hide Trails, SubscribeAll;
    BroadcastQuiet(s, a, s.nodes[a].peers.Keys, Sub(topics), s');
  }

  lemma BroadcastQuiet(s: State, a: Name, to: set<Name>, p: Packet, s': State)
    requires s'.channels == Broadcast(s, a, to, p) && !p.Pub?
    ensures Quiet(s, s')
  {
    hide Trails;
    forall x, y ensures Trails(Channel(s, x, y), Channel(s', x, y)) {
      if x == a && y in to {
        FollowsItself(Channel(s, x, y), [p]);
      } else {
        Unchanged(Channel(s, x, y));
      }
    }
  }

  lemma LinkUpQuiet(s: State, a: Name, b: Name, c: Client, s': State)
    requires Connects(s, a, b, c, s')
    ensures Quiet(s, s')
  {
    hide Trails;
    var ps := s'.channels[(a, b)][|Channel(s, a, b)|..];
    assert Channel(s', a, b) == Channel(s, a, b) + ps && Syncs(s.nodes[a].local, ps);
    forall x, y ensures Trails(Channel(s, x, y), Channel(s', x, y)) {
      if (x, y) == (a, b) {
        FollowsItself(Channel(s, x, y), ps);
      } else {
        Unchanged(Channel(s, x, y));
      }
    }
  }

  lemma LinkDownQuiet(s: State, a: Name, b: Name, s': State)
    requires Disconnects(s, a, b, s')
    ensures Quiet(s, s')
  {
    hide Trails, UnsubscribeAll, CoversPeer;
    assert s'.channels == s.channels[(a, b) := []][(b, a) := []];
    forall x, y ensures Trails(Channel(s, x, y), Channel(s', x, y)) {
      if (x, y) == (a, b) || (x, y) == (b, a) {
        Emptied(Channel(s, x, y));
      } else {
        Unchanged(Channel(s, x, y));
      }
    }
  }

  lemma TookQuiet(s: State, a: Name, b: Name, p: Packet, s': State, back: seq<Packet>)
    requires TookPacket(s, a, b, p, s', back)
    ensures Quiet(s, s') && Follows(Channel(s, a, b), 1, Channel(s', a, b))
  {
    hide TableOk, Noted, Trails, Follows;
    forall x, y ensures Trails(Channel(s, x, y), Channel(s', x, y)) {
      if (x, y) == (a, b) {
        Popped(p, Channel(s', a, b));
      } else if (x, y) == (b, a) {
        FollowsItself(Channel(s, x, y), back);
      } else {
        Unchanged(Channel(s, x, y));
      }
    }
    Popped(p, Channel(s', a, b));
  }

  lemma Popped(p: Packet, rest: seq<Packet>)
    ensures Follows([p] + rest, 1, rest) && Trails([p] + rest, rest)
  {
  }

  lemma MarksCount(n: Name, cs: seq<Client>, e: Event, t: Copy)
    ensures Marks(n, cs, e)[t] == if t.0 == n && t.2 == e && t.1 in cs then 1 else 0
  {
    assert t == (t.0, t.1, t.2);
  }

  /** A fan-out of a new event keeps it to one copy. */
  lemma OneCopyMore(ms: multiset<Copy>, n: Name, cs: seq<Client>, e: Event)
    requires OneCopy(ms) && NoIdTwice(cs) && forall c :: (n, c, e) !in ms
    ensures OneCopy(ms + Marks(n, cs, e))
  {
    hide Marks, NoIdTwice;
    var now := ms + Marks(n, cs, e);
    forall t: Copy | t in now ensures now[t] == 1 {
      MarksCount(n, cs, e, t);
      assert t == (t.0, t.1, t.2);
    }
    forall x, c, d, f | (x, c, f) in now && (x, d, f) in now && c.id == d.id ensures c == d {
      MarksCount(n, cs, e, (x, c, f));
      MarksCount(n, cs, e, (x, d, f));
      if c in cs && d in cs {
        OneOfTwo(cs, c, d);
      }
    }
  }

  lemma ReceiveWrites(s: State, a: Name, b: Name, locals: seq<Client>, s': State)
    requires Receives(s, a, b, locals, s')
    ensures Channel(s, a, b) != [] && a != b && s'.origin == s.origin && s'.sent == s.sent
    ensures var p := Channel(s, a, b)[0];
            && (s'.written == if p.Pub? && p.event.Some? then s.written + Marks(b, locals, p.event.value)
                              else s.written)
            && (p.Pub? ==> b in s.nodes && !Blank(p.message.topic)
                           && OneEach(locals, s.nodes[b].local.Answers(p.message.topic)))
  {
    hide OneEach, Marks, Blank, DropStep, Replays, SubscribeAll, UnsubscribeAll;
    var p := Channel(s, a, b)[0];
    if p.Pub? && p.event.None? {
      assert s.written + multiset{} == s.written;
    }
  }

  lemma ReceiveKeepsInv(s: State, a: Name, b: Name, locals: seq<Client>, s': State)
    requires Sane(s) && Inv(s) && Receives(s, a, b, locals, s')
    ensures Inv(s')
  {
    hide Receives, Sane, Pending, Quiet, Follows, TookPacket, OncePerEvent, Blank, Marks, OneCopy;
    var back := Took(s, a, b, locals, s');
    ReceiveWrites(s, a, b, locals, s');
    var p := Channel(s, a, b)[0];
    TookQuiet(s, a, b, p, s', back);
    QuietChannels(s, s');
    if p.Pub? && p.event.Some? {
      var e := p.event.value;
      HeadOnly(Channel(s, a, b), e, Channel(s', a, b));
      WrittenAtReceive(s, a, b, e, locals, s');
    }
  }

  lemma WrittenAtReceive(s: State, a: Name, b: Name, e: Event, locals: seq<Client>, s': State)
    requires WrittenOnce(s) && e in s.origin && s.origin[e] == a && a != b && s'.origin == s.origin
    requires Pending(Channel(s, a, b), e) && !Pending(Channel(s', a, b), e) && NoIdTwice(locals)
    requires forall x, y, e | Pending(Channel(s', x, y), e) :: Pending(Channel(s, x, y), e)
    requires s'.written == s.written + Marks(b, locals, e)
    ensures WrittenOnce(s')
  {
    hide Pending, Marks, Channel, NoIdTwice, OneCopy;
    OneCopyMore(s.written, b, locals, e);
    forall n, c, x | (n, c, x) in s'.written
      ensures x in s'.origin && (s'.origin[x] != n ==> !Pending(Channel(s', s'.origin[x], n), x))
    {
      MarksCount(b, locals, e, (n, c, x));
    }
  }

  lemma HeadOnly(was: seq<Packet>, e: Event, now: seq<Packet>)
    requires was != [] && Carries(was[0], e) && OncePerEvent(was) && Follows(was, 1, now)
    ensures Pending(was, e) && !Pending(now, e)
  {
    FollowsFacts(was, 1, now);
    assert was[0] in was;
    forall p | p in was[1..] ensures !Carries(p, e) {
      var i :| 0 <= i < |was| - 1 && was[1..][i] == p;
      assert was[i + 1] == p;
    }
  }

  lemma PublishKeepsInv(s: State, a: Name, m: Message, e: Event, locals: seq<Client>, remotes: seq<Client>, s': State)
    requires Inv(s) && ClientPublishes(s, a, m, e, locals, remotes, s')
    ensures Inv(s')
  {
    hide Blank, RetainStep, Pending, OncePerEvent, Broadcast, Forwarded, Marks, OneCopy, NoIdTwice;
    var to := Forwarded(s.nodes[a], remotes);
    forall x, y
      ensures OncePerEvent(Channel(s', x, y))
      ensures forall f ::
                Pending(Channel(s', x, y), f) <==> Pending(Channel(s, x, y), f) || (f == e && x == a && y in to)
    {
      PublishPends(s, a, m, e, locals, remotes, s', x, y);
    }
    PublishSent(s, a, remotes, e, s');
    PublishWritten(s, a, locals, e, s');
  }

  lemma PublishPends(s: State, a: Name, m: Message, e: Event, locals: seq<Client>, remotes: seq<Client>, s': State,
                     x: Name, y: Name)
    requires Inv(s) && ClientPublishes(s, a, m, e, locals, remotes, s')
    ensures OncePerEvent(Channel(s', x, y))
    ensures var to := Forwarded(s.nodes[a], remotes);
            forall f :: Pending(Channel(s', x, y), f) <==> Pending(Channel(s, x, y), f) || (f == e && x == a && y in to)
  {
    hide OneEach, Blank, RetainStep, Pending, OncePerEvent, Broadcast, Tells, Forwarded, Marks, OneCopy;
    var to := Forwarded(s.nodes[a], remotes);
    Telling(s, a, s'.nodes[a].local, to, Pub(m, Some(e)), s');
    ToldChannel(s, a, to, Pub(m, Some(e)), s', x, y);
    if x == a && y in to {
      OneMore(Channel(s, x, y), Pub(m, Some(e)), e);
    }
  }

  lemma ToldChannel(s: State, a: Name, to: set<Name>, p: Packet, s': State, x: Name, y: Name)
    requires Tells(s, a, to, p, s')
    ensures Channel(s', x, y) == if x == a && y in to then Channel(s, x, y) + [p] else Channel(s, x, y)
  {
  }

  lemma OneMore(ps: seq<Packet>, p: Packet, e: Event)
    requires Carries(p, e) && OncePerEvent(ps) && !Pending(ps, e)
    ensures OncePerEvent(ps + [p])
    ensures forall f :: Pending(ps + [p], f) <==> Pending(ps, f) || f == e
  {
    forall f ensures Pending(ps + [p], f) <==> Pending(ps, f) || f == e {
      if Pending(ps, f) {
        var q :| q in ps && Carries(q, f);
        assert q in ps + [p];
      }
      assert p in ps + [p];
    }
    var qs := ps + [p];
    forall i, j, f | 0 <= i < j < |qs| && Carries(qs[i], f) ensures !Carries(qs[j], f) {
      assert qs[i] == ps[i] && ps[i] in ps;
    }
  }

  lemma PublishSent(s: State, a: Name, remotes: seq<Client>, e: Event, s': State)
    requires SentOnce(s) && e !in s.origin && s'.origin == s.origin[e := a] && NoIdTwice(remotes)
    requires s'.sent == s.sent + Marks(a, remotes, e)
    ensures SentOnce(s')
  {
    hide Marks, NoIdTwice, OneCopy;
    OneCopyMore(s.sent, a, remotes, e);
    forall x, c, f | (x, c, f) in s'.sent ensures f in s'.origin && s'.origin[f] == x {
      MarksCount(a, remotes, e, (x, c, f));
    }
  }

  lemma PublishWritten(s: State, a: Name, locals: seq<Client>, e: Event, s': State)
    requires WrittenOnce(s) && e !in s.origin && s'.origin == s.origin[e := a] && NoIdTwice(locals)
    requires forall x, y, f | f != e :: Pending(Channel(s', x, y), f) <==> Pending(Channel(s, x, y), f)
    requires s'.written == s.written + Marks(a, locals, e)
    ensures WrittenOnce(s')
  {
    hide Pending, Marks, Channel, NoIdTwice, OneCopy;
    OneCopyMore(s.written, a, locals, e);
    forall n, c, f | (n, c, f) in s'.written
      ensures f in s'.origin && (s'.origin[f] != n ==> !Pending(Channel(s', s'.origin[f], n), f))
    {
      MarksCount(a, locals, e, (n, c, f));
    }
  }

  lemma StepKeepsInv(s: State, step: Step, s': State)
    requires Sane(s) && Inv(s) && Next(s, step, s')
    ensures Inv(s')
  {
    hide Sane, Inv, Quiet;
    match step
    case DoSubscribe(a, c, topics) => SubscribeQuiet(s, a, c, topics, s'); QuietKeeps(s, s');
    case DoUnsubscribe(a, id, topics) =>
      BroadcastQuiet(s, a, s.nodes[a].peers.Keys, Unsub(topics), s');
      QuietKeeps(s, s');
    case DoDisconnect(a, id, topics) => NothingSent(s, s'); QuietKeeps(s, s');
    case DoPublish(a, m, e, locals, remotes) => PublishKeepsInv(s, a, m, e, locals, remotes, s');
    case DoReceive(a, b, locals) => ReceiveKeepsInv(s, a, b, locals, s');
    case LinkUp(a, b, c) => LinkUpQuiet(s, a, b, c, s'); QuietKeeps(s, s');
    case LinkDown(a, b) => LinkDownQuiet(s, a, b, s'); QuietKeeps(s, s');
  }

  lemma NothingSent(s: State, s': State)
    requires s'.channels == s.channels
    ensures Quiet(s, s')
  {
    hide Trails;
    forall x, y ensures Trails(Channel(s, x, y), Channel(s', x, y)) {
      Unchanged(Channel(s, x, y));
    }
  }

  lemma {:induction false} RunInv(steps: seq<Step>, ss: seq<State>, k: nat)
    requires Run(steps, ss) && k <= |steps|
    ensures Inv(ss[k])
  {
    hide Next;
    if k > 0 {
      hide Inv, Sane;
      RunInv(steps, ss, k - 1);
      RunSane(steps, ss, k - 1);
      StepKeepsInv(ss[k - 1], steps[k - 1], ss[k]);
    } else {
      assert forall x, y :: Channel(ss[0], x, y) == [];
    }
  }
  /** In every state of every run, however stale the interest tables are: an event is written at most once to
      a connection, to one connection of each client id of a node and to one of each peer, and only by the
      node it was published at to peers. */
  lemma AtMostOnce(steps: seq<Step>, ss: seq<State>, k: nat, x: Name, c: Client, d: Client, e: Event)
    requires Run(steps, ss) && k <= |steps|
    ensures ss[k].sent[(x, c, e)] <= 1 && ss[k].written[(x, c, e)] <= 1
    ensures c.id == d.id && c != d ==> ss[k].sent[(x, c, e)] + ss[k].sent[(x, d, e)] <= 1
    ensures c.id == d.id && c != d ==> ss[k].written[(x, c, e)] + ss[k].written[(x, d, e)] <= 1
    ensures ss[k].sent[(x, c, e)] > 0 ==> e in ss[k].origin && ss[k].origin[e] == x
  {
    hide Next, Homed, Single, Init, Pending;
    RunInv(steps, ss, k);
    AtMostOne(ss[k].sent, x, c, d, e);
    AtMostOne(ss[k].written, x, c, d, e);
    assert (x, c, e) in ss[k].sent || ss[k].sent[(x, c, e)] == 0;
  }

  lemma AtMostOne(ms: multiset<Copy>, x: Name, c: Client, d: Client, e: Event)
    requires OneCopy(ms)
    ensures ms[(x, c, e)] <= 1 && ms[(x, d, e)] <= 1
    ensures c.id == d.id && c != d ==> ms[(x, c, e)] + ms[(x, d, e)] <= 1
  {
    assert (x, c, e) in ms || ms[(x, c, e)] == 0;
    assert (x, d, e) in ms || ms[(x, d, e)] == 0;
  }

  // ---------------------------------------------------------------- which connection is served

  /** The connection that holds a matching filter is always among the answers. */
  lemma MatchAnswers(t: Table, f: string, id: string, topic: string)
    requires TableOk(t) && (f, id) in t.live && !Blank(topic) && !Wild(topic) && Matches(f, topic)
    ensures Answering(t.Answers(topic), t.live[(f, id)]) && t.live[(f, id)].id == id
  {
    hide Blank, CopyHit, LiveHit, CopiesUp, Wild, Matches;
    HitsAreMatches(f, topic);
    HitCopiesUp(f, topic);
    var pr := (f, id);
    assert pr in t.Answers(topic) && t.Answers(topic)[pr] == t.live[pr];
  }

  /** Exactly when the connection that holds a matching filter is written to, in whatever order the index
      answers: no answer of its client id names another connection. */
  lemma AlwaysServed(t: Table, f: string, id: string, topic: string)
    requires TableOk(t) && (f, id) in t.live && !Blank(topic) && !Wild(topic) && Matches(f, topic)
    ensures var h := t.live[(f, id)];
            (forall cs | OneEach(cs, t.Answers(topic)) :: h in cs) <==> Undisputed(t.Answers(topic), h)
  {
    hide TableOk, Blank, Wild, Matches, Undisputed, Answering, OneEach, Table.Answers;
    MatchAnswers(t, f, id, topic);
    AlwaysWritten(t.Answers(topic), t.live[(f, id)]);
  }

  /** A copy of a "#" filter that outlived its subscription names another connection and answers the topic. */
  ghost predicate Displaced(t: Table, topic: string, h: Client)
    requires !Blank(topic)
  {
    exists pr :: pr in t.copies && pr !in t.live && pr.1 == h.id && t.copies[pr] != h && CopyHit(pr.0, topic)
  }

  /** For a client with one session this is exactly when no outlived copy of an earlier session answers. */
  lemma SessionServed(t: Table, f: string, id: string, topic: string)
    requires TableOk(t) && (f, id) in t.live && !Blank(topic) && !Wild(topic) && Matches(f, topic)
    requires forall pr | pr in t.live && pr.1 == id :: t.live[pr] == t.live[(f, id)]
    ensures var h := t.live[(f, id)];
            (forall cs | OneEach(cs, t.Answers(topic)) :: h in cs) <==> !Displaced(t, topic, h)
  {
    hide Undisputed, OneEach, Matches, Table.Answers, Displaced;
    var h := t.live[(f, id)];
    AlwaysServed(t, f, id, topic);
    OnlyDisplaced(t, topic, h);
  }

  lemma OnlyDisplaced(t: Table, topic: string, h: Client)
    requires TableOk(t) && !Blank(topic) && !Wild(topic)
    requires forall pr | pr in t.live && pr.1 == h.id :: t.live[pr] == h
    ensures Undisputed(t.Answers(topic), h) <==> !Displaced(t, topic, h)
  {
    hide Blank, LiveHit, CopyHit, Wild, CopiesUp;
    if pr :| pr in t.copies && pr !in t.live && pr.1 == h.id && t.copies[pr] != h && CopyHit(pr.0, topic) {
      assert pr in t.Answers(topic) && t.Answers(topic)[pr] == t.copies[pr];
    }
  }

  // ---------------------------------------------------------------- delivery

  /** Connection h holds filter f at node a, and no other connection of its client answers the topic. */
  ghost predicate Served(s: State, a: Name, f: string, h: Client, topic: string) {
    && a in s.nodes && !Blank(topic)
    && (f, h.id) in s.nodes[a].local.live && s.nodes[a].local.live[(f, h.id)] == h
    && Undisputed(s.nodes[a].local.Answers(topic), h)
  }

  /** The connection has the event, or the packet that brings it is on the channel from its node. */
  ghost predicate OnItsWay(s: State, b: Name, a: Name, h: Client, m: Message, e: Event) {
    (a, h, e) in s.written || Pub(m, Some(e)) in Channel(s, b, a)
  }

  lemma ServedIsWritten(s: State, a: Name, f: string, h: Client, topic: string, locals: seq<Client>)
    requires Sane(s) && Served(s, a, f, h, topic) && Matches(f, topic) && !Wild(topic)
    requires OneEach(locals, s.nodes[a].local.Answers(topic))
    ensures h in locals
  {
    hide TableOk, OneEach, Answering, Undisputed, Table.Answers, Matches, Wild, Blank;
    MatchAnswers(s.nodes[a].local, f, h.id, topic);
    AnswerWritten(locals, s.nodes[a].local.Answers(topic), h);
  }

  lemma WrittenMark(s: State, a: Name, cs: seq<Client>, e: Event, s': State, h: Client)
    requires s'.written == s.written + Marks(a, cs, e) && h in cs
    ensures (a, h, e) in s'.written
  {
    hide Marks;
    MarksCount(a, cs, e, (a, h, e));
  }

  lemma PublishPuts(s: State, b: Name, m: Message, e: Event, locals: seq<Client>, remotes: seq<Client>, s': State,
                    x: Name)
    requires ClientPublishes(s, b, m, e, locals, remotes, s') && x in Forwarded(s.nodes[b], remotes)
    ensures Pub(m, Some(e)) in Channel(s', b, x)
  {
    hide OneEach, Blank, RetainStep, Marks, Forwarded;
    assert Last(Channel(s', b, x)) == Pub(m, Some(e));
  }

  /** A node whose interest has been made known, and whose current connection is undisputed, is forwarded to. */
  lemma KnownIsForwarded(s: State, b: Name, topic: string, remotes: seq<Client>, a: Name, f: string)
    requires Kept(s) && Linked(s, a, b) && Linked(s, b, a) && Channel(s, a, b) == []
    requires s.nodes[a].local.Held(f) && !Blank(topic) && !Wild(topic) && Matches(f, topic)
    requires Undisputed(s.nodes[b].interest.Answers(topic), s.nodes[b].peers[a])
    requires OneEach(remotes, s.nodes[b].interest.Answers(topic))
    ensures a in Forwarded(s.nodes[b], remotes)
  {
    hide TableOk, OneEach, Table.Answers, Matches, Wild, Blank;
    var i, h := s.nodes[b].interest, s.nodes[b].peers[a];
    assert Covered(s, a, b, f);
    MatchAnswers(i, f, a, topic);
    PeerId(s, b, a);
    AnswerWritten(remotes, i.Answers(topic), h);
  }

  lemma PublishReaches(s: State, b: Name, m: Message, e: Event, locals: seq<Client>, remotes: seq<Client>, s': State,
                       a: Name, f: string, h: Client)
    requires Kept(s) && ClientPublishes(s, b, m, e, locals, remotes, s') && !Wild(m.topic)
    requires Served(s, a, f, h, m.topic) && Matches(f, m.topic)
    requires a == b || (Linked(s, a, b) && Linked(s, b, a) && Channel(s, a, b) == []
                        && Undisputed(s.nodes[b].interest.Answers(m.topic), s.nodes[b].peers[a]))
    ensures OnItsWay(s', b, a, h, m, e)
  {
    hide TableOk, OneEach, Blank, Wild, Matches, RetainStep, Marks, Forwarded, AllCovered, Undisputed, Table.Answers;
    if a == b {
      ServedIsWritten(s, a, f, h, m.topic, locals);
      WrittenMark(s, a, locals, e, s', h);
    } else {
      assert s.nodes[a].local.Held(f);
      KnownIsForwarded(s, b, m.topic, remotes, a, f);
      PublishPuts(s, b, m, e, locals, remotes, s', a);
    }
  }

  predicate Cuts(step: Step, a: Name, b: Name) {
    step == LinkDown(a, b) || step == LinkDown(b, a)
  }

  lemma WrittenGrows(s: State, step: Step, s': State)
    requires Next(s, step, s')
    ensures s.written <= s'.written
  {
    hide OneEach, Blank, RetainStep, DropStep, SubscribeAll, UnsubscribeAll, Replays, Syncs, Marks;
    hide CoversPeer, Forwarded;
  }

  /** A packet stays on its channel until it is taken or the link is cut. */
  lemma PacketStays(s: State, step: Step, s': State, b: Name, a: Name, p: Packet)
    requires Sane(s) && Next(s, step, s') && p in Channel(s, b, a) && !Cuts(step, a, b)
    requires step.DoReceive? && step.a == b && step.b == a ==> Channel(s, b, a)[0] != p
    ensures p in Channel(s', b, a)
  {
    hide OneEach, Blank, RetainStep, DropStep, SubscribeAll, UnsubscribeAll, Replays, Syncs, Receives, TableOk, Marks;
    hide CoversPeer, Forwarded;
    if step.DoReceive? {
      hide Noted;
      var back := Took(s, step.a, step.b, step.locals, s');
    }
  }

  lemma StillOnItsWay(s: State, step: Step, s': State, b: Name, a: Name, f: string, h: Client, m: Message, e: Event)
    requires Sane(s) && Next(s, step, s') && OnItsWay(s, b, a, h, m, e)
    requires Served(s, a, f, h, m.topic) && Matches(f, m.topic) && !Wild(m.topic)
    requires !Cuts(step, a, b)
    ensures OnItsWay(s', b, a, h, m, e)
  {
    hide Sane, Matches, Wild, Receives, Blank, Marks, Served, Channel;
    var p := Pub(m, Some(e));
    WrittenGrows(s, step, s');
    if (a, h, e) !in s.written {
      if step.DoReceive? && step.a == b && step.b == a && Channel(s, b, a)[0] == p {
        TakenIsWritten(s, b, a, f, h, m, e, step.locals, s');
      } else {
        PacketStays(s, step, s', b, a, p);
      }
    }
  }

  lemma TakenIsWritten(s: State, b: Name, a: Name, f: string, h: Client, m: Message, e: Event, locals: seq<Client>,
                       s': State)
    requires Sane(s) && Receives(s, b, a, locals, s') && Channel(s, b, a) != []
    requires Channel(s, b, a)[0] == Pub(m, Some(e))
    requires Served(s, a, f, h, m.topic) && Matches(f, m.topic) && !Wild(m.topic)
    ensures (a, h, e) in s'.written
  {
    hide Receives, Sane, Matches, Wild, Blank, Marks, OneEach, Undisputed, Table.Answers;
    ReceiveWrites(s, b, a, locals, s');
    ServedIsWritten(s, a, f, h, m.topic, locals);
    WrittenMark(s, a, locals, e, s', h);
  }

  /** A connection that keeps its filter stays on the way of the event until it has it. */
  lemma {:induction false} RunOnItsWay(steps: seq<Step>, ss: seq<State>, i: nat, k: nat, a: Name, f: string, h: Client)
    requires Run(steps, ss) && i < k <= |steps| && steps[i].DoPublish? && !Wild(steps[i].m.topic)
    requires OnItsWay(ss[i + 1], steps[i].a, a, h, steps[i].m, steps[i].e) && Matches(f, steps[i].m.topic)
    requires forall j | i <= j < k :: Served(ss[j], a, f, h, steps[i].m.topic) && !Cuts(steps[j], a, steps[i].a)
    ensures OnItsWay(ss[k], steps[i].a, a, h, steps[i].m, steps[i].e)
    decreases k
  {
    hide Next, Matches, Wild, Linked, Sane, OnItsWay, Cuts, Init, Served;
    var b, m, e := steps[i].a, steps[i].m, steps[i].e;
    if k > i + 1 {
      RunOnItsWay(steps, ss, i, k - 1, a, f, h);
      RunSane(steps, ss, k - 1);
      assert Next(ss[k - 1], steps[k - 1], ss[k]);
      StillOnItsWay(ss[k - 1], steps[k - 1], ss[k], b, a, f, h, m, e);
    }
  }

  /** Exactly once: whatever else the cluster does meanwhile, however often its links went down and came back
      before, once the channel from the publishing node has drained, a connection that kept a matching filter
      undisputed has been written the event one time, and no other connection of its client any. */
  lemma DeliveredOnce(steps: seq<Step>, ss: seq<State>, i: nat, k: nat, a: Name, f: string, h: Client)
    requires Run(steps, ss) && i < k <= |steps| && steps[i].DoPublish? && !Wild(steps[i].m.topic)
    requires forall j | 0 <= j < i :: CourteousStep(ss[j], steps[j])
    requires var b := steps[i].a;
             a == b || (Linked(ss[i], a, b) && Linked(ss[i], b, a) && Channel(ss[i], a, b) == [])
    requires Matches(f, steps[i].m.topic)
    requires forall j | i <= j < k :: Served(ss[j], a, f, h, steps[i].m.topic) && !Cuts(steps[j], a, steps[i].a)
    requires Channel(ss[k], steps[i].a, a) == []
    ensures ss[k].written[(a, h, steps[i].e)] == 1
    ensures forall d: Client | d.id == h.id && d != h :: (a, d, steps[i].e) !in ss[k].written
  {
    hide CourteousStep, Matches, Wild, Linked, Sane, AllCovered, Next, Cuts, Init, Served, Channel;
    var b, m, e := steps[i].a, steps[i].m, steps[i].e;
    RunCovered(steps, ss, i);
    assert Next(ss[i], steps[i], ss[i + 1]) && Served(ss[i], a, f, h, m.topic);
    ServedTopic(ss[i], a, f, h, m.topic);
    if a != b {
      AnswersAreCurrent(steps, ss, i, a, b, m.topic);
    }
    StepReaches(ss[i], steps[i], ss[i + 1], a, f, h);
    RunOnItsWay(steps, ss, i, k, a, f, h);
    forall d: Client | d.id == h.id && d != h ensures (a, d, e) !in ss[k].written {
      AtMostOnce(steps, ss, k, a, h, d, e);
    }
    AtMostOnce(steps, ss, k, a, h, h, e);
  }

  lemma ServedTopic(s: State, a: Name, f: string, h: Client, topic: string)
    requires Served(s, a, f, h, topic)
    ensures !Blank(topic)
  {
  }

  lemma StepReaches(s: State, step: Step, s': State, a: Name, f: string, h: Client)
    requires Kept(s) && Next(s, step, s') && step.DoPublish? && !Wild(step.m.topic) && !Blank(step.m.topic)
    requires Served(s, a, f, h, step.m.topic) && Matches(f, step.m.topic)
    requires a == step.a || (Linked(s, a, step.a) && Linked(s, step.a, a) && Channel(s, a, step.a) == []
                             && Undisputed(s.nodes[step.a].interest.Answers(step.m.topic), s.nodes[step.a].peers[a]))
    ensures OnItsWay(s', step.a, a, h, step.m, step.e)
  {
    hide Kept, ClientPublishes, Matches, Wild, OnItsWay, Served, Undisputed;
    PublishReaches(s, step.a, step.m, step.e, step.locals, step.remotes, s', a, f, h);
  }

  lemma SomeRetain(t: Table, m: Message) returns (t': Table)
    requires !Blank(m.topic)
    ensures RetainStep(t, m, t')
  {
    hide Blank, Cleared;
    if !m.retain {
      t' := t;
    } else if m.payload != [] {
      t' := t.Retain(m.topic, m);
    } else if k :| Cleared(t, m.topic, k) {
      t' := t.DropRetained(k);
    } else {
      t' := t;
    }
  }

  /** A publish with any choice that the fan-outs allow is a step. */
  lemma CanPublish(s: State, a: Name, m: Message, e: Event, locals: seq<Client>, remotes: seq<Client>)
    returns (s': State)
    requires a in s.nodes && e !in s.origin && !Blank(m.topic)
    requires OneEach(locals, s.nodes[a].local.Answers(m.topic))
    requires OneEach(remotes, s.nodes[a].interest.Answers(m.topic))
    ensures Next(s, DoPublish(a, m, e, locals, remotes), s') && s'.written == s.written + Marks(a, locals, e)
  {
    hide Blank, OneEach, RetainStep, Marks, Forwarded, Broadcast;
    var n := s.nodes[a];
    var t := SomeRetain(n.local, m);
    s' := State(s.nodes[a := n.(local := t)], Broadcast(s, a, Forwarded(n, remotes), Pub(m, Some(e))),
                s.origin[e := a], s.sent + Marks(a, remotes, e), s.written + Marks(a, locals, e));
  }

  ghost predicate PublishWrites(s: State, a: Name, m: Message, e: Event, h: Client, locals: seq<Client>,
                                remotes: seq<Client>, s': State)
  {
    Next(s, DoPublish(a, m, e, locals, remotes), s') ==> (a, h, e) in s'.written
  }

  /** Exactly when a publish cannot miss the connection that holds a matching filter at its own node, whatever
      order the index answers in; where it can, another connection of the same client id answers too. */
  lemma PublishServes(s: State, a: Name, m: Message, e: Event, f: string, id: string)
    requires Sane(s) && Inv(s) && a in s.nodes && e !in s.origin && !Blank(m.topic) && !Wild(m.topic)
    requires (f, id) in s.nodes[a].local.live && Matches(f, m.topic)
    ensures var h := s.nodes[a].local.live[(f, id)];
            (forall locals, remotes, s' :: PublishWrites(s, a, m, e, h, locals, remotes, s')) <==>
            Undisputed(s.nodes[a].local.Answers(m.topic), h)
  {
    hide TableOk, Inv, Blank, Wild, Matches, Marks, ClientPublishes, OneEach, Table.Answers, Undisputed;
    var t, h := s.nodes[a].local, s.nodes[a].local.live[(f, id)];
    var answers := t.Answers(m.topic);
    if Undisputed(answers, h) {
      MatchAnswers(t, f, id, m.topic);
      forall locals, remotes, s' ensures PublishWrites(s, a, m, e, h, locals, remotes, s') {
        if Next(s, DoPublish(a, m, e, locals, remotes), s') {
          PublishParts(s, a, m, e, locals, remotes, s');
          AnswerWritten(locals, answers, h);
          WrittenMark(s, a, locals, e, s', h);
        }
      }
    } else {
      var locals := Skips(answers, h);
      var remotes := CanBeWritten(s.nodes[a].interest.Answers(m.topic));
      var s' := CanPublish(s, a, m, e, locals, remotes);
      MarksCount(a, locals, e, (a, h, e));
      NotYetWritten(s, a, h, e);
      assert !PublishWrites(s, a, m, e, h, locals, remotes, s');
    }
  }

  lemma PublishParts(s: State, a: Name, m: Message, e: Event, locals: seq<Client>, remotes: seq<Client>, s': State)
    requires Next(s, DoPublish(a, m, e, locals, remotes), s')
    ensures a in s.nodes && !Blank(m.topic) && OneEach(locals, s.nodes[a].local.Answers(m.topic))
    ensures s'.written == s.written + Marks(a, locals, e)
  {
    hide Blank, OneEach, RetainStep, Marks, Forwarded, Broadcast;
  }

  lemma NotYetWritten(s: State, a: Name, h: Client, e: Event)
    requires Inv(s) && e !in s.origin
    ensures (a, h, e) !in s.written
  {
    hide OneCopy, Pending;
  }

  // ---------------------------------------------------------------- only those forwarded to

  /** The event is on its way to the node or has been written to one of its clients. */
  ghost predicate Arrives(s: State, x: Name, e: Event) {
    (exists c :: (x, c, e) in s.written) || exists y :: Pending(Channel(s, y, x), e)
  }

  lemma NotBefore(s: State, x: Name, e: Event)
    requires Inv(s) && e !in s.origin
    ensures !Arrives(s, x, e)
  {
    hide Pending, Channel, OneCopy;
  }

  lemma PublishArrives(s: State, b: Name, m: Message, e: Event, locals: seq<Client>, remotes: seq<Client>, s': State,
                       x: Name)
    requires Inv(s) && ClientPublishes(s, b, m, e, locals, remotes, s') && x != b
    ensures Arrives(s', x, e) ==> x in Forwarded(s.nodes[b], remotes)
    ensures e in s'.origin && s'.origin[e] == b
  {
    hide Pending, Inv, OneEach, Blank, RetainStep, Broadcast, Channel, Marks, Forwarded;
    NotBefore(s, x, e);
    forall c ensures (x, c, e) !in s'.written {
      MarksCount(b, locals, e, (x, c, e));
    }
    if y :| Pending(Channel(s', y, x), e) {
      PublishPends(s, b, m, e, locals, remotes, s', y, x);
    }
  }

  /** Nothing brings an old event to a node that it was not on its way to. */
  lemma StillNotThere(s: State, step: Step, s': State, x: Name, e: Event)
    requires Sane(s) && Inv(s) && Next(s, step, s')
    requires e in s.origin && s.origin[e] != x && !Arrives(s, x, e)
    ensures e in s'.origin && s'.origin[e] == s.origin[e] && !Arrives(s', x, e)
  {
    hide Sane, Inv, Quiet, ClientPublishes, Receives, SubscribeAll, UnsubscribeAll, Broadcast, Connects, Disconnects;
    hide Arrives;
    match step
    case DoSubscribe(a, c, topics) => SubscribeQuiet(s, a, c, topics, s'); QuietStays(s, s', x, e);
    case DoUnsubscribe(a, id, topics) =>
      BroadcastQuiet(s, a, s.nodes[a].peers.Keys, Unsub(topics), s');
      QuietStays(s, s', x, e);
    case DoDisconnect(a, id, topics) => NothingSent(s, s'); QuietStays(s, s', x, e);
    case DoPublish(a, m, f, locals, remotes) => OtherPublish(s, a, m, f, locals, remotes, s', x, e);
    case DoReceive(a, b, locals) => ReceiveStays(s, a, b, locals, s', x, e);
    case LinkUp(a, b, c) =>
      LinkUpQuiet(s, a, b, c, s');
      LinkSame(s, step, s');
      QuietStays(s, s', x, e);
    case LinkDown(a, b) =>
      LinkDownQuiet(s, a, b, s');
      LinkSame(s, step, s');
      QuietStays(s, s', x, e);
  }

  lemma LinkSame(s: State, step: Step, s': State)
    requires Next(s, step, s') && (step.LinkUp? || step.LinkDown?)
    ensures s'.origin == s.origin && s'.written == s.written && s'.sent == s.sent
  {
    hide Syncs, UnsubscribeAll, CoversPeer;
  }

  lemma QuietStays(s: State, s': State, x: Name, e: Event)
    requires Inv(s) && Quiet(s, s') && s'.origin == s.origin && s'.written == s.written
    requires !Arrives(s, x, e)
    ensures !Arrives(s', x, e)
  {
    hide Pending, Quiet, Inv, Channel;
    QuietChannels(s, s');
  }

  lemma OtherPublish(s: State, a: Name, m: Message, f: Event, locals: seq<Client>, remotes: seq<Client>, s': State,
                     x: Name, e: Event)
    requires Inv(s) && ClientPublishes(s, a, m, f, locals, remotes, s') && e in s.origin && !Arrives(s, x, e)
    ensures e in s'.origin && s'.origin[e] == s.origin[e] && !Arrives(s', x, e)
  {
    hide Pending, Inv, OneEach, Blank, RetainStep, Broadcast, Channel, Marks, Forwarded;
    forall c ensures (x, c, e) !in s'.written {
      MarksCount(a, locals, f, (x, c, e));
    }
    forall y ensures !Pending(Channel(s', y, x), e) {
      PublishPends(s, a, m, f, locals, remotes, s', y, x);
    }
  }

  lemma ReceiveStays(s: State, a: Name, b: Name, locals: seq<Client>, s': State, x: Name, e: Event)
    requires Sane(s) && Inv(s) && Receives(s, a, b, locals, s') && e in s.origin && !Arrives(s, x, e)
    ensures e in s'.origin && s'.origin[e] == s.origin[e] && !Arrives(s', x, e)
  {
    hide Pending, Inv, Sane, Receives, Quiet, Follows, TookPacket, Channel, OneEach, Blank, Marks;
    var back := Took(s, a, b, locals, s');
    ReceiveWrites(s, a, b, locals, s');
    var p := Channel(s, a, b)[0];
    TookQuiet(s, a, b, p, s', back);
    QuietChannels(s, s');
    if c :| (x, c, e) in s'.written && p.Pub? && p.event.Some? {
      MarksCount(b, locals, p.event.value, (x, c, e));
      HeadPends(Channel(s, a, b));
    }
  }

  lemma HeadPends(ps: seq<Packet>)
    requires ps != [] && ps[0].Pub? && ps[0].event.Some?
    ensures Pending(ps, ps[0].event.value)
  {
    assert ps[0] in ps && Carries(ps[0], ps[0].event.value);
  }

  /** The converse of delivery, over every run: an event is on its way to another node, or written there,
      only if that node was among those forwarded to when it was published. */
  lemma {:induction false} OnlyForwarded(steps: seq<Step>, ss: seq<State>, i: nat, k: nat, x: Name)
    requires Run(steps, ss) && i < k <= |steps| && steps[i].DoPublish? && x != steps[i].a
    ensures steps[i].a in ss[i].nodes
    ensures Arrives(ss[k], x, steps[i].e) ==> x in Forwarded(ss[i].nodes[steps[i].a], steps[i].remotes)
    ensures steps[i].e in ss[k].origin && ss[k].origin[steps[i].e] == steps[i].a
    decreases k
  {
    hide Sane, Inv, Arrives, ClientPublishes, Next, Init, OneEach, Forwarded, Blank;
    var b, m, e := steps[i].a, steps[i].m, steps[i].e;
    assert Next(ss[k - 1], steps[k - 1], ss[k]);
    RunInv(steps, ss, k - 1);
    if k == i + 1 {
      PublishIs(ss[i], steps[i], ss[k]);
      PublishNames(ss[i], b, m, e, steps[i].locals, steps[i].remotes, ss[k]);
      PublishArrives(ss[i], b, m, e, steps[i].locals, steps[i].remotes, ss[k], x);
    } else {
      OnlyForwarded(steps, ss, i, k - 1, x);
      RunSane(steps, ss, k - 1);
      if Arrives(ss[k - 1], x, e) {
        OriginStays(ss[k - 1], steps[k - 1], ss[k], e);
      } else {
        StillNotThere(ss[k - 1], steps[k - 1], ss[k], x, e);
      }
    }
  }

  lemma PublishIs(s: State, step: Step, s': State)
    requires Next(s, step, s') && step.DoPublish?
    ensures ClientPublishes(s, step.a, step.m, step.e, step.locals, step.remotes, s')
  {
    hide ClientPublishes;
  }

  lemma PublishNames(s: State, b: Name, m: Message, e: Event, locals: seq<Client>, remotes: seq<Client>, s': State)
    requires ClientPublishes(s, b, m, e, locals, remotes, s')
    ensures b in s.nodes && !Blank(m.topic) && e !in s.origin
  {
  }

  lemma OriginStays(s: State, step: Step, s': State, e: Event)
    requires Next(s, step, s') && e in s.origin
    ensures e in s'.origin && s'.origin[e] == s.origin[e]
  {
    hide OneEach, Blank, RetainStep, DropStep, SubscribeAll, UnsubscribeAll, Replays, Syncs, Broadcast, Marks;
    hide CoversPeer, Forwarded;
  }

  /** Without any assumption on the interest tables: once the channel has drained, a connection at another
      node that kept a matching filter undisputed has the event, once, if and only if the publish was written
      to the current connection of its node. */
  lemma DeliveredExactly(steps: seq<Step>, ss: seq<State>, i: nat, k: nat, a: Name, f: string, h: Client)
    requires Run(steps, ss) && i < k <= |steps| && steps[i].DoPublish? && !Wild(steps[i].m.topic) && a != steps[i].a
    requires steps[i].a in ss[i].nodes && Matches(f, steps[i].m.topic)
    requires forall j | i <= j < k :: Served(ss[j], a, f, h, steps[i].m.topic) && !Cuts(steps[j], a, steps[i].a)
    requires Channel(ss[k], steps[i].a, a) == []
    ensures ss[k].written[(a, h, steps[i].e)] ==
            if a in Forwarded(ss[i].nodes[steps[i].a], steps[i].remotes) then 1 else 0
  {
    hide Init, Matches, Wild, Linked, Cuts, ClientPublishes, OneEach, Blank, Receives, Forwarded, Served;
    var b, m, e := steps[i].a, steps[i].m, steps[i].e;
    assert Next(ss[i], steps[i], ss[i + 1]);
    AtMostOnce(steps, ss, k, a, h, h, e);
    if a in Forwarded(ss[i].nodes[b], steps[i].remotes) {
      PublishPuts(ss[i], b, m, e, steps[i].locals, steps[i].remotes, ss[i + 1], a);
      RunOnItsWay(steps, ss, i, k, a, f, h);
    } else {
      OnlyForwarded(steps, ss, i, k, a);
    }
  }
}
