/** Interest coverage: what a node's clients hold, its connected peers know or are about to be told. */
module Coverage {
  import opened Topics
  import opened Table
  import opened Fanout
  import opened Cluster

  // ---------------------------------------------------------------- tables

  ghost predicate IdsAgree(t: Table) {
    && (forall pr | pr in t.live :: t.live[pr].id == pr.1)
    && (forall pr | pr in t.copies :: t.copies[pr].id == pr.1)
  }

  ghost predicate TableOk(t: Table) {
    t.Ok() && IdsAgree(t)
  }

  lemma SubscribeMeans(t: Table, f: string, c: Client)
    requires TableOk(t)
    ensures var t' := t.Subscribe(f, c.id, c);
            && TableOk(t')
            && (forall pr: Pair :: pr in t'.live <==> pr in t.live || pr == (f, c.id))
  {
    hide Blank, CopiesUp;
    t.SubscribeOk(f, c.id, c);
  }

  lemma UnsubscribeMeans(t: Table, f: string, id: string)
    requires TableOk(t)
    ensures var t' := t.Unsubscribe(f, id);
            && TableOk(t')
            && (forall pr: Pair :: pr in t'.live <==> pr in t.live && !(pr == (f, id) && Table.Removable(f)))
  {
    hide Blank, CopiesUp, Table.Removable;
    t.UnsubscribeOk(f, id);
  }

  lemma {:induction false} SubscribeAllMeans(t: Table, topics: seq<string>, c: Client)
    requires TableOk(t)
    ensures var t' := SubscribeAll(t, topics, c);
            && TableOk(t')
            && (forall pr: Pair :: pr in t'.live <==> pr in t.live || (pr.0 in topics && pr.1 == c.id))
    decreases |topics|
  {
    if topics != [] {
      hide TableOk;
      SubscribeAllMeans(t, Parent(topics), c);
      SubscribeMeans(SubscribeAll(t, Parent(topics), c), Last(topics), c);
    }
  }

  lemma {:induction false} UnsubscribeAllMeans(t: Table, topics: seq<string>, id: string)
    requires TableOk(t)
    ensures var t' := UnsubscribeAll(t, topics, id);
            && TableOk(t')
            && (forall pr: Pair ::
                  pr in t'.live <==> pr in t.live && !(pr.0 in topics && pr.1 == id && Table.Removable(pr.0)))
    decreases |topics|
  {
    if topics != [] {
      hide TableOk, Table.Removable;
      UnsubscribeAllMeans(t, Parent(topics), id);
      UnsubscribeMeans(UnsubscribeAll(t, Parent(topics), id), Last(topics), id);
    }
  }

  lemma RetainOk(t: Table, m: Message, t': Table)
    requires TableOk(t) && !Blank(m.topic)
    requires RetainStep(t, m, t') || DropStep(t, m.topic, t')
    ensures TableOk(t') && t'.live == t.live && t'.copies == t.copies
  {
  }

  // ---------------------------------------------------------------- what a channel will bring about

  /** Is the filter noted after this packet? */
  predicate Noted(before: bool, p: Packet, f: string) {
    match p
    case Sub(topics) => before || f in topics
    case Unsub(topics) => before && !(f in topics && Table.Removable(f))
    case Pub(_, _) => before
  }

  predicate NotedAfter(before: bool, ps: seq<Packet>, f: string) {
    if ps == [] then before else Noted(NotedAfter(before, ps[..|ps| - 1], f), Last(ps), f)
  }

  lemma {:induction false} NotedFirst(before: bool, ps: seq<Packet>, f: string)
    requires ps != []
    ensures NotedAfter(before, ps, f) == NotedAfter(Noted(before, ps[0], f), ps[1..], f)
  {
    hide Noted;
    var n := |ps| - 1;
    if n > 0 {
      NotedFirst(before, ps[..n], f);
      assert ps[1..][..n - 1] == ps[..n][1..];
    } else {
      assert ps == [ps[0]] && ps[1..] == [] && ps[..n] == [];
    }
  }

  lemma {:induction false} NotedMore(before: bool, ps: seq<Packet>, more: seq<Packet>, f: string)
    ensures NotedAfter(before, ps + more, f) == NotedAfter(NotedAfter(before, ps, f), more, f)
  {
    hide Noted;
    if more == [] {
      assert ps + more == ps;
    } else {
      var n := |more| - 1;
      NotedMore(before, ps, more[..n], f);
      assert (ps + more)[..|ps + more| - 1] == ps + more[..n];
    }
  }

  lemma {:induction false} PubsNoteNothing(before: bool, ps: seq<Packet>, f: string)
    requires forall p | p in ps :: p.Pub?
    ensures NotedAfter(before, ps, f) == before
  {
    if ps != [] {
      assert Last(ps) in ps;
      PubsNoteNothing(before, ps[..|ps| - 1], f);
    }
  }

  lemma ReplaysArePubs(t: Table, topics: seq<string>, back: seq<Packet>)
    requires Replays(t, topics, back)
    ensures forall p | p in back :: p.Pub? && p.event == None
  {
    hide Resends;
  }

  /** A list of SUBSCRIBEs notes what it names and forgets nothing. */
  lemma {:induction false} SubsNote(before: bool, fs: seq<string>, f: string)
    ensures NotedAfter(before, Announced(fs), f) <==> before || f in fs
  {
    if fs != [] {
      var n := |fs| - 1;
      SubsNote(before, fs[..n], f);
      assert Announced(fs)[..n] == Announced(fs[..n]);
      assert fs == fs[..n] + [fs[n]];
    }
  }

  // ---------------------------------------------------------------- coverage

  predicate Covered(s: State, a: Name, b: Name, f: string)
    requires b in s.nodes
  {
    NotedAfter((f, a) in s.nodes[b].interest.live, Channel(s, a, b), f)
  }

  ghost predicate AllCovered(s: State) {
    forall a, b, f | Linked(s, a, b) && s.nodes[a].local.Held(f) :: Covered(s, a, b, f)
  }

  ghost predicate Sane(s: State) {
    && (forall a | a in s.nodes :: TableOk(s.nodes[a].local) && TableOk(s.nodes[a].interest))
    && (forall a, b | Linked(s, a, b) :: a != b)
    && (forall a, b | a in s.nodes && b in s.nodes[a].peers :: s.nodes[a].peers[b].id == b)
  }

  /** The pending packets decide: the last word on f, or, without one, what b has noted. */
  predicate LastWordIsSub(ps: seq<Packet>, f: string) {
    ps != [] && (if Last(ps).Sub? && f in Last(ps).topics then true
                 else if Last(ps).Unsub? && f in Last(ps).topics then false
                 else LastWordIsSub(ps[..|ps| - 1], f))
  }

  predicate Mentioned(ps: seq<Packet>, f: string) {
    exists p :: p in ps && !p.Pub? && f in p.topics
  }

  lemma {:induction false} CoveredMeans(before: bool, ps: seq<Packet>, f: string)
    requires Table.Removable(f)
    ensures NotedAfter(before, ps, f) <==> LastWordIsSub(ps, f) || (!Mentioned(ps, f) && before)
  {
    hide Table.Removable;
    if ps != [] {
      var front := ps[..|ps| - 1];
      CoveredMeans(before, front, f);
      assert ps == front + [Last(ps)];
      assert Mentioned(ps, f) <==> Mentioned(front, f) || (!Last(ps).Pub? && f in Last(ps).topics) by {
        if Mentioned(ps, f) {
          var p :| p in ps && !p.Pub? && f in p.topics;
          assert p in front || p == Last(ps);
        }
        assert Last(ps) in ps;
      }
    }
  }

  // ---------------------------------------------------------------- every step keeps it

  ghost predicate Kept(s: State) {
    Sane(s) && AllCovered(s)
  }

  /** No other client of node a still holds a filter that the packet takes away. */
  ghost predicate Courteous(t: Table, id: string, topics: seq<string>) {
    forall pr | pr in t.live && pr.0 in topics && Table.Removable(pr.0) :: pr.1 == id
  }

  ghost predicate CourteousStep(s: State, step: Step) {
    step.DoUnsubscribe? && step.a in s.nodes ==>
      Courteous(s.nodes[step.a].local, step.id, step.topics) || (forall b :: !Linked(s, step.a, b))
  }

  lemma SaneStill(s: State, s': State)
    requires Sane(s) && s'.nodes.Keys == s.nodes.Keys
    requires forall a | a in s.nodes :: TableOk(s'.nodes[a].local) && TableOk(s'.nodes[a].interest)
    requires forall a, b | a in s.nodes && b in s'.nodes[a].peers ::
               b in s.nodes[a].peers && s'.nodes[a].peers[b] == s.nodes[a].peers[b]
    ensures Sane(s')
  {
    hide TableOk;
    forall a, b | Linked(s', a, b) ensures a != b {
      assert Linked(s, a, b);
    }
  }

  /** Only the local table of node a changed, and p went onto the channel to each peer in `to`. */
  ghost predicate Tells(s: State, a: Name, to: set<Name>, p: Packet, s': State) {
    && a in s.nodes && s'.nodes.Keys == s.nodes.Keys
    && (forall x | x in s.nodes :: s'.nodes[x].interest == s.nodes[x].interest && s'.nodes[x].peers == s.nodes[x].peers)
    && (forall x | x in s.nodes && x != a :: s'.nodes[x].local == s.nodes[x].local)
    && (forall x, y :: Channel(s', x, y) == if x == a && y in to then Channel(s, x, y) + [p] else Channel(s, x, y))
  }

  lemma Telling(s: State, a: Name, local: Table, to: set<Name>, p: Packet, s': State)
    requires a in s.nodes && s'.nodes == s.nodes[a := s.nodes[a].(local := local)]
    requires s'.channels == Broadcast(s, a, to, p)
    ensures Tells(s, a, to, p, s') && s'.nodes[a].local == local
  {
  }

  lemma Told(s: State, a: Name, to: set<Name>, p: Packet, s': State, x: Name, b: Name, f: string)
    requires Tells(s, a, to, p, s') && b in s.nodes
    ensures Covered(s', x, b, f) == if x == a && b in to then Noted(Covered(s, x, b, f), p, f) else Covered(s, x, b, f)
  {
    hide Noted;
    NotedMore((f, x) in s.nodes[b].interest.live, Channel(s, x, b), [p], f);
    assert NotedAfter(Covered(s, x, b, f), [p][..0], f) == Covered(s, x, b, f);
  }

  lemma SameLinks(s: State, a: Name, to: set<Name>, p: Packet, s': State, x: Name, b: Name)
    requires Tells(s, a, to, p, s')
    ensures Linked(s', x, b) <==> Linked(s, x, b)
    ensures Linked(s, a, b) <==> b in s.nodes && b in s.nodes[a].peers
  {
  }

  lemma OtherHolds(s: State, a: Name, to: set<Name>, p: Packet, s': State, x: Name, b: Name)
    requires Tells(s, a, to, p, s') && Linked(s, x, b)
    ensures x != a ==> s'.nodes[x].local == s.nodes[x].local
  {
  }

  lemma SubscribeKeeps(s: State, a: Name, c: Client, topics: seq<string>, s': State)
    requires Kept(s) && ClientSubscribes(s, a, c, topics, s')
    ensures AllCovered(s')
  {
    hide TableOk, SubscribeAll, Tells, Covered, Broadcast;
    var t, t', to := s.nodes[a].local, SubscribeAll(s.nodes[a].local, topics, c), s.nodes[a].peers.Keys;
    SubscribeAllMeans(t, topics, c);
    Telling(s, a, t', to, Sub(topics), s');
    forall x, b, f | Linked(s', x, b) && s'.nodes[x].local.Held(f) ensures Covered(s', x, b, f) {
      SameLinks(s, a, to, Sub(topics), s', x, b);
      OtherHolds(s, a, to, Sub(topics), s', x, b);
      Told(s, a, to, Sub(topics), s', x, b, f);
      if x == a {
        var id :| (f, id) in t'.live;
        assert f in topics || t.Held(f);
      }
    }
  }

  lemma TellsUnsub(s: State, a: Name, id: string, topics: seq<string>, s': State)
    requires Kept(s) && ClientUnsubscribes(s, a, id, topics, s')
    ensures Tells(s, a, s.nodes[a].peers.Keys, Unsub(topics), s')
    ensures var t, t' := s.nodes[a].local, s'.nodes[a].local;
            forall pr: Pair ::
              pr in t'.live <==> pr in t.live && !(pr.0 in topics && pr.1 == id && Table.Removable(pr.0))
  {
    hide TableOk, UnsubscribeAll, Table.Removable, Tells, Broadcast, AllCovered;
    var t, t' := s.nodes[a].local, UnsubscribeAll(s.nodes[a].local, topics, id);
    UnsubscribeAllMeans(t, topics, id);
    Telling(s, a, t', s.nodes[a].peers.Keys, Unsub(topics), s');
  }

  /** Exactly when an UNSUBSCRIBE keeps coverage: nobody is connected, or no other client needs the filters. */
  lemma UnsubscribeKeeps(s: State, a: Name, id: string, topics: seq<string>, s': State)
    requires Kept(s) && ClientUnsubscribes(s, a, id, topics, s')
    ensures AllCovered(s') <==> Courteous(s.nodes[a].local, id, topics) || (forall b :: !Linked(s, a, b))
  {
    hide TableOk, UnsubscribeAll, Table.Removable, Tells, Covered, Broadcast;
    var t, to := s.nodes[a].local, s.nodes[a].peers.Keys;
    TellsUnsub(s, a, id, topics, s');
    if b :| Linked(s, a, b) {
      if !Courteous(t, id, topics) {
        DiscourteousLoses(s, a, id, topics, s', b);
      }
    }
    if Courteous(t, id, topics) || (forall b :: !Linked(s, a, b)) {
      forall x, b, f | Linked(s', x, b) && s'.nodes[x].local.Held(f) ensures Covered(s', x, b, f) {
        SameLinks(s, a, to, Unsub(topics), s', x, b);
        OtherHolds(s, a, to, Unsub(topics), s', x, b);
        Told(s, a, to, Unsub(topics), s', x, b, f);
        if x == a {
          var i :| (f, i) in s'.nodes[a].local.live;
          assert (f, i) in t.live && t.Held(f);
        }
      }
    }
  }

  lemma DiscourteousLoses(s: State, a: Name, id: string, topics: seq<string>, s': State, b: Name)
    requires Kept(s) && ClientUnsubscribes(s, a, id, topics, s')
    requires Linked(s, a, b) && !Courteous(s.nodes[a].local, id, topics)
    ensures !AllCovered(s')
  {
    hide TableOk, UnsubscribeAll, Table.Removable, Tells, Covered, Broadcast;
    var t, to := s.nodes[a].local, s.nodes[a].peers.Keys;
    TellsUnsub(s, a, id, topics, s');
    var pr :| pr in t.live && pr.0 in topics && Table.Removable(pr.0) && pr.1 != id;
    assert pr == (pr.0, pr.1);
    assert s'.nodes[a].local.Held(pr.0);
    SameLinks(s, a, to, Unsub(topics), s', a, b);
    Told(s, a, to, Unsub(topics), s', a, b, pr.0);
  }

  lemma DisconnectKeeps(s: State, a: Name, id: string, topics: seq<string>, s': State)
    requires Kept(s) && ClientDisconnects(s, a, id, topics, s')
    ensures AllCovered(s')
  {
    hide TableOk, UnsubscribeAll, Table.Removable, Tells, Covered;
    var t, t' := s.nodes[a].local, UnsubscribeAll(s.nodes[a].local, topics, id);
    UnsubscribeAllMeans(t, topics, id);
    assert s.channels == Broadcast(s, a, {}, Unsub([]));
    Telling(s, a, t', {}, Unsub([]), s');
    forall x, b, f | Linked(s', x, b) && s'.nodes[x].local.Held(f) ensures Covered(s', x, b, f) {
      SameLinks(s, a, {}, Unsub([]), s', x, b);
      OtherHolds(s, a, {}, Unsub([]), s', x, b);
      Told(s, a, {}, Unsub([]), s', x, b, f);
      var i :| (f, i) in s'.nodes[x].local.live;
      assert (f, i) in s.nodes[x].local.live && s.nodes[x].local.Held(f);
    }
  }

  lemma PublishKeeps(s: State, a: Name, m: Message, e: Event, locals: seq<Client>, remotes: seq<Client>, s': State)
    requires Kept(s) && ClientPublishes(s, a, m, e, locals, remotes, s')
    ensures AllCovered(s')
  {
    hide TableOk, RetainStep, OneEach, Blank, Tells, Covered, Broadcast, Forwarded, Marks;
    var to, p := Forwarded(s.nodes[a], remotes), Pub(m, Some(e));
    var t' := s'.nodes[a].local;
    RetainOk(s.nodes[a].local, m, t');
    Telling(s, a, t', to, p, s');
    forall x, b, f | Linked(s', x, b) && s'.nodes[x].local.Held(f) ensures Covered(s', x, b, f) {
      SameLinks(s, a, to, p, s', x, b);
      OtherHolds(s, a, to, p, s', x, b);
      Told(s, a, to, p, s', x, b, f);
      var i :| (f, i) in s'.nodes[x].local.live;
      assert (f, i) in s.nodes[x].local.live && s.nodes[x].local.Held(f);
    }
  }

  lemma LinkUpKeeps(s: State, a: Name, b: Name, c: Client, s': State)
    requires Kept(s) && Connects(s, a, b, c, s')
    ensures AllCovered(s')
  {
    hide TableOk, Syncs, Covered, Table.Held;
    var ps :| Syncs(s.nodes[a].local, ps)
      && s' == s.(nodes := s.nodes[a := s.nodes[a].(peers := s.nodes[a].peers[b := c])],
                  channels := s.channels[(a, b) := Channel(s, a, b) + ps]);
    forall x, y, f | Linked(s', x, y) && s'.nodes[x].local.Held(f) ensures Covered(s', x, y, f) {
      if (x, y) == (a, b) {
        Announcing(s.nodes[a].local, (f, a) in s.nodes[b].interest.live, Channel(s, a, b), ps, f);
        CoveredAs(s', a, b, f, Channel(s, a, b) + ps);
      } else {
        assert Linked(s, x, y) && Channel(s', x, y) == Channel(s, x, y);
        CoveredSame(s, s', x, y, f);
      }
    }
  }

  lemma CoveredAs(s: State, a: Name, b: Name, f: string, ps: seq<Packet>)
    requires b in s.nodes && Channel(s, a, b) == ps && NotedAfter((f, a) in s.nodes[b].interest.live, ps, f)
    ensures Covered(s, a, b, f)
  {
  }

  lemma CoveredSame(s: State, s': State, a: Name, b: Name, f: string)
    requires b in s.nodes && b in s'.nodes && Channel(s', a, b) == Channel(s, a, b)
    requires (f, a) in s'.nodes[b].interest.live <==> (f, a) in s.nodes[b].interest.live
    ensures Covered(s', a, b, f) <==> Covered(s, a, b, f)
  {
  }

  /** Whatever is pending, the replay notes every filter that is held. */
  lemma Announcing(t: Table, before: bool, was: seq<Packet>, ps: seq<Packet>, f: string)
    requires TableOk(t) && t.Held(f) && Syncs(t, ps)
    ensures NotedAfter(before, was + ps, f)
  {
    hide TableOk, NotedAfter;
    var id :| (f, id) in t.live;
    HeldListed(t, f, id);
    var fs :| (forall f :: f in fs <==> f in t.topics) && ps == Announced(fs);
    NotedMore(before, was, ps, f);
    SubsNote(NotedAfter(before, was, f), fs, f);
  }

  lemma HeldListed(t: Table, f: string, id: string)
    requires TableOk(t) && (f, id) in t.live
    ensures f in t.topics
  {
  }

  lemma LinkDownKeeps(s: State, a: Name, b: Name, s': State)
    requires Kept(s) && Disconnects(s, a, b, s')
    ensures AllCovered(s')
  {
    hide TableOk, Covered, Table.Held, Disconnects;
    forall x, y, f | Linked(s', x, y) && s'.nodes[x].local.Held(f) ensures Covered(s', x, y, f) {
      CutOff(s, a, b, s', x, y, f);
      CoveredSame(s, s', x, y, f);
    }
  }

  /** What a link that survives the end of another link sees of it: nothing. */
  lemma CutOff(s: State, a: Name, b: Name, s': State, x: Name, y: Name, f: string)
    requires Sane(s) && Disconnects(s, a, b, s') && Linked(s', x, y)
    ensures Linked(s, x, y) && s'.nodes[x].local == s.nodes[x].local && Channel(s', x, y) == Channel(s, x, y)
    ensures (f, x) in s'.nodes[y].interest.live <==> (f, x) in s.nodes[y].interest.live
  {
    hide TableOk, UnsubscribeAll, Table.Removable, CoversPeer;
    var fa, fb :|
      CoversPeer(s.nodes[a], b, fb) && CoversPeer(s.nodes[b], a, fa) &&
      s' == s.(nodes := s.nodes[a := Parted(s.nodes[a], b, fb)][b := Parted(s.nodes[b], a, fa)],
               channels := s.channels[(a, b) := []][(b, a) := []]);
    UnsubscribeAllMeans(s.nodes[a].interest, fb, b);
    UnsubscribeAllMeans(s.nodes[b].interest, fa, a);
  }

  /** What b's tables and the two channels are once b has taken a packet from a. */
  ghost predicate TookPacket(s: State, a: Name, b: Name, p: Packet, s': State, back: seq<Packet>) {
    && a in s.nodes && b in s.nodes && a != b && s'.nodes.Keys == s.nodes.Keys
    && (forall x | x in s.nodes && x != b :: s'.nodes[x] == s.nodes[x])
    && s'.nodes[b].peers == s.nodes[b].peers && s'.nodes[b].local.live == s.nodes[b].local.live
    && TableOk(s'.nodes[b].local) && TableOk(s'.nodes[b].interest)
    && (forall f :: (f, a) in s'.nodes[b].interest.live <==> Noted((f, a) in s.nodes[b].interest.live, p, f))
    && (forall f, x | x != a :: (f, x) in s'.nodes[b].interest.live <==> (f, x) in s.nodes[b].interest.live)
    && Channel(s, a, b) == [p] + Channel(s', a, b)
    && Channel(s', b, a) == Channel(s, b, a) + back && (forall q | q in back :: q.Pub? && q.event == None)
    && (forall x, y | (x, y) != (a, b) && (x, y) != (b, a) :: Channel(s', x, y) == Channel(s, x, y))
  }

  lemma TookSub(s: State, a: Name, b: Name, topics: seq<string>, back: seq<Packet>, s': State)
    requires Sane(s) && Linked(s, b, a) && a != b && Channel(s, a, b) != [] && Channel(s, a, b)[0] == Sub(topics)
    requires Replays(s.nodes[b].local, topics, back)
    requires var n := s.nodes[b];
             s' == s.(nodes := s.nodes[b := n.(interest := SubscribeAll(n.interest, topics, n.peers[a]))],
                      channels := s.channels[(a, b) := Channel(s, a, b)[1..]][(b, a) := Channel(s, b, a) + back])
    ensures TookPacket(s, a, b, Sub(topics), s', back)
  {
    hide TableOk, SubscribeAll, Replays;
    SubscribeAllMeans(s.nodes[b].interest, topics, s.nodes[b].peers[a]);
    ReplaysArePubs(s.nodes[b].local, topics, back);
  }

  lemma TookUnsub(s: State, a: Name, b: Name, topics: seq<string>, s': State)
    requires Sane(s) && Linked(s, b, a) && a != b && Channel(s, a, b) != [] && Channel(s, a, b)[0] == Unsub(topics)
    requires s' == s.(nodes := s.nodes[b := s.nodes[b].(interest := UnsubscribeAll(s.nodes[b].interest, topics, a))],
                      channels := s.channels[(a, b) := Channel(s, a, b)[1..]])
    ensures TookPacket(s, a, b, Unsub(topics), s', [])
  {
    hide TableOk, UnsubscribeAll, Table.Removable;
    UnsubscribeAllMeans(s.nodes[b].interest, topics, a);
  }

  lemma Took(s: State, a: Name, b: Name, locals: seq<Client>, s': State) returns (back: seq<Packet>)
    requires Sane(s) && Receives(s, a, b, locals, s')
    ensures Channel(s, a, b) != [] && TookPacket(s, a, b, Channel(s, a, b)[0], s', back)
  {
    hide TookPacket, TableOk, UnsubscribeAll, SubscribeAll, Replays, DropStep, OneEach, Blank, Marks;
    var n, p := s.nodes[b], Channel(s, a, b)[0];
    back := [];
    match p
    case Sub(topics) =>
      back :| Replays(n.local, topics, back)
           && s' == s.(nodes := s.nodes[b := n.(interest := SubscribeAll(n.interest, topics, n.peers[a]))],
                       channels := s.channels[(a, b) := Channel(s, a, b)[1..]][(b, a) := Channel(s, b, a) + back]);
      TookSub(s, a, b, topics, back, s');
    case Unsub(topics) =>
      TookUnsub(s, a, b, topics, s');
    case Pub(m, e) =>
      TookPub(s, a, b, m, e, locals, s');
  }

  lemma TookPub(s: State, a: Name, b: Name, m: Message, e: Option<Event>, locals: seq<Client>, s': State)
    requires Sane(s) && Linked(s, b, a) && a != b && Channel(s, a, b) != [] && Channel(s, a, b)[0] == Pub(m, e)
    requires Receives(s, a, b, locals, s')
    ensures TookPacket(s, a, b, Pub(m, e), s', [])
  {
    hide TableOk, OneEach, Blank, DropStep, Marks;
    if m.retain {
      RetainOk(s.nodes[b].local, m, s'.nodes[b].local);
    }
  }

  lemma ReceiveKeeps(s: State, a: Name, b: Name, locals: seq<Client>, s': State)
    requires Kept(s) && Receives(s, a, b, locals, s')
    ensures AllCovered(s')
  {
    hide TableOk, Noted, Receives, TookPacket, Covered, Table.Held;
    var back := Took(s, a, b, locals, s');
    var p := Channel(s, a, b)[0];
    forall x, y, f | Linked(s', x, y) && s'.nodes[x].local.Held(f) ensures Covered(s', x, y, f) {
      TookHeld(s, a, b, p, s', back, x, y, f);
      TookCovers(s, a, b, p, s', back, x, y, f);
    }
  }

  lemma TookHeld(s: State, a: Name, b: Name, p: Packet, s': State, back: seq<Packet>, x: Name, y: Name, f: string)
    requires TookPacket(s, a, b, p, s', back) && Linked(s', x, y) && s'.nodes[x].local.Held(f)
    ensures Linked(s, x, y) && s.nodes[x].local.Held(f)
  {
    hide TableOk, Noted;
    var i :| (f, i) in s'.nodes[x].local.live;
    assert (f, i) in s.nodes[x].local.live;
  }

  /** What the packet said moved from the channel into the table. */
  lemma TookCovers(s: State, a: Name, b: Name, p: Packet, s': State, back: seq<Packet>, x: Name, y: Name, f: string)
    requires TookPacket(s, a, b, p, s', back) && y in s.nodes && y in s'.nodes && Covered(s, x, y, f)
    ensures Covered(s', x, y, f)
  {
    hide TableOk, Noted;
    var before := (f, x) in s.nodes[y].interest.live;
    if (x, y) == (a, b) {
      NotedFirst(before, Channel(s, a, b), f);
      assert Channel(s, a, b)[1..] == Channel(s', a, b);
    } else if (x, y) == (b, a) {
      NotedMore(before, Channel(s, b, a), back, f);
      PubsNoteNothing(NotedAfter(before, Channel(s, b, a), f), back, f);
    }
  }

  lemma ReceiveSane(s: State, a: Name, b: Name, locals: seq<Client>, s': State)
    requires Sane(s) && Receives(s, a, b, locals, s')
    ensures Sane(s')
  {
    hide TableOk, Noted, Receives;
    var back := Took(s, a, b, locals, s');
    SaneStill(s, s');
  }

  lemma LinkUpSane(s: State, a: Name, b: Name, c: Client, s': State)
    requires Sane(s) && Connects(s, a, b, c, s')
    ensures Sane(s')
  {
    hide TableOk, Syncs;
    forall x, y | Linked(s', x, y) ensures x != y {
      assert (x, y) == (a, b) || Linked(s, x, y);
    }
  }

  lemma LinkDownSane(s: State, a: Name, b: Name, s': State)
    requires Sane(s) && Disconnects(s, a, b, s')
    ensures Sane(s')
  {
    hide TableOk, UnsubscribeAll, CoversPeer;
    var fa, fb :|
      CoversPeer(s.nodes[a], b, fb) && CoversPeer(s.nodes[b], a, fa) &&
      s' == s.(nodes := s.nodes[a := Parted(s.nodes[a], b, fb)][b := Parted(s.nodes[b], a, fa)],
               channels := s.channels[(a, b) := []][(b, a) := []]);
    UnsubscribeAllMeans(s.nodes[a].interest, fb, b);
    UnsubscribeAllMeans(s.nodes[b].interest, fa, a);
    SaneStill(s, s');
  }

  lemma StepSane(s: State, step: Step, s': State)
    requires Sane(s) && Next(s, step, s')
    ensures Sane(s')
  {
    hide TableOk, Receives, Connects, Disconnects, UnsubscribeAll, SubscribeAll, RetainStep, OneEach, Blank;
    hide Forwarded, Marks;
    match step
    case DoSubscribe(a, c, topics) =>
      SubscribeAllMeans(s.nodes[a].local, topics, c);
      SaneStill(s, s');
    case DoUnsubscribe(a, id, topics) =>
      UnsubscribeAllMeans(s.nodes[a].local, topics, id);
      SaneStill(s, s');
    case DoDisconnect(a, id, topics) =>
      UnsubscribeAllMeans(s.nodes[a].local, topics, id);
      SaneStill(s, s');
    case DoPublish(a, m, e, locals, remotes) =>
      RetainOk(s.nodes[a].local, m, s'.nodes[a].local);
      SaneStill(s, s');
    case DoReceive(a, b, locals) => ReceiveSane(s, a, b, locals, s');
    case LinkUp(a, b, c) => LinkUpSane(s, a, b, c, s');
    case LinkDown(a, b) => LinkDownSane(s, a, b, s');
  }

  lemma StepKeeps(s: State, step: Step, s': State)
    requires Kept(s) && Next(s, step, s') && CourteousStep(s, step)
    ensures Kept(s')
  {
    hide Sane, AllCovered, Courteous, Linked;
    StepSane(s, step, s');
    match step
    case DoSubscribe(a, c, topics) => SubscribeKeeps(s, a, c, topics, s');
    case DoUnsubscribe(a, id, topics) => UnsubscribeKeeps(s, a, id, topics, s');
    case DoDisconnect(a, id, topics) => DisconnectKeeps(s, a, id, topics, s');
    case DoPublish(a, m, e, locals, remotes) => PublishKeeps(s, a, m, e, locals, remotes, s');
    case DoReceive(a, b, locals) => ReceiveKeeps(s, a, b, locals, s');
    case LinkUp(a, b, c) => LinkUpKeeps(s, a, b, c, s');
    case LinkDown(a, b) => LinkDownKeeps(s, a, b, s');
  }

  lemma InitKept(s: State)
    requires Init(s)
    ensures Kept(s)
  {
    assert forall a, b :: !Linked(s, a, b);
  }

  lemma {:induction false} RunSane(steps: seq<Step>, ss: seq<State>, k: nat)
    requires Run(steps, ss) && k <= |steps|
    ensures Sane(ss[k])
  {
    hide Next, Sane, AllCovered, Init;
    if k > 0 {
      RunSane(steps, ss, k - 1);
      StepSane(ss[k - 1], steps[k - 1], ss[k]);
    } else {
      InitKept(ss[0]);
    }
  }

  /** Coverage holds in every state of every run in which clients unsubscribe only filters that no
      other client of their node still holds, whatever is published, lost or delayed meanwhile. */
  lemma {:induction false} RunCovered(steps: seq<Step>, ss: seq<State>, k: nat)
    requires Run(steps, ss) && k <= |steps|
    requires forall i | 0 <= i < k :: CourteousStep(ss[i], steps[i])
    ensures Kept(ss[k])
  {
    hide Next, CourteousStep, Kept, Init;
    if k > 0 {
      RunCovered(steps, ss, k - 1);
      StepKeeps(ss[k - 1], steps[k - 1], ss[k]);
    } else {
      InitKept(ss[0]);
    }
  }

  /** Read off the channel: the last pending word of a on f is a SUBSCRIBE, or there is none and b
      has noted f for a. */
  lemma RunLastWord(steps: seq<Step>, ss: seq<State>, k: nat, a: Name, b: Name, f: string, id: string)
    requires Run(steps, ss) && k <= |steps|
    requires forall i | 0 <= i < k :: CourteousStep(ss[i], steps[i])
    requires Linked(ss[k], a, b) && (f, id) in ss[k].nodes[a].local.live && Table.Removable(f)
    ensures LastWordIsSub(Channel(ss[k], a, b), f)
            || (!Mentioned(Channel(ss[k], a, b), f) && (f, a) in ss[k].nodes[b].interest.live)
  {
    hide Next, CourteousStep, LastWordIsSub, Mentioned, Table.Removable, NotedAfter;
    RunCovered(steps, ss, k);
    assert ss[k].nodes[a].local.Held(f);
    assert Covered(ss[k], a, b, f);
    CoveredMeans((f, a) in ss[k].nodes[b].interest.live, Channel(ss[k], a, b), f);
  }
}
