/** Connections that peers left behind: what a node has noted for a peer may name an earlier connection of
    it, but the peer's replay renews every such entry. */
module Renewal {
  import opened Topics
  import opened Table
  import opened Listing
  import opened Fanout
  import opened Cluster
  import opened Coverage

  function Current(n: Node, a: Name): Option<Client> {
    if a in n.peers then Some(n.peers[a]) else None
  }

  ghost predicate Entered(t: Table, f: string, id: string) {
    (f, id) in t.live || (f, id) in t.copies
  }

  ghost predicate StaleLive(t: Table, f: string, id: string, now: Option<Client>) {
    (f, id) in t.live && Some(t.live[(f, id)]) != now
  }

  /** An entry for the peer, or the copy that a "#" filter left, names another connection than the current. */
  ghost predicate StaleEntry(t: Table, f: string, id: string, now: Option<Client>) {
    StaleLive(t, f, id, now) || ((f, id) in t.copies && Some(t.copies[(f, id)]) != now)
  }

  ghost predicate Named(ps: seq<Packet>, f: string) {
    exists p :: p in ps && p.Sub? && f in p.topics
  }

  // ---------------------------------------------------------------- tables

  ghost predicate SameEntry(t: Table, t': Table, pr: Pair) {
    && (pr in t'.live <==> pr in t.live) && (pr in t.live ==> t'.live[pr] == t.live[pr])
    && (pr in t'.copies <==> pr in t.copies) && (pr in t.copies ==> t'.copies[pr] == t.copies[pr])
  }

  lemma SubscribeEntries(t: Table, g: string, c: Client)
    requires TableOk(t)
    ensures var t' := t.Subscribe(g, c.id, c);
            && (g, c.id) in t'.live && !StaleEntry(t', g, c.id, Some(c))
            && (forall pr | pr != (g, c.id) :: SameEntry(t, t', pr))
            && t'.topics == t.topics + {g}
  {
    hide CopiesUp, Blank;
  }

  /** Subscribing renews the named filters of the client and touches no other entry. */
  lemma {:induction false} SubscribeAllEntries(t: Table, topics: seq<string>, c: Client)
    requires TableOk(t)
    ensures var t' := SubscribeAll(t, topics, c);
            && (forall f | f in topics :: !StaleEntry(t', f, c.id, Some(c)) && f in t'.topics)
            && (forall f, id | f !in topics || id != c.id :: SameEntry(t, t', (f, id)))
            && t.topics <= t'.topics
    decreases |topics|
  {
    if topics != [] {
      hide TableOk, Table.Subscribe, StaleEntry, SameEntry;
      var u, t', g := SubscribeAll(t, Parent(topics), c), SubscribeAll(t, topics, c), Last(topics);
      SubscribeAllEntries(t, Parent(topics), c);
      SubscribeAllMeans(t, Parent(topics), c);
      SubscribeEntries(u, g, c);
      assert topics == Parent(topics) + [g];
      forall f | f in topics ensures !StaleEntry(t', f, c.id, Some(c)) {
        if f != g {
          SameStale(u, t', f, c.id, Some(c));
        }
      }
      forall f, id | f !in topics || id != c.id ensures SameEntry(t, t', (f, id)) {
        SameAgain(t, u, t', (f, id));
      }
    } else {
      forall f, id ensures SameEntry(t, t, (f, id)) {
      }
    }
  }

  lemma SameStale(t: Table, t': Table, f: string, id: string, now: Option<Client>)
    requires SameEntry(t, t', (f, id))
    ensures StaleEntry(t', f, id, now) <==> StaleEntry(t, f, id, now)
    ensures StaleLive(t', f, id, now) <==> StaleLive(t, f, id, now)
    ensures Entered(t', f, id) <==> Entered(t, f, id)
  {
  }

  lemma SameAgain(t: Table, u: Table, t': Table, pr: Pair)
    requires SameEntry(t, u, pr) && SameEntry(u, t', pr)
    ensures SameEntry(t, t', pr)
  {
  }

  /** Unsubscribing takes live entries away and does nothing else to entries; wildcard filters stay listed. */
  ghost predicate Thinner(t: Table, t': Table) {
    && t'.copies == t.copies
    && (forall pr | pr in t'.live :: pr in t.live && t'.live[pr] == t.live[pr])
    && (forall f | f in t.topics && Wild(f) :: f in t'.topics)
  }

  lemma UnsubscribeThinner(t: Table, g: string, id: string)
    ensures Thinner(t, t.Unsubscribe(g, id))
  {
    hide Table.Removable, Wild;
  }

  lemma {:induction false} UnsubscribeAllThinner(t: Table, topics: seq<string>, id: string)
    ensures Thinner(t, UnsubscribeAll(t, topics, id))
    decreases |topics|
  {
    if topics != [] {
      hide Table.Unsubscribe, Wild;
      UnsubscribeAllThinner(t, Parent(topics), id);
      UnsubscribeThinner(UnsubscribeAll(t, Parent(topics), id), Last(topics), id);
    }
  }

  lemma ThinnerStale(t: Table, t': Table, f: string, id: string, now: Option<Client>)
    requires Thinner(t, t')
    ensures StaleEntry(t', f, id, now) ==> StaleEntry(t, f, id, now)
    ensures StaleLive(t', f, id, now) ==> StaleLive(t, f, id, now)
    ensures Entered(t', f, id) ==> Entered(t, f, id)
  {
  }

  // ---------------------------------------------------------------- what holds between two nodes

  /** What b has noted of a's wildcard filters, or is about to note, a still lists; */
  ghost predicate Listed(s: State, a: Name, b: Name, f: string)
    requires a in s.nodes && b in s.nodes
  {
    Wild(f) && (Entered(s.nodes[b].interest, f, a) || Named(Channel(s, a, b), f)) ==> f in s.nodes[a].local.topics
  }

  /** what b has noted on an earlier connection is about to be noted again; */
  ghost predicate Renews(s: State, a: Name, b: Name, f: string)
    requires a in s.nodes && b in s.nodes
  {
    Linked(s, a, b) && StaleEntry(s.nodes[b].interest, f, a, Current(s.nodes[b], a)) ==> Named(Channel(s, a, b), f)
  }

  /** and of the live entries only those that no unsubscribe takes away are left of it. */
  ghost predicate Leftover(s: State, a: Name, b: Name, f: string)
    requires a in s.nodes && b in s.nodes
  {
    StaleLive(s.nodes[b].interest, f, a, Current(s.nodes[b], a)) ==> !Table.Removable(f)
  }

  ghost predicate PairOk(s: State, a: Name, b: Name, f: string)
    requires a in s.nodes && b in s.nodes
  {
    Listed(s, a, b, f) && Renews(s, a, b, f) && Leftover(s, a, b, f)
  }

  ghost predicate Renewed(s: State) {
    forall a, b, f | a in s.nodes && b in s.nodes :: PairOk(s, a, b, f)
  }

  lemma PairKept(s: State, s': State, x: Name, y: Name, f: string)
    requires x in s.nodes && y in s.nodes && x in s'.nodes && y in s'.nodes && PairOk(s, x, y, f)
    requires Wild(f) && f in s.nodes[x].local.topics ==> f in s'.nodes[x].local.topics
    requires var i, i' := s.nodes[y].interest, s'.nodes[y].interest;
             var now, now' := Current(s.nodes[y], x), Current(s'.nodes[y], x);
             && (Entered(i', f, x) ==> Entered(i, f, x))
             && (StaleEntry(i', f, x, now') ==> StaleEntry(i, f, x, now))
             && (StaleLive(i', f, x, now') ==> StaleLive(i, f, x, now))
    requires Linked(s', x, y) ==> Linked(s, x, y)
    requires Named(Channel(s, x, y), f) ==> Named(Channel(s', x, y), f)
    requires Named(Channel(s', x, y), f) ==> Named(Channel(s, x, y), f) || f in s'.nodes[x].local.topics
    ensures PairOk(s', x, y, f)
  {
    hide Wild, Entered, StaleEntry, StaleLive, Named, Channel, Current, Table.Removable;
  }

  lemma NamedMore(ps: seq<Packet>, more: seq<Packet>, f: string)
    ensures Named(ps + more, f) <==> Named(ps, f) || Named(more, f)
  {
    if p :| p in ps + more && p.Sub? && f in p.topics {
      assert p in ps || p in more;
    }
    if p :| p in ps && p.Sub? && f in p.topics {
      assert p in ps + more;
    }
    if p :| p in more && p.Sub? && f in p.topics {
      assert p in ps + more;
    }
  }

  lemma NamedOne(p: Packet, f: string)
    ensures Named([p], f) <==> p.Sub? && f in p.topics
  {
    assert p in [p];
  }

  lemma NamedFirst(ps: seq<Packet>, f: string)
    requires ps != []
    ensures Named(ps, f) <==> (ps[0].Sub? && f in ps[0].topics) || Named(ps[1..], f)
  {
    hide Named;
    assert ps == [ps[0]] + ps[1..];
    NamedMore([ps[0]], ps[1..], f);
    NamedOne(ps[0], f);
  }

  lemma PubsNameNothing(ps: seq<Packet>, f: string)
    requires forall p | p in ps :: p.Pub?
    ensures !Named(ps, f)
  {
  }

  lemma NamedAnnounced(t: Table, ps: seq<Packet>, f: string)
    requires Syncs(t, ps)
    ensures Named(ps, f) <==> f in t.topics
  {
    var fs :| Distinct(fs) && (forall g :: g in fs <==> g in t.topics) && ps == Announced(fs);
    AnnouncedNames(fs, f);
  }

  lemma AnnouncedNames(fs: seq<string>, f: string)
    ensures Named(Announced(fs), f) <==> f in fs
  {
    var ps := Announced(fs);
    if i :| 0 <= i < |fs| && fs[i] == f {
      assert ps[i] in ps && [f][0] in ps[i].topics;
    }
    if p :| p in ps && p.Sub? && f in p.topics {
      var i :| 0 <= i < |ps| && ps[i] == p;
    }
  }

  // ---------------------------------------------------------------- every step keeps it

  /** Node a told its peers `to`; nothing else changed but its own table, which lists no fewer wildcards. */
  lemma TellingRenews(s: State, a: Name, to: set<Name>, p: Packet, s': State)
    requires Renewed(s) && Tells(s, a, to, p, s')
    requires forall f | f in s.nodes[a].local.topics && Wild(f) :: f in s'.nodes[a].local.topics
    requires p.Sub? ==> forall f | f in p.topics :: f in s'.nodes[a].local.topics
    ensures Renewed(s')
  {
    hide PairOk, Wild, Entered, StaleEntry, StaleLive, Tells, Named, Channel;
    forall x, y, f | x in s'.nodes && y in s'.nodes ensures PairOk(s', x, y, f) {
      TellingPair(s, a, to, p, s', x, y, f);
      PairKept(s, s', x, y, f);
    }
  }

  lemma TellingPair(s: State, a: Name, to: set<Name>, p: Packet, s': State, x: Name, y: Name, f: string)
    requires Tells(s, a, to, p, s') && x in s'.nodes && y in s'.nodes
    requires p.Sub? ==> forall f | f in p.topics :: f in s'.nodes[a].local.topics
    ensures x in s.nodes && y in s.nodes && (Linked(s', x, y) ==> Linked(s, x, y))
    ensures x != a ==> s'.nodes[x].local == s.nodes[x].local
    ensures s'.nodes[y].interest == s.nodes[y].interest && Current(s'.nodes[y], x) == Current(s.nodes[y], x)
    ensures Named(Channel(s, x, y), f) ==> Named(Channel(s', x, y), f)
    ensures Named(Channel(s', x, y), f) ==> Named(Channel(s, x, y), f) || f in s'.nodes[x].local.topics
  {
    hide Named;
    NamedMore(Channel(s, x, y), [p], f);
    NamedOne(p, f);
  }

  lemma ClientsRenew(s: State, step: Step, s': State)
    requires Sane(s) && Renewed(s) && Next(s, step, s')
    requires step.DoSubscribe? || step.DoUnsubscribe? || step.DoDisconnect? || step.DoPublish?
    ensures Renewed(s')
  {
    hide TableOk, SubscribeAll, UnsubscribeAll, Tells, Broadcast, Renewed, Thinner, SameEntry, StaleEntry, Wild, Blank;
    hide RetainStep, OneEach, Forwarded, Marks;
    match step
    case DoSubscribe(a, c, topics) =>
      SubscribeAllEntries(s.nodes[a].local, topics, c);
      Telling(s, a, s'.nodes[a].local, s.nodes[a].peers.Keys, Sub(topics), s');
      TellingRenews(s, a, s.nodes[a].peers.Keys, Sub(topics), s');
    case DoUnsubscribe(a, id, topics) =>
      UnsubscribeAllThinner(s.nodes[a].local, topics, id);
      StillListed(s.nodes[a].local, s'.nodes[a].local);
      Telling(s, a, s'.nodes[a].local, s.nodes[a].peers.Keys, Unsub(topics), s');
      TellingRenews(s, a, s.nodes[a].peers.Keys, Unsub(topics), s');
    case DoDisconnect(a, id, topics) =>
      UnsubscribeAllThinner(s.nodes[a].local, topics, id);
      StillListed(s.nodes[a].local, s'.nodes[a].local);
      NobodyTold(s, a);
      Telling(s, a, s'.nodes[a].local, {}, Unsub([]), s');
      TellingRenews(s, a, {}, Unsub([]), s');
    case DoPublish(a, m, e, locals, remotes) =>
      RetainTopics(s.nodes[a].local, m, s'.nodes[a].local);
      Telling(s, a, s'.nodes[a].local, Forwarded(s.nodes[a], remotes), Pub(m, Some(e)), s');
      TellingRenews(s, a, Forwarded(s.nodes[a], remotes), Pub(m, Some(e)), s');
    case _ =>
  }

  lemma NobodyTold(s: State, a: Name)
    ensures Broadcast(s, a, {}, Unsub([])) == s.channels
  {
  }

  lemma StillListed(t: Table, t': Table)
    requires Thinner(t, t')
    ensures forall f | f in t.topics && Wild(f) :: f in t'.topics
  {
  }

  lemma RetainTopics(t: Table, m: Message, t': Table)
    requires !Blank(m.topic) && (RetainStep(t, m, t') || DropStep(t, m.topic, t'))
    ensures t'.topics == t.topics
  {
    hide Blank, Cleared;
  }

  /** What taking a packet of a does to the entries that b has for one node. */
  ghost predicate EntriesTook(s: State, a: Name, b: Name, p: Packet, s': State, f: string, x: Name)
    requires b in s.nodes && b in s'.nodes
  {
    var i, i', now := s.nodes[b].interest, s'.nodes[b].interest, Current(s.nodes[b], x);
    if x == a && p.Sub? && f in p.topics then !StaleEntry(i', f, x, now)
    else
      && (Entered(i', f, x) ==> Entered(i, f, x)) && (StaleEntry(i', f, x, now) ==> StaleEntry(i, f, x, now))
      && (StaleLive(i', f, x, now) ==> StaleLive(i, f, x, now))
  }

  lemma TookEntries(s: State, a: Name, b: Name, locals: seq<Client>, s': State, f: string, x: Name)
    requires Sane(s) && Receives(s, a, b, locals, s')
    ensures Channel(s, a, b) != [] && b in s'.nodes && EntriesTook(s, a, b, Channel(s, a, b)[0], s', f, x)
    ensures s'.nodes[b].local.topics == s.nodes[b].local.topics
  {
    hide TableOk, SubscribeAll, UnsubscribeAll, Replays, DropStep, OneEach, Marks, Blank;
    hide StaleEntry, StaleLive, Entered, SameEntry, Thinner;
    var n, p := s.nodes[b], Channel(s, a, b)[0];
    match p
    case Sub(topics) =>
      assert s'.nodes[b].interest == SubscribeAll(n.interest, topics, n.peers[a]);
      SubscribeAllEntries(n.interest, topics, n.peers[a]);
      if f !in topics || x != a {
        SameStale(n.interest, s'.nodes[b].interest, f, x, Current(n, x));
      }
    case Unsub(topics) =>
      UnsubscribeAllThinner(n.interest, topics, a);
      ThinnerStale(n.interest, s'.nodes[b].interest, f, x, Current(n, x));
    case Pub(m, e) =>
      if m.retain {
        RetainTopics(n.local, m, s'.nodes[b].local);
      }
  }

  lemma NotStale(t: Table, f: string, id: string, now: Option<Client>)
    requires !StaleEntry(t, f, id, now)
    ensures !StaleLive(t, f, id, now)
  {
  }

  lemma ReceivePair(s: State, a: Name, b: Name, locals: seq<Client>, s': State, back: seq<Packet>, x: Name, y: Name,
                    f: string)
    requires Sane(s) && Receives(s, a, b, locals, s') && Channel(s, a, b) != []
    requires TookPacket(s, a, b, Channel(s, a, b)[0], s', back)
    requires x in s.nodes && y in s.nodes && PairOk(s, x, y, f)
    ensures x in s'.nodes && y in s'.nodes && PairOk(s', x, y, f)
  {
    hide Sane, Receives, Named, Entered, StaleEntry, StaleLive, Wild, Table.Removable, Noted, TableOk, PairOk;
    var p := Channel(s, a, b)[0];
    TookEntries(s, a, b, locals, s', f, x);
    NamedFirst(Channel(s, a, b), f);
    NamedMore(Channel(s, b, a), back, f);
    PubsNameNothing(back, f);
    assert Channel(s, a, b)[1..] == Channel(s', a, b);
    if x == a && y == b && p.Sub? && f in p.topics {
      PairRenewed(s, a, b, f, s');
    } else {
      PairKept(s, s', x, y, f);
    }
  }

  lemma PairRenewed(s: State, a: Name, b: Name, f: string, s': State)
    requires a in s.nodes && b in s.nodes && a in s'.nodes && b in s'.nodes && PairOk(s, a, b, f)
    requires Named(Channel(s, a, b), f) && s'.nodes[a].local.topics == s.nodes[a].local.topics
    requires !StaleEntry(s'.nodes[b].interest, f, a, Current(s'.nodes[b], a))
    ensures PairOk(s', a, b, f)
  {
    hide Named, Entered, StaleEntry, StaleLive, Wild, Table.Removable, Channel, Current;
    NotStale(s'.nodes[b].interest, f, a, Current(s'.nodes[b], a));
  }

  lemma ReceiveRenews(s: State, a: Name, b: Name, locals: seq<Client>, s': State)
    requires Sane(s) && Renewed(s) && Receives(s, a, b, locals, s')
    ensures Renewed(s')
  {
    hide Sane, Receives, PairOk, TookPacket;
    var back := Took(s, a, b, locals, s');
    SameNames(s, a, b, Channel(s, a, b)[0], s', back);
    forall x, y, f | x in s'.nodes && y in s'.nodes ensures PairOk(s', x, y, f) {
      ReceivePair(s, a, b, locals, s', back, x, y, f);
    }
  }

  lemma SameNames(s: State, a: Name, b: Name, p: Packet, s': State, back: seq<Packet>)
    requires TookPacket(s, a, b, p, s', back)
    ensures s'.nodes.Keys == s.nodes.Keys
  {
  }

  lemma StaleIsWild(t: Table, f: string, id: string, now: Option<Client>)
    requires TableOk(t) && StaleEntry(t, f, id, now) && (StaleLive(t, f, id, now) ==> !Table.Removable(f))
    ensures Wild(f) && Entered(t, f, id)
  {
  }

  lemma LinkUpRenews(s: State, a: Name, b: Name, c: Client, s': State)
    requires Sane(s) && Renewed(s) && Connects(s, a, b, c, s')
    ensures Renewed(s')
  {
    hide TableOk, Syncs, PairOk, Entered, StaleEntry, StaleLive, Named, Wild, Table.Removable;
    var ps :| Syncs(s.nodes[a].local, ps)
      && s' == s.(nodes := s.nodes[a := s.nodes[a].(peers := s.nodes[a].peers[b := c])],
                  channels := s.channels[(a, b) := Channel(s, a, b) + ps]);
    forall x, y, f | x in s'.nodes && y in s'.nodes ensures PairOk(s', x, y, f) {
      NamedMore(Channel(s, a, b), ps, f);
      NamedAnnounced(s.nodes[a].local, ps, f);
      if (x, y) == (a, b) {
        assert Channel(s', a, b) == Channel(s, a, b) + ps;
        PairLinked(s, a, b, f, s');
      } else {
        NoneIsOlder(s.nodes[y].interest, f, x, Current(s'.nodes[y], x));
        PairKept(s, s', x, y, f);
      }
    }
  }

  lemma NoneIsOlder(t: Table, f: string, id: string, now: Option<Client>)
    ensures StaleEntry(t, f, id, now) ==> StaleEntry(t, f, id, None)
    ensures StaleLive(t, f, id, now) ==> StaleLive(t, f, id, None)
  {
  }

  /** The replay names every filter that the peer may hold an old entry for. */
  lemma PairLinked(s: State, a: Name, b: Name, f: string, s': State)
    requires Sane(s) && a in s.nodes && b in s.nodes && a in s'.nodes && b in s'.nodes && PairOk(s, a, b, f)
    requires s'.nodes[b] == s.nodes[b] && s'.nodes[a].local == s.nodes[a].local
    requires Named(Channel(s', a, b), f) <==> Named(Channel(s, a, b), f) || f in s.nodes[a].local.topics
    ensures PairOk(s', a, b, f)
  {
    hide Named, Entered, StaleEntry, StaleLive, Wild, Table.Removable, Channel, Current, TableOk;
    var now := Current(s.nodes[b], a);
    if StaleEntry(s.nodes[b].interest, f, a, now) {
      StaleIsWild(s.nodes[b].interest, f, a, now);
    }
  }

  lemma LinkDownRenews(s: State, a: Name, b: Name, s': State)
    requires Sane(s) && Renewed(s) && Disconnects(s, a, b, s')
    ensures Renewed(s')
  {
    hide TableOk, UnsubscribeAll, CoversPeer, PairOk, Entered, StaleEntry, StaleLive, Named, Wild, Table.Removable;
    var fa, fb :|
      CoversPeer(s.nodes[a], b, fb) && CoversPeer(s.nodes[b], a, fa) &&
      s' == s.(nodes := s.nodes[a := Parted(s.nodes[a], b, fb)][b := Parted(s.nodes[b], a, fa)],
               channels := s.channels[(a, b) := []][(b, a) := []]);
    forall x, y, f | x in s'.nodes && y in s'.nodes ensures PairOk(s', x, y, f) {
      if (x, y) == (a, b) {
        PairParted(s, a, b, f, fa, s');
      } else if (x, y) == (b, a) {
        PairParted(s, b, a, f, fb, s');
      } else {
        Elsewhere(s, a, b, fa, fb, s', x, y, f);
        PairKept(s, s', x, y, f);
      }
    }
  }

  lemma PairParted(s: State, a: Name, b: Name, f: string, filters: seq<string>, s': State)
    requires Sane(s) && a in s.nodes && b in s.nodes && a in s'.nodes && b in s'.nodes && PairOk(s, a, b, f)
    requires CoversPeer(s.nodes[b], a, filters) && s'.nodes[b] == Parted(s.nodes[b], a, filters)
    requires s'.nodes[a].local == s.nodes[a].local && Channel(s', a, b) == [] && b !in s'.nodes[a].peers
    ensures PairOk(s', a, b, f)
  {
    hide TableOk, UnsubscribeAll, Wild, Table.Removable, Thinner;
    var i := s.nodes[b].interest;
    UnsubscribeAllThinner(i, filters, a);
    UnsubscribeAllMeans(i, filters, a);
    ThinnerStale(i, s'.nodes[b].interest, f, a, None);
    PubsNameNothing([], f);
  }

  lemma Elsewhere(s: State, a: Name, b: Name, fa: seq<string>, fb: seq<string>, s': State, x: Name, y: Name, f: string)
    requires a in s.nodes && b in s.nodes && a != b && x in s.nodes && y in s.nodes && (x, y) != (a, b)
    requires (x, y) != (b, a)
    requires s' == s.(nodes := s.nodes[a := Parted(s.nodes[a], b, fb)][b := Parted(s.nodes[b], a, fa)],
                      channels := s.channels[(a, b) := []][(b, a) := []])
    ensures Current(s'.nodes[y], x) == Current(s.nodes[y], x) && s'.nodes[x].local == s.nodes[x].local
    ensures Linked(s', x, y) ==> Linked(s, x, y)
    ensures Channel(s', x, y) == Channel(s, x, y)
    ensures var i, i', now := s.nodes[y].interest, s'.nodes[y].interest, Current(s.nodes[y], x);
            && (Entered(i', f, x) ==> Entered(i, f, x)) && (StaleEntry(i', f, x, now) ==> StaleEntry(i, f, x, now))
            && (StaleLive(i', f, x, now) ==> StaleLive(i, f, x, now))
  {
    hide UnsubscribeAll, Entered, StaleEntry, StaleLive, Thinner;
    var now := Current(s.nodes[y], x);
    UnsubscribeAllThinner(s.nodes[a].interest, fb, b);
    UnsubscribeAllThinner(s.nodes[b].interest, fa, a);
    if y == a || y == b {
      ThinnerStale(s.nodes[y].interest, s'.nodes[y].interest, f, x, now);
    }
  }

  lemma StepRenews(s: State, step: Step, s': State)
    requires Sane(s) && Renewed(s) && Next(s, step, s')
    ensures Renewed(s')
  {
    hide Sane, Renewed, ClientSubscribes, ClientUnsubscribes, ClientDisconnects, ClientPublishes, Receives, Connects;
    hide Disconnects;
    match step
    case DoReceive(a, b, locals) => ReceiveRenews(s, a, b, locals, s');
    case LinkUp(a, b, c) => LinkUpRenews(s, a, b, c, s');
    case LinkDown(a, b) => LinkDownRenews(s, a, b, s');
    case _ => ClientsRenew(s, step, s');
  }

  lemma {:induction false} RunRenewed(steps: seq<Step>, ss: seq<State>, k: nat)
    requires Run(steps, ss) && k <= |steps|
    ensures Renewed(ss[k])
  {
    hide Next, Sane, Renewed, Init;
    if k > 0 {
      RunRenewed(steps, ss, k - 1);
      RunSane(steps, ss, k - 1);
      StepRenews(ss[k - 1], steps[k - 1], ss[k]);
    } else {
      InitRenewed(ss[0]);
    }
  }

  lemma InitRenewed(s: State)
    requires Init(s)
    ensures Renewed(s)
  {
    hide Wild, Table.Removable;
    forall a, b, f | a in s.nodes && b in s.nodes ensures PairOk(s, a, b, f) {
      PubsNameNothing(Channel(s, a, b), f);
    }
  }

  /** Over every run: once b has taken all that a sent it, nothing that b has noted for a names a connection
      that a left behind, however often the link between them went down and came back. */
  lemma NoneStale(steps: seq<Step>, ss: seq<State>, k: nat, a: Name, b: Name, f: string)
    requires Run(steps, ss) && k <= |steps|
    requires Linked(ss[k], a, b) && Linked(ss[k], b, a) && Channel(ss[k], a, b) == []
    ensures !StaleEntry(ss[k].nodes[b].interest, f, a, Some(ss[k].nodes[b].peers[a]))
  {
    hide Next, Init, StaleEntry, StaleLive, Named, Entered;
    RunRenewed(steps, ss, k);
    assert PairOk(ss[k], a, b, f);
    PubsNameNothing([], f);
  }

  /** So the publish that finds a's interest in b is written to a's current connection. */
  lemma AnswersAreCurrent(steps: seq<Step>, ss: seq<State>, k: nat, a: Name, b: Name, topic: string)
    requires Run(steps, ss) && k <= |steps| && !Blank(topic)
    requires Linked(ss[k], a, b) && Linked(ss[k], b, a) && Channel(ss[k], a, b) == []
    ensures Undisputed(ss[k].nodes[b].interest.Answers(topic), ss[k].nodes[b].peers[a])
  {
    hide Next, Init, Blank, Sane, StaleEntry, Table.Answers;
    var n, h := ss[k].nodes[b], ss[k].nodes[b].peers[a];
    RunSane(steps, ss, k);
    PeerId(ss[k], b, a);
    forall pr | pr in n.interest.Answers(topic) && n.interest.Answers(topic)[pr].id == a
      ensures n.interest.Answers(topic)[pr] == h
    {
      AnswerEntry(ss[k], b, topic, pr);
      NoneStale(steps, ss, k, a, b, pr.0);
      FreshAnswer(n.interest, topic, pr, h);
    }
  }

  lemma PeerId(s: State, b: Name, a: Name)
    requires Sane(s) && Linked(s, b, a)
    ensures s.nodes[b].peers[a].id == a
  {
  }

  lemma AnswerEntry(s: State, b: Name, topic: string, pr: Pair)
    requires Sane(s) && b in s.nodes && !Blank(topic) && pr in s.nodes[b].interest.Answers(topic)
    ensures pr.1 == s.nodes[b].interest.Answers(topic)[pr].id
  {
    hide Blank, LiveHit, CopyHit, Wild;
  }

  lemma FreshAnswer(t: Table, topic: string, pr: Pair, h: Client)
    requires !Blank(topic) && pr in t.Answers(topic) && !StaleEntry(t, pr.0, pr.1, Some(h))
    ensures t.Answers(topic)[pr] == h
  {
    hide Blank, LiveHit, CopyHit, Wild;
    assert pr == (pr.0, pr.1);
  }
}
