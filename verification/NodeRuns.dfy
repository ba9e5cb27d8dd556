/** The handlers at work on one node of a running cluster: each call is a step, and over whole runs the
    calls of WritePacket are what the step system counts. */
module NodeRuns {
  import opened Topics
  import opened Table
  import opened Listing
  import opened Fanout
  import TopicTrie
  import opened Ledgers
  import opened Servers
  import opened Cluster
  import opened NodeSteps
  import BrokerProcessor
  import ClusterProcessor
  import Delivery
  import Qos2
  import Renewal

  // ---------------------------------------------------------------- connections stay in order

  lemma PutValues<K, V>(m: map<K, V>, k: K, v: V)
    ensures m[k := v].Values <= m.Values + {v}
    ensures (m - {k}).Values <= m.Values
  {
  }

  lemma {:induction false} SubscribeHandles(t: Table, topics: seq<string>, c: Client)
    ensures Handles(SubscribeAll(t, topics, c)) <= Handles(t) + {c}
  {
    if topics != [] {
      hide CopiesUp;
      var u, f := SubscribeAll(t, Parent(topics), c), Last(topics);
      SubscribeHandles(t, Parent(topics), c);
      PutValues(u.live, (f, c.id), c);
      PutValues(u.copies, (f, c.id), c);
    }
  }

  lemma {:induction false} UnsubscribeHandles(t: Table, topics: seq<string>, id: string)
    ensures Handles(UnsubscribeAll(t, topics, id)) <= Handles(t)
  {
    if topics != [] {
      var u, f := UnsubscribeAll(t, Parent(topics), id), Last(topics);
      UnsubscribeHandles(t, Parent(topics), id);
      OneLessHandle(u, f, id);
    }
  }

  lemma OneLessHandle(u: Table, f: string, id: string)
    ensures Handles(u.Unsubscribe(f, id)) <= Handles(u)
  {
    hide Table.Removable, Wild;
    PutValues(u.live, (f, id), Client(id, 0));
  }

  lemma RetainHandles(t: Table, m: Message, t': Table)
    requires !Blank(m.topic) && (RetainStep(t, m, t') || DropStep(t, m.topic, t'))
    ensures Handles(t') == Handles(t)
  {
    hide Blank, Cleared;
  }

  // ---------------------------------------------------------------- what a peer's session keeps track of

  /** The session's topic set has every filter noted for the peer, except what no unsubscribe takes away. */
  ghost predicate Tracks(t: Table, id: string, held: set<string>) {
    forall f | (f, id) in t.live && Table.Removable(f) :: f in held
  }

  lemma {:induction false} SubscribeTracks(t: Table, topics: seq<string>, c: Client, held: set<string>)
    requires Tracks(t, c.id, held)
    ensures Tracks(SubscribeAll(t, topics, c), c.id, held + SetOf(topics))
  {
    if topics != [] {
      hide CopiesUp, Table.Removable;
      SubscribeTracks(t, Parent(topics), c, held);
      assert topics == Parent(topics) + [Last(topics)];
    }
  }

  lemma {:induction false} UnsubscribeTracks(t: Table, topics: seq<string>, id: string, held: set<string>)
    requires Tracks(t, id, held)
    ensures Tracks(UnsubscribeAll(t, topics, id), id, held - SetOf(topics))
  {
    if topics != [] {
      hide Table.Removable, Wild;
      UnsubscribeTracks(t, Parent(topics), id, held);
      OneTracks(UnsubscribeAll(t, Parent(topics), id), Last(topics), id, held - SetOf(Parent(topics)));
      assert topics == Parent(topics) + [Last(topics)];
      assert held - SetOf(topics) == held - SetOf(Parent(topics)) - {Last(topics)};
    }
  }

  lemma OneTracks(t: Table, topic: string, id: string, held: set<string>)
    requires Tracks(t, id, held)
    ensures Tracks(t.Unsubscribe(topic, id), id, held - {topic})
  {
    hide Table.Removable, Wild;
  }

  /** Over every run, nothing but that is noted for a peer that is not connected: its next session starts with
      an empty topic set. */
  lemma UnlinkedTracks(steps: seq<Step>, ss: seq<State>, k: nat, b: Name, a: Name)
    requires Run(steps, ss) && k <= |steps| && a in ss[k].nodes && b in ss[k].nodes && a !in ss[k].nodes[b].peers
    ensures Tracks(ss[k].nodes[b].interest, a, {})
  {
    hide Next, Init, Table.Removable, Renewal.Listed, Renewal.Renews;
    Renewal.RunRenewed(steps, ss, k);
    forall f | (f, a) in ss[k].nodes[b].interest.live ensures !Table.Removable(f) {
      assert Renewal.PairOk(ss[k], a, b, f);
    }
  }

  // ---------------------------------------------------------------- one handler call, one step

  /** The server is node a of the state. */
  ghost predicate Runs(server: Server, s: State, a: Name, mine: set<Client>)
    reads server, server.brokerTopics, server.clusterTopics, server.Repr()
  {
    server.Valid() && a in s.nodes && s.nodes[a] == server.Node() && Wired(server.Node(), mine)
  }

  method HandleSubscribe(p: BrokerProcessor.Processor, client: Session, messageId: nat, topics: seq<string>,
                         ghost s: State, ghost a: Name, ghost mine: set<Client>)
    returns (ghost s': State, ghost ws: seq<Write>)
    requires Runs(p.s, s, a, mine) && client !in p.s.Repr() && client.Handle() in mine
    requires forall f | f in topics :: !Blank(f)
    modifies p.s`wire, p.s`subCount, client`topics, p.s.brokerTopics.Repr()
    ensures Runs(p.s, s', a, mine) && p.s.BrokerGrew()
    ensures Next(s, DoSubscribe(a, client.Handle(), topics), s')
    ensures p.s.wire == old(p.s.wire) + ws && Performs(s, DoSubscribe(a, client.Handle(), topics), mine, ws, s')
  {
    hide TopicTrie.Trie.Valid, SubscribeAll, Blank, Enumerates, WriteAll, WriteEach, Handles, Resends, SetOf, Next;
    hide Performs, Ledger.EnterAll, Ledger.SubDrift, TopicTrie.Trie.Value;
    ghost var n, h := p.s.Node(), client.Handle();
    ghost var ms, peers := p.ProcessSubscribe(client, messageId, topics);
    s' := SubscribeStep(s, a, mine, h, messageId, topics, ms, peers);
    SubscribeHandles(n.local, topics, h);
    ws := SubscribeWrites(h, messageId, ms, peers, topics);
  }

  method HandleUnsubscribe(p: BrokerProcessor.Processor, client: Session, messageId: nat, topics: seq<string>,
                           ghost s: State, ghost a: Name, ghost mine: set<Client>)
    returns (ghost s': State, ghost ws: seq<Write>)
    requires Runs(p.s, s, a, mine) && client !in p.s.Repr()
    modifies p.s`wire, p.s`subCount, client`topics, p.s.brokerTopics.Repr()
    ensures Runs(p.s, s', a, mine) && p.s.BrokerGrew()
    ensures Next(s, DoUnsubscribe(a, client.id, topics), s')
    ensures p.s.wire == old(p.s.wire) + ws && Performs(s, DoUnsubscribe(a, client.id, topics), mine, ws, s')
  {
    hide TopicTrie.Trie.Valid, UnsubscribeAll, Enumerates, WriteEach, Handles, SetOf, Next, Performs;
    hide Ledger.LeaveAll, Ledger.SubDrift, Ledger.Strays, TopicTrie.Trie.Value;
    ghost var n, h := p.s.Node(), client.Handle();
    ghost var peers := p.ProcessUnSubscribe(client, messageId, topics);
    s' := UnsubscribeStep(s, a, mine, h, messageId, topics, peers);
    UnsubscribeHandles(n.local, topics, client.id);
    ws := UnsubscribeWrites(h, messageId, peers, topics);
  }

  /** The end of a session is a step without a single packet. */
  method HandleDisconnect(p: BrokerProcessor.Processor, client: Session, ghost s: State, ghost a: Name,
                          ghost mine: set<Client>)
    returns (ghost s': State, ghost order: seq<string>)
    requires Runs(p.s, s, a, mine) && client !in p.s.Repr()
    modifies p.s`subCount, p.s`clientsConnected, p.s`clientsDisconnected, client`topics, client`open
    modifies p.s.brokerTopics.Repr()
    ensures Runs(p.s, s', a, mine) && p.s.BrokerGrew()
    ensures SetOf(order) == old(client.topics).Keys && Next(s, DoDisconnect(a, client.id, order), s')
    ensures p.s.wire == old(p.s.wire) && Performs(s, DoDisconnect(a, client.id, order), mine, [], s')
  {
    hide TopicTrie.Trie.Valid, UnsubscribeAll, Handles, SetOf, Distinct, Next, Performs;
    hide Ledger.LeaveAll, Ledger.SubDrift, Ledger.Strays, TopicTrie.Trie.Value;
    ghost var n := p.s.Node();
    order := p.ProcessDisconnect(client);
    s' := DisconnectStep(s, a, mine, client.id, order);
    UnsubscribeHandles(n.local, order, client.id);
  }

  /** A publish is a step if it is routed; else nothing but an acknowledgement is written. */
  method HandlePublish(p: BrokerProcessor.Processor, client: Session, packet: Message, ackOk: bool, now: nat,
                       ghost e: Event, ghost s: State, ghost a: Name, ghost mine: set<Client>)
    returns (ghost s': State, ghost ws: seq<Write>, ghost locals: seq<Client>, ghost remotes: seq<Client>)
    requires p.Valid() && Runs(p.s, s, a, mine) && !Blank(packet.topic) && e !in s.origin
    modifies p`qos2Msgs, p`handshakes, p.s`wire, p.s`pubRecv, p.s`pubSent, p.s`retain, p.s.brokerTopics.Repr()
    ensures p.Valid() && Runs(p.s, s', a, mine) && p.s.BrokerGrew() && p.s.wire == old(p.s.wire) + ws
    ensures if old(BrokerProcessor.Routed(p.handshakes, client.id, packet, ackOk, now))
            then var step := DoPublish(a, packet, e, locals, remotes);
                 Next(s, step, s') && Performs(s, step, mine, ws, s')
            else s' == s && IsAck(ws)
  {
    hide TopicTrie.Trie.Valid, Blank, OneEach, Table.Answers, Hits, RetainStep, WriteEach, Handles, Next, Performs;
    hide Ledger.Publishes, Ledger.RetainDrift, Qos2.Forwards, DropStep, Table.Retain;
    hide TopicTrie.Trie.Value, BrokerProcessor.Processor.Agrees;
    ghost var n := p.s.Node();
    ghost var routed, acks;
    routed, acks, locals, remotes := p.ProcessPublish(client, packet, ackOk, now);
    s', ws := s, acks;
    if routed {
      s' := PublishStep(s, a, mine, acks, packet, e, locals, remotes, p.s.Node().local);
      RetainHandles(n.local, packet, p.s.Node().local);
      ws := PublishWrites(acks, locals, remotes, packet);
    }
  }

  // ---------------------------------------------------------------- packets from peers

  method HandlePeerSubscribe(p: ClusterProcessor.Processor, client: Session, messageId: nat, topics: seq<string>,
                             ghost s: State, ghost b: Name, ghost mine: set<Client>)
    returns (ghost s': State, ghost ws: seq<Write>)
    requires Runs(p.s, s, b, mine) && Ready(s, client.id, b, mine) && Channel(s, client.id, b)[0] == Sub(topics)
    requires client !in p.s.Repr() && p.s.clusters[client.id] == client.Handle() && forall f | f in topics :: !Blank(f)
    modifies p.s`wire, client`topics, p.s.clusterTopics.Repr()
    ensures Runs(p.s, s', b, mine) && p.s.ClusterGrew() && Next(s, DoReceive(client.id, b, []), s')
    ensures p.s.wire == old(p.s.wire) + ws && Performs(s, DoReceive(client.id, b, []), mine, ws, s')
    ensures old(Tracks(p.s.Node().interest, client.id, client.topics.Keys)) ==>
            Tracks(p.s.Node().interest, client.id, client.topics.Keys)
  {
    hide TopicTrie.Trie.Valid, SubscribeAll, Blank, WriteAll, Handles, Resends, SetOf, Next, Performs, Tracks;
    ghost var n, h, held := p.s.Node(), client.Handle(), client.topics.Keys;
    ghost var ms := p.ProcessSubscribe(client, messageId, topics);
    s' := NoteStep(s, client.id, b, mine, messageId, topics, ms);
    SubscribeHandles(n.interest, topics, h);
    ws := [Write(h, Suback(messageId))] + WriteAll(h, ms);
    if Tracks(n.interest, client.id, held) {
      SubscribeTracks(n.interest, topics, h, held);
    }
  }

  method HandlePeerUnsubscribe(p: ClusterProcessor.Processor, client: Session, messageId: nat, topics: seq<string>,
                               ghost s: State, ghost b: Name, ghost mine: set<Client>)
    returns (ghost s': State, ghost ws: seq<Write>)
    requires Runs(p.s, s, b, mine) && Ready(s, client.id, b, mine) && Channel(s, client.id, b)[0] == Unsub(topics)
    requires client !in p.s.Repr()
    modifies p.s`wire, client`topics, p.s.clusterTopics.Repr()
    ensures Runs(p.s, s', b, mine) && p.s.ClusterGrew() && Next(s, DoReceive(client.id, b, []), s')
    ensures p.s.wire == old(p.s.wire) + ws && Performs(s, DoReceive(client.id, b, []), mine, ws, s')
    ensures old(Tracks(p.s.Node().interest, client.id, client.topics.Keys)) ==>
            Tracks(p.s.Node().interest, client.id, client.topics.Keys)
  {
    hide TopicTrie.Trie.Valid, UnsubscribeAll, Handles, SetOf, Next, Performs, Tracks;
    ghost var n, h, held := p.s.Node(), client.Handle(), client.topics.Keys;
    p.ProcessUnSubscribe(client, messageId, topics);
    s' := ForgetStep(s, client.id, b, mine, h, messageId, topics);
    UnsubscribeHandles(n.interest, topics, client.id);
    ws := [Write(h, Unsuback(messageId))];
    if Tracks(n.interest, client.id, held) {
      UnsubscribeTracks(n.interest, topics, client.id, held);
      assert client.topics.Keys == held - SetOf(topics);
    }
  }

  method HandlePeerPublish(p: ClusterProcessor.Processor, packet: Message, ghost e: Option<Event>, ghost s: State,
                           ghost a: Name, ghost b: Name, ghost mine: set<Client>)
    returns (ghost s': State, ghost ws: seq<Write>, ghost locals: seq<Client>)
    requires Runs(p.s, s, b, mine) && Ready(s, a, b, mine) && Channel(s, a, b)[0] == Pub(packet, e)
    requires !Blank(packet.topic)
    modifies p.s`wire, p.s`pubSent, p.s.brokerTopics.Repr()
    ensures Runs(p.s, s', b, mine) && p.s.BrokerGrew() && Next(s, DoReceive(a, b, locals), s')
    ensures p.s.wire == old(p.s.wire) + ws && Performs(s, DoReceive(a, b, locals), mine, ws, s')
  {
    hide TopicTrie.Trie.Valid, Blank, OneEach, Table.Answers, Hits, DropStep, WriteEach, Handles, Next, Performs;
    hide Ledger.Forgets, Ledger.RetainDrift, TopicTrie.Trie.Value, Clears;
    ghost var n := p.s.Node();
    locals := p.ProcessPublish(packet);
    s' := PeerPublishStep(s, a, b, mine, packet, e, locals, p.s.Node().local);
    if packet.retain {
      RetainHandles(n.local, packet, p.s.Node().local);
    }
    ws := WriteEach(locals, Publish(packet));
  }

  /** A new connection of a peer that the configuration names once, without white space around the name. The
      index may still name connections that the peer left behind. */
  method HandleAdmit(p: ClusterProcessor.Processor, client: Session, names: seq<string>, ghost s: State, ghost a: Name,
                     ghost mine: set<Client>) returns (ghost s': State, ghost ws: seq<Write>)
    requires Runs(p.s, s, a, mine) && client.id in s.nodes && client.id != a && client.id !in p.s.clusters
    requires multiset(names)[client.id] == 1 && TrimSpace(client.id) == client.id
    requires client.Handle() !in mine
    modifies p.s`wire, p.s`clusters
    ensures Runs(p.s, s', a, mine) && Next(s, LinkUp(a, client.id, client.Handle()), s')
    ensures p.s.wire == old(p.s.wire) + ws && Performs(s, LinkUp(a, client.id, client.Handle()), mine, ws, s')
  {
    hide TopicTrie.Trie.Valid, TrimSpace, Handles, Distinct, ClusterProcessor.Announce, Next, Performs;
    ghost var h := client.Handle();
    ghost var rounds := p.Admit(client, names);
    s' := LinkUpStep(s, a, mine, h, rounds[0]);
    ws := ClusterProcessor.Announce(h, rounds[0]);
    OneRound(p.s.clusters, h, rounds);
  }

  lemma OneRound(clusters: map<string, Client>, h: Client, rounds: seq<seq<string>>)
    requires |rounds| == 1 && TrimSpace(h.id) == h.id && h.id in clusters && clusters[h.id] == h
    ensures ClusterProcessor.Announcements(clusters, h.id, rounds) == ClusterProcessor.Announce(h, rounds[0])
  {
    hide TrimSpace, ClusterProcessor.Announce;
    var to := clusters[TrimSpace(h.id)];
    assert Parent(rounds) == [] && ClusterProcessor.AnnounceAll(to, []) == [];
    assert [] + ClusterProcessor.Announce(h, rounds[0]) == ClusterProcessor.Announce(h, rounds[0]);
  }

  /** Both ends notice that their link is gone. */
  method HandleLinkDown(p: ClusterProcessor.Processor, q: ClusterProcessor.Processor, toB: Session, toA: Session,
                        ghost s: State, ghost mine: set<Client>, ghost theirs: set<Client>) returns (ghost s': State)
    requires var a, b := toA.id, toB.id;
             a != b && Runs(p.s, s, a, mine) && Runs(q.s, s, b, theirs)
    requires Tracks(p.s.Node().interest, toB.id, toB.topics.Keys)
    requires Tracks(q.s.Node().interest, toA.id, toA.topics.Keys)
    requires p.s != q.s && p.s.Repr() !! q.s.Repr() && p.s !in q.s.Repr() && q.s !in p.s.Repr()
    requires toA != toB && {toA, toB} !! p.s.Repr() && {toA, toB} !! q.s.Repr()
    modifies p.s`clusters, q.s`clusters, toA`topics, toA`open, toB`topics, toB`open
    modifies p.s.clusterTopics.Repr(), q.s.clusterTopics.Repr()
    ensures var a, b := toA.id, toB.id;
            && Runs(p.s, s', a, mine) && Runs(q.s, s', b, theirs) && Next(s, LinkDown(a, b), s')
            && Performs(s, LinkDown(a, b), mine, [], s')
    ensures p.s.wire == old(p.s.wire) && q.s.wire == old(q.s.wire)
  {
    hide TopicTrie.Trie.Valid, Parted, Wired, CoversPeer, Tracks, Next, Performs, Server.Node;
    ghost var a, b := toA.id, toB.id;
    ghost var fb := Part(p, toB, mine);
    ghost var fa := PartBeside(q, toA, theirs, p.s);
    s' := LinkDownStep(s, a, b, mine, fa, fb);
  }

  /** One end. */
  method Part(p: ClusterProcessor.Processor, client: Session, ghost mine: set<Client>)
    returns (ghost filters: seq<string>)
    requires p.s.Valid() && client !in p.s.Repr() && Wired(p.s.Node(), mine)
    requires Tracks(p.s.Node().interest, client.id, client.topics.Keys)
    modifies p.s`clusters, client`topics, client`open, p.s.clusterTopics.Repr()
    ensures p.s.Valid() && p.s.ClusterGrew() && p.s.clusters == old(p.s.clusters) - {client.id}
    ensures p.s.Node() == Parted(old(p.s.Node()), client.id, filters) && Wired(p.s.Node(), mine)
    ensures CoversPeer(old(p.s.Node()), client.id, filters)
  {
    hide TopicTrie.Trie.Valid, Parted, Wired, SetOf, CoversPeer, Tracks;
    ghost var n, held := p.s.Node(), client.topics.Keys;
    filters := p.ProcessDisconnect(client);
    PartedWired(n, mine, client.id, filters);
    TracksCovers(n, client.id, filters, held);
  }

  lemma TracksCovers(n: Node, id: string, filters: seq<string>, held: set<string>)
    requires Tracks(n.interest, id, held) && SetOf(filters) == held
    ensures CoversPeer(n, id, filters)
  {
    hide Table.Removable;
    forall f | f in held ensures f in filters {
      assert f in SetOf(filters);
    }
  }

  /** The other end, on another server. */
  method PartBeside(p: ClusterProcessor.Processor, client: Session, ghost mine: set<Client>, ghost other: Server)
    returns (ghost filters: seq<string>)
    requires p.s.Valid() && client !in p.s.Repr() && Wired(p.s.Node(), mine)
    requires Tracks(p.s.Node().interest, client.id, client.topics.Keys)
    requires other.Valid() && other != p.s && other.Repr() !! p.s.Repr() && client !in other.Repr()
    requires other !in p.s.Repr() && p.s !in other.Repr()
    modifies p.s`clusters, client`topics, client`open, p.s.clusterTopics.Repr()
    ensures p.s.Valid() && p.s.ClusterGrew() && p.s.clusters == old(p.s.clusters) - {client.id}
    ensures p.s.Node() == Parted(old(p.s.Node()), client.id, filters) && Wired(p.s.Node(), mine)
    ensures CoversPeer(old(p.s.Node()), client.id, filters)
    ensures other.Valid() && other.Node() == old(other.Node()) && other.clusters == old(other.clusters)
  {
    hide TopicTrie.Trie.Valid, Parted, Wired, CoversPeer, Tracks;
    filters := Part(p, client, mine);
  }

  lemma PartedWired(n: Node, mine: set<Client>, b: Name, filters: seq<string>)
    requires Wired(n, mine)
    ensures Wired(Parted(n, b, filters), mine)
  {
    hide UnsubscribeAll, Handles;
    UnsubscribeHandles(n.interest, filters, b);
  }

  lemma LinkDownStep(s: State, a: Name, b: Name, mine: set<Client>, fa: seq<string>, fb: seq<string>)
    returns (s': State)
    requires a in s.nodes && b in s.nodes && a != b
    requires CoversPeer(s.nodes[a], b, fb) && CoversPeer(s.nodes[b], a, fa)
    ensures Next(s, LinkDown(a, b), s') && Performs(s, LinkDown(a, b), mine, [], s')
    ensures s'.nodes == s.nodes[a := Parted(s.nodes[a], b, fb)][b := Parted(s.nodes[b], a, fa)]
  {
    hide UnsubscribeAll, Puts, Counts, CoversPeer;
    s' := s.(nodes := s.nodes[a := Parted(s.nodes[a], b, fb)][b := Parted(s.nodes[b], a, fa)],
             channels := s.channels[(a, b) := []][(b, a) := []]);
    NothingPut(Popped(s, LinkDown(a, b)), a, OnPeers([], s'.nodes[a].peers, None), s');
    NothingCounted(s.sent, a, [], mine, false);
    NothingCounted(s.written, a, [], mine, true);
  }

  // ---------------------------------------------------------------- whole runs

  /** One call of a handler: the connections of its node's own clients, and what it wrote. */
  datatype Call = Call(mine: set<Client>, writes: seq<Write>)

  ghost predicate Traced(steps: seq<Step>, ss: seq<State>, calls: seq<Call>) {
    && |calls| == |steps| == |ss| - 1
    && forall i | 0 <= i < |steps| :: Performs(ss[i], steps[i], calls[i].mine, calls[i].writes, ss[i + 1])
  }

  /** How often a call of WritePacket wrote the event at node x to this connection, an own client's or not. */
  function Total(steps: seq<Step>, ss: seq<State>, calls: seq<Call>, k: nat, own: bool, x: Name, c: Client,
                 e: Event): nat
    requires k <= |steps| == |calls| < |ss|
  {
    if k == 0 then 0
    else
      Total(steps, ss, calls, k - 1, own, x, c, e) +
      if Actor(steps[k - 1]) == x && EventOf(ss[k - 1], steps[k - 1]) == Some(e) && (c in calls[k - 1].mine) == own
      then Copies(calls[k - 1].writes, c) else 0
  }

  lemma {:induction false} TotalsAreCounts(steps: seq<Step>, ss: seq<State>, calls: seq<Call>, k: nat, x: Name,
                                           c: Client, e: Event)
    requires Run(steps, ss) && Traced(steps, ss, calls) && k <= |steps|
    ensures Total(steps, ss, calls, k, true, x, c, e) == ss[k].written[(x, c, e)]
    ensures Total(steps, ss, calls, k, false, x, c, e) == ss[k].sent[(x, c, e)]
  {
    hide Next, Copies, Puts, EventOf, Actor;
    if k > 0 {
      TotalsAreCounts(steps, ss, calls, k - 1, x, c, e);
      assert Performs(ss[k - 1], steps[k - 1], calls[k - 1].mine, calls[k - 1].writes, ss[k]);
    }
  }

  /** In every run of handler calls, however stale the interest tables are and however often links went down and
      came back: WritePacket is called at most once to write an event to a client id of a node, over all the
      connections of that id, and at most once to write it to a peer, left-behind connections included, which
      only the node that it was published at does. */
  lemma WrittenAtMostOnce(steps: seq<Step>, ss: seq<State>, calls: seq<Call>, k: nat, own: bool, x: Name, c: Client,
                          d: Client, e: Event)
    requires Run(steps, ss) && Traced(steps, ss, calls) && k <= |steps|
    ensures Total(steps, ss, calls, k, own, x, c, e) <= 1
    ensures c.id == d.id && c != d ==>
              Total(steps, ss, calls, k, own, x, c, e) + Total(steps, ss, calls, k, own, x, d, e) <= 1
    ensures Total(steps, ss, calls, k, false, x, c, e) > 0 ==> e in ss[k].origin && ss[k].origin[e] == x
  {
    hide Next, Init, Traced, Total;
    TotalsAreCounts(steps, ss, calls, k, x, c, e);
    TotalsAreCounts(steps, ss, calls, k, x, d, e);
    Delivery.AtMostOnce(steps, ss, k, x, c, d, e);
  }
}
