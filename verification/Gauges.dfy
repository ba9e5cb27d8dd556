/** The gauges over whole runs of one broker. */
module Gauges {
  import opened Topics
  import opened Table
  import opened Listing
  import opened Fanout
  import opened TopicTrie
  import opened TrieSpec
  import opened TrieLaws
  import opened Ledgers
  import opened Servers
  import BrokerProcessor
  import ClusterProcessor
  import Cluster
  import Qos2

  /** The clients' index with its gauges, and the topic set of each session by client id. */
  datatype Gauged = Gauged(book: Ledger, held: map<string, set<string>>)
  {
    function HeldBy(id: string): set<string> {
      if id in held then held[id] else {}
    }
  }

  datatype Event =
    | Subscribes(client: Client, topics: seq<string>)
    | Unsubscribes(id: string, topics: seq<string>)
    | Ends(id: string, order: seq<string>)
    | Publishes(message: Message)
    | PeerPublishes(message: Message)
    | Idle

  const NEW_BOOKS := Ledger(State(map[], map[[] := map[]]), EMPTY, 0, 0)

  /** What the code does to the counts; whether they stay right is not part of it. */
  ghost predicate Next(g: Gauged, e: Event, g': Gauged) {
    match e
    case Subscribes(c, topics) =>
      g'.book == g.book.EnterAll(topics, c) && HeldBecomes(g, g', c.id, g.HeldBy(c.id) + SetOf(topics))
    case Unsubscribes(id, topics) =>
      g'.book == g.book.LeaveAll(topics, id) && HeldBecomes(g, g', id, g.HeldBy(id) - SetOf(topics))
    case Ends(id, order) =>
      && Distinct(order) && SetOf(order) == g.HeldBy(id)
      && g'.book == g.book.LeaveAll(order, id) && HeldBecomes(g, g', id, {})
    case Publishes(m) => !Blank(m.topic) && g.book.Publishes(m, g'.book) && g'.held == g.held
    case PeerPublishes(m) => !Blank(m.topic) && g.book.Forgets(m, g'.book) && g'.held == g.held
    case Idle => g' == g
  }

  ghost predicate HeldBecomes(g: Gauged, g': Gauged, id: string, now: set<string>) {
    forall i :: g'.HeldBy(i) == if i == id then now else g.HeldBy(i)
  }

  ghost predicate Run(es: seq<Event>, gs: seq<Gauged>) {
    && |gs| == |es| + 1
    && gs[0].book == NEW_BOOKS && (forall id :: gs[0].HeldBy(id) == {})
    && forall i | 0 <= i < |es| :: Next(gs[i], es[i], gs[i + 1])
  }

  // ---------------------------------------------------------------- what the gauges count

  /** Every filter in a session's topic set is live for it. */
  ghost predicate HeldIsLive(g: Gauged) {
    forall id, f | f in g.HeldBy(id) :: (f, id) in g.book.table.live
  }

  ghost predicate Steady(g: Gauged) {
    g.book.Sound() && HeldIsLive(g)
  }

  /** Topics of an UNSUBSCRIBE whose filter had a leaf that the client was not on. */
  ghost function Strayed(g: Gauged, e: Event): nat {
    if e.Unsubscribes? then g.book.Strays(e.topics, e.id) else 0
  }

  /** A message that a peer's publish took away. */
  ghost function Taken(g: Gauged, e: Event): nat {
    if e.PeerPublishes? && e.message.retain && Clears(g.book.table, e.message.topic) then 1 else 0
  }

  ghost function AllStrayed(es: seq<Event>, gs: seq<Gauged>, k: nat): nat
    requires k <= |es| < |gs|
  {
    if k == 0 then 0 else AllStrayed(es, gs, k - 1) + Strayed(gs[k - 1], es[k - 1])
  }

  ghost function AllTaken(es: seq<Event>, gs: seq<Gauged>, k: nat): nat
    requires k <= |es| < |gs|
  {
    if k == 0 then 0 else AllTaken(es, gs, k - 1) + Taken(gs[k - 1], es[k - 1])
  }

  lemma HeldHolds(g: Gauged, id: string, topics: seq<string>)
    requires HeldIsLive(g) && SetOf(topics) <= g.HeldBy(id)
    ensures HoldsAll(g.book.table, topics, id)
  {
    forall f | f in topics ensures (f, id) in g.book.table.live {
      assert f in SetOf(topics);
    }
  }

  lemma StillHeld(g: Gauged, g': Gauged, id: string, gone: seq<string>)
    requires HeldIsLive(g) && g'.book.table == Cluster.UnsubscribeAll(g.book.table, gone, id)
    requires HeldBecomes(g, g', id, g.HeldBy(id) - SetOf(gone))
    ensures HeldIsLive(g')
  {
    hide Cluster.UnsubscribeAll, Gauged.HeldBy;
    forall i, f | f in g'.HeldBy(i) ensures (f, i) in g'.book.table.live {
      OthersStay(g.book.table, gone, id, f, i);
    }
  }

  lemma NowHeld(g: Gauged, g': Gauged, c: Client, more: seq<string>)
    requires HeldIsLive(g) && g'.book.table == Cluster.SubscribeAll(g.book.table, more, c)
    requires HeldBecomes(g, g', c.id, g.HeldBy(c.id) + SetOf(more))
    ensures HeldIsLive(g')
  {
    hide Cluster.SubscribeAll;
    AllStay(g.book.table, more, c);
  }

  /** One event, exactly: only an UNSUBSCRIBE moves SubCount away from the number of live pairs, and
      only a peer's publish Retain away from the number of retained messages. */
  lemma StepCounts(g: Gauged, e: Event, g': Gauged)
    requires Steady(g) && Next(g, e, g')
    ensures Steady(g')
    ensures g'.book.SubDrift() == g.book.SubDrift() - Strayed(g, e)
    ensures g'.book.RetainDrift() == g.book.RetainDrift() + Taken(g, e)
  {
    hide Ledger.Sound, Ledger.EnterAll, Ledger.LeaveAll, Ledger.Publishes, Ledger.Forgets, Ledger.Strays, Clears;
    hide HoldsAll, Cluster.SubscribeAll, Cluster.UnsubscribeAll, Distinct, Blank, HeldIsLive, Gauged.HeldBy;
    hide Ledger.SubDrift, Ledger.RetainDrift, DropStep, Cluster.RetainStep;
    match e
    case Subscribes(c, topics) =>
      g.book.EnterAllCounts(topics, c);
      NowHeld(g, g', c, topics);
    case Unsubscribes(id, topics) =>
      g.book.LeaveAllCounts(topics, id);
      StillHeld(g, g', id, topics);
    case Ends(id, order) =>
      HeldHolds(g, id, order);
      g.book.HeldNoStrays(order, id);
      g.book.LeaveAllCounts(order, id);
      StillHeld(g, g', id, order);
    case Publishes(m) =>
      g.book.PublishCounts(m, g'.book);
      SameHeld(g, g', m);
    case PeerPublishes(m) =>
      g.book.ForgetCounts(m, g'.book);
      SameHeld(g, g', m);
    case Idle =>
  }

  lemma SameHeld(g: Gauged, g': Gauged, m: Message)
    requires !Blank(m.topic) && g'.held == g.held && HeldIsLive(g)
    requires g.book.Publishes(m, g'.book) || g.book.Forgets(m, g'.book)
    ensures HeldIsLive(g')
  {
    hide Cleared, KeepState, DropKeptState, KeepPath, Clears, Blank;
    assert forall id :: g'.HeldBy(id) == g.HeldBy(id);
  }

  /** Over every run: SubCount is the number of live (filter, id) pairs less the strays of all UNSUBSCRIBE
      packets, and Retain the number of retained messages plus those that peers' publishes took away. */
  lemma {:induction false} RunCounts(es: seq<Event>, gs: seq<Gauged>, k: nat)
    requires Run(es, gs) && k <= |es|
    ensures Steady(gs[k])
    ensures gs[k].book.subCount == |gs[k].book.table.live| - AllStrayed(es, gs, k)
    ensures gs[k].book.retain == |gs[k].book.table.retained| + AllTaken(es, gs, k)
  {
    hide Next, Strayed, Taken, HeldIsLive, Ledger.Sound;
    if k > 0 {
      RunCounts(es, gs, k - 1);
      StepCounts(gs[k - 1], es[k - 1], gs[k]);
    } else {
      SteadyAtFirst(gs[0]);
    }
  }

  lemma SteadyAtFirst(g: Gauged)
    requires g.book == NEW_BOOKS && forall id :: g.HeldBy(id) == {}
    ensures Steady(g)
  {
    EmptyWF(NEW_BOOKS.table);
  }

  /** SubCount is right exactly if no UNSUBSCRIBE so far named a filter that had a leaf when its turn came
      but was not this client's. */
  lemma {:induction false} CountIsRight(es: seq<Event>, gs: seq<Gauged>, k: nat)
    requires Run(es, gs) && k <= |es|
    ensures gs[k].book.subCount == |gs[k].book.table.live| <==>
            forall i | 0 <= i < k && es[i].Unsubscribes? ::
              forall j: nat :: !gs[i].book.StrayAt(es[i].topics, j, es[i].id)
  {
    hide Next, Steady, Ledger.StrayAt, Ledger.Strays;
    RunCounts(es, gs, k);
    NoneStrayed(es, gs, k);
    forall i | 0 <= i < k && es[i].Unsubscribes?
      ensures Strayed(gs[i], es[i]) == 0 <==> forall j: nat :: !gs[i].book.StrayAt(es[i].topics, j, es[i].id)
    {
      gs[i].book.NoStrays(es[i].topics, es[i].id);
    }
  }

  lemma {:induction false} NoneStrayed(es: seq<Event>, gs: seq<Gauged>, k: nat)
    requires k <= |es| < |gs|
    ensures AllStrayed(es, gs, k) == 0 <==> forall i | 0 <= i < k :: Strayed(gs[i], es[i]) == 0
  {
    hide Strayed;
    if k == 0 {
      assert AllStrayed(es, gs, 0) == 0;
    } else {
      NoneStrayed(es, gs, k - 1);
      assert AllStrayed(es, gs, k) == AllStrayed(es, gs, k - 1) + Strayed(gs[k - 1], es[k - 1]);
    }
  }

  /** It does go wrong: client "2" unsubscribes "t", which only client "1" holds. One pair is live then, and
      SubCount is 0. */
  lemma StrayHappens() returns (es: seq<Event>, gs: seq<Gauged>)
    ensures Run(es, gs) && |es| == 2
    ensures gs[2].book.subCount == 0 && |gs[2].book.table.live| == 1
  {
    hide Ledger.EnterAll, Ledger.LeaveAll, SetOf;
    var c := Client("1", 1);
    es := [Subscribes(c, ["t"]), Unsubscribes("2", ["t"])];
    var b := NEW_BOOKS.EnterAll(["t"], c);
    gs := [Gauged(NEW_BOOKS, map[]), Gauged(b, map["1" := {"t"}]),
           Gauged(b.LeaveAll(["t"], "2"), map["1" := {"t"}, "2" := {}])];
    SetOfMore([], "t");
    assert [] + ["t"] == ["t"];
    OneLeaf(c);
    NextPair(gs, es);
  }

  lemma NextPair(gs: seq<Gauged>, es: seq<Event>)
    requires |gs| == 3 && |es| == 2 && gs[0].book == NEW_BOOKS && (forall id :: gs[0].HeldBy(id) == {})
    requires Next(gs[0], es[0], gs[1]) && Next(gs[1], es[1], gs[2])
    ensures Run(es, gs)
  {
    hide Next;
  }

  lemma OneLeaf(c: Client)
    requires c.id == "1"
    ensures var b := NEW_BOOKS.EnterAll(["t"], c).LeaveAll(["t"], "2"); b.subCount == 0 && |b.table.live| == 1
  {
    var b := NEW_BOOKS.Enter("t", c);
    Entered(c);
    hide Ledger.Enter, Ledger.Leave;
    assert Parent(["t"]) == [] && Last(["t"]) == "t";
    assert NEW_BOOKS.EnterAll([], c) == NEW_BOOKS && b.LeaveAll([], "2") == b;
    assert NEW_BOOKS.EnterAll(["t"], c) == b && b.LeaveAll(["t"], "2") == b.Leave("t", "2");
  }

  lemma Entered(c: Client)
    requires c.id == "1"
    ensures var b := NEW_BOOKS.Enter("t", c).Leave("t", "2"); b.subCount == 0 && |b.table.live| == 1
  {
    assert !Wild("t");
    var b := NEW_BOOKS.Enter("t", c);
    assert b.Found("t") && b.table.live == map[("t", "1") := c];
    assert b.table.live - {("t", "2")} == b.table.live;
  }

  /** Clients unsubscribe only filters that they hold, each once. */
  ghost predicate Orderly(g: Gauged, e: Event) {
    e.Unsubscribes? ==> Distinct(e.topics) && SetOf(e.topics) <= g.HeldBy(e.id)
  }

  /** In particular if clients are orderly. */
  lemma OrderlyIsRight(es: seq<Event>, gs: seq<Gauged>, k: nat)
    requires Run(es, gs) && k <= |es|
    requires forall i | 0 <= i < k :: Orderly(gs[i], es[i])
    ensures gs[k].book.subCount == |gs[k].book.table.live|
  {
    hide Next, Ledger.Strays, Distinct, SetOf, HoldsAll, Ledger.Sound;
    RunCounts(es, gs, k);
    NoneStrayed(es, gs, k);
    forall i | 0 <= i < k ensures Strayed(gs[i], es[i]) == 0 {
      RunCounts(es, gs, i);
      if es[i].Unsubscribes? {
        HeldHolds(gs[i], es[i].id, es[i].topics);
        gs[i].book.HeldNoStrays(es[i].topics, es[i].id);
      }
    }
  }

  // ---------------------------------------------------------------- the handlers

  /** A packet that reaches a handler, or the end of a session. */
  datatype Request =
    | SubscribeFrom(id: string, messageId: nat, topics: seq<string>)
    | UnsubscribeFrom(id: string, messageId: nat, topics: seq<string>)
    | PublishFrom(id: string, packet: Message, ackOk: bool, now: nat)
    | PubrelFrom(id: string, messageId: nat)
    | PublishFromPeer(packet: Message)
    | EndOf(id: string)
  {
    predicate Fits(ids: set<string>) {
      match this
      case SubscribeFrom(id, _, topics) => id in ids && forall f | f in topics :: !Blank(f)
      case UnsubscribeFrom(id, _, _) => id in ids
      case PublishFrom(id, packet, _, _) => id in ids && !Blank(packet.topic)
      case PubrelFrom(id, _) => id in ids
      case PublishFromPeer(packet) => !Blank(packet.topic)
      case EndOf(id) => id in ids
    }
  }

  /** What handling the request does: which event of the books it is, and what becomes of the handshakes. */
  ghost predicate Gives(r: Request, h: Qos2.Handshakes, e: Event, h': Qos2.Handshakes) {
    match r
    case SubscribeFrom(id, _, topics) => e.Subscribes? && e.client.id == id && e.topics == topics && h' == h
    case UnsubscribeFrom(id, _, topics) => e == Unsubscribes(id, topics) && h' == h
    case PublishFrom(id, packet, ackOk, now) =>
      && e == (if BrokerProcessor.Routed(h, id, packet, ackOk, now) then Publishes(packet) else Idle)
      && h' == if packet.qos == 2 then h.Save(packet.messageId, now) else h
    case PubrelFrom(_, messageId) => e == Idle && h' == h.Release(messageId)
    case PublishFromPeer(packet) => e == PeerPublishes(packet) && h' == h
    case EndOf(id) => e.Ends? && e.id == id && h' == h
  }

  /** The sessions of one broker, one for each id. */
  ghost predicate Hosts(b: BrokerProcessor.Processor, c: ClusterProcessor.Processor, sessions: map<string, Session>)
    reads b, b.s.brokerTopics, b.s.clusterTopics, b.s.Repr(), sessions.Values
  {
    && b.Valid() && c.s == b.s
    && forall id | id in sessions :: sessions[id].id == id && sessions[id] !in b.s.Repr()
  }

  ghost function Now(s: Server, sessions: map<string, Session>): Gauged
    reads s`subCount, s`retain, s.brokerTopics, sessions.Values
  {
    Gauged(s.Books(), map id | id in sessions :: sessions[id].topics.Keys)
  }

  lemma ChangedOne(s: Server, sessions: map<string, Session>, id: string, g: Gauged, now: set<string>)
    requires id in sessions && g.held.Keys == sessions.Keys
    requires sessions[id].topics.Keys == now
    requires forall i | i in sessions && i != id :: sessions[i].topics.Keys == g.held[i]
    ensures HeldBecomes(g, Now(s, sessions), id, now)
  {
    hide Server.Books;
  }

  method ServeSubscribe(b: BrokerProcessor.Processor, c: ClusterProcessor.Processor, sessions: map<string, Session>,
                        id: string, messageId: nat, topics: seq<string>) returns (ghost e: Event)
    requires Hosts(b, c, sessions) && id in sessions && forall f | f in topics :: !Blank(f)
    modifies b.s, sessions.Values, b.s.brokerTopics.Repr()
    ensures Hosts(b, c, sessions) && b.s.BrokerGrew()
    ensures e.Subscribes? && e.client.id == id && e.topics == topics
    ensures Next(old(Now(b.s, sessions)), e, Now(b.s, sessions))
  {
    hide Trie.Valid, Ledger.EnterAll, Cluster.SubscribeAll, Blank, Enumerates, WriteAll, WriteEach, SetOf;
    hide Cluster.Resends, Server.Node, Trie.Value, Ledger.SubDrift, HeldBecomes, Blank;
    ghost var g := Now(b.s, sessions);
    var client := sessions[id];
    ghost var ms, peers := b.ProcessSubscribe(client, messageId, topics);
    e := Subscribes(client.Handle(), topics);
    ChangedOne(b.s, sessions, id, g, g.HeldBy(id) + SetOf(topics));
  }

  method ServeUnsubscribe(b: BrokerProcessor.Processor, c: ClusterProcessor.Processor, sessions: map<string, Session>,
                          id: string, messageId: nat, topics: seq<string>) returns (ghost e: Event)
    requires Hosts(b, c, sessions) && id in sessions
    modifies b.s, sessions.Values, b.s.brokerTopics.Repr()
    ensures Hosts(b, c, sessions) && b.s.BrokerGrew()
    ensures e == Unsubscribes(id, topics)
    ensures Next(old(Now(b.s, sessions)), e, Now(b.s, sessions))
  {
    hide Trie.Valid, Ledger.LeaveAll, Cluster.UnsubscribeAll, Enumerates, WriteEach, SetOf;
    hide Server.Node, Trie.Value, Ledger.SubDrift, Ledger.Strays, HeldBecomes;
    ghost var g := Now(b.s, sessions);
    var client := sessions[id];
    ghost var peers := b.ProcessUnSubscribe(client, messageId, topics);
    e := Unsubscribes(id, topics);
    ChangedOne(b.s, sessions, id, g, g.HeldBy(id) - SetOf(topics));
  }

  method ServePublish(b: BrokerProcessor.Processor, c: ClusterProcessor.Processor, sessions: map<string, Session>,
                      id: string, packet: Message, ackOk: bool, now: nat) returns (ghost e: Event)
    requires Hosts(b, c, sessions) && id in sessions && !Blank(packet.topic)
    modifies b, b.s, sessions.Values, b.s.brokerTopics.Repr()
    ensures Hosts(b, c, sessions) && b.s.BrokerGrew()
    ensures e == if old(BrokerProcessor.Routed(b.handshakes, id, packet, ackOk, now)) then Publishes(packet) else Idle
    ensures b.handshakes == if packet.qos == 2 then old(b.handshakes).Save(packet.messageId, now) else old(b.handshakes)
    ensures Next(old(Now(b.s, sessions)), e, Now(b.s, sessions))
  {
    hide Trie.Valid, OneEach, Table.Answers, WriteEach, Cluster.Hits, Cluster.RetainStep, Ledger.Publishes, Blank;
    hide Trie.Value, Ledger.RetainDrift, Qos2.Forwards, Qos2.Handshakes.Save, DropStep, Table.Retain;
    ghost var routed, acks, locals, remotes := b.ProcessPublish(sessions[id], packet, ackOk, now);
    e := if routed then Publishes(packet) else Idle;
  }

  method ServePubrel(b: BrokerProcessor.Processor, c: ClusterProcessor.Processor, sessions: map<string, Session>,
                     id: string, messageId: nat) returns (ghost e: Event)
    requires Hosts(b, c, sessions) && id in sessions
    modifies b, b.s
    ensures Hosts(b, c, sessions) && b.s.BrokerGrew()
    ensures e == Idle && b.handshakes == old(b.handshakes).Release(messageId)
    ensures Next(old(Now(b.s, sessions)), e, Now(b.s, sessions))
  {
    hide Trie.Valid, Trie.Value, Qos2.Handshakes.Release;
    b.ProcessPubrel(sessions[id], messageId);
    e := Idle;
  }

  method ServePeer(b: BrokerProcessor.Processor, c: ClusterProcessor.Processor, sessions: map<string, Session>,
                   packet: Message) returns (ghost e: Event)
    requires Hosts(b, c, sessions) && !Blank(packet.topic)
    modifies b.s, b.s.brokerTopics.Repr()
    ensures Hosts(b, c, sessions) && b.s.BrokerGrew()
    ensures e == PeerPublishes(packet)
    ensures Next(old(Now(b.s, sessions)), e, Now(b.s, sessions))
  {
    hide Trie.Valid, OneEach, Table.Answers, WriteEach, Cluster.Hits, Ledger.Forgets, Blank, DropStep, Clears;
    hide Trie.Value, Ledger.RetainDrift;
    ghost var locals := c.ProcessPublish(packet);
    e := PeerPublishes(packet);
  }

  method ServeEnd(b: BrokerProcessor.Processor, c: ClusterProcessor.Processor, sessions: map<string, Session>,
                  id: string) returns (ghost e: Event)
    requires Hosts(b, c, sessions) && id in sessions
    modifies b.s, sessions.Values, b.s.brokerTopics.Repr()
    ensures Hosts(b, c, sessions) && b.s.BrokerGrew()
    ensures e.Ends? && e.id == id
    ensures Next(old(Now(b.s, sessions)), e, Now(b.s, sessions))
  {
    hide Trie.Valid, Ledger.LeaveAll, Cluster.UnsubscribeAll, SetOf, Distinct, Ledger.Strays;
    hide Server.Node, Trie.Value, Ledger.SubDrift, HeldBecomes;
    ghost var g := Now(b.s, sessions);
    ghost var order := b.ProcessDisconnect(sessions[id]);
    e := Ends(id, order);
    ChangedOne(b.s, sessions, id, g, {});
  }

  /** Every handler call is a step: which one each request gives, and the gauges and topic sets that it leaves. */
  method Serve(b: BrokerProcessor.Processor, c: ClusterProcessor.Processor, sessions: map<string, Session>, r: Request)
    returns (ghost e: Event)
    requires Hosts(b, c, sessions) && r.Fits(sessions.Keys)
    modifies b, b.s, sessions.Values, b.s.brokerTopics.Repr()
    ensures Hosts(b, c, sessions) && b.s.BrokerGrew()
    ensures Gives(r, old(b.handshakes), e, b.handshakes)
    ensures Next(old(Now(b.s, sessions)), e, Now(b.s, sessions))
  {
    hide Next, Qos2.Handshakes.Save, Qos2.Handshakes.Release, BrokerProcessor.Routed, Trie.Valid, Trie.Value;
    match r
    case SubscribeFrom(id, messageId, topics) => e := ServeSubscribe(b, c, sessions, id, messageId, topics);
    case UnsubscribeFrom(id, messageId, topics) => e := ServeUnsubscribe(b, c, sessions, id, messageId, topics);
    case PublishFrom(id, packet, ackOk, now) => e := ServePublish(b, c, sessions, id, packet, ackOk, now);
    case PubrelFrom(id, messageId) => e := ServePubrel(b, c, sessions, id, messageId);
    case PublishFromPeer(packet) => e := ServePeer(b, c, sessions, packet);
    case EndOf(id) => e := ServeEnd(b, c, sessions, id);
  }

  lemma RunMore(es: seq<Event>, gs: seq<Gauged>, e: Event, g: Gauged)
    requires Run(es, gs) && Next(Last(gs), e, g)
    ensures Run(es + [e], gs + [g])
  {
    hide Next;
    forall i | 0 <= i <= |es| ensures Next((gs + [g])[i], (es + [e])[i], (gs + [g])[i + 1]) {
      if i < |es| {
        assert Next(gs[i], es[i], gs[i + 1]);
      }
    }
  }

  /** The theorem about the running code: from a new broker on, whatever packets its handlers are
      called with and in whatever order, the gauges are what RunCounts says. */
  method ServeAll(b: BrokerProcessor.Processor, c: ClusterProcessor.Processor, sessions: map<string, Session>,
                  requests: seq<Request>)
    returns (ghost es: seq<Event>, ghost gs: seq<Gauged>, ghost hs: seq<Qos2.Handshakes>)
    requires Hosts(b, c, sessions) && forall r | r in requests :: r.Fits(sessions.Keys)
    requires b.s.Books() == NEW_BOOKS && forall id | id in sessions :: sessions[id].topics == map[]
    modifies b, b.s, sessions.Values, b.s.brokerTopics.Repr()
    ensures Hosts(b, c, sessions)
    ensures |es| == |requests| && Run(es, gs) && Last(gs) == Now(b.s, sessions)
    ensures |hs| == |requests| + 1 && hs[0] == old(b.handshakes) && Last(hs) == b.handshakes
    ensures forall i | 0 <= i < |requests| :: Gives(requests[i], hs[i], es[i], hs[i + 1])
    ensures b.s.subCount == |b.s.brokerTopics.table.live| - AllStrayed(es, gs, |es|)
    ensures b.s.retain == |b.s.brokerTopics.table.retained| + AllTaken(es, gs, |es|)
  {
    hide Trie.Valid, Trie.Value, Trie.Repr, Request.Fits, Next, AllStrayed, AllTaken, Steady, Gives;
    es, gs, hs := [], [Now(b.s, sessions)], [b.handshakes];
    for i := 0 to |requests|
      invariant Hosts(b, c, sessions) && b.s.BrokerGrew()
      invariant |es| == i && Run(es, gs) && Last(gs) == Now(b.s, sessions)
      invariant |hs| == i + 1 && hs[0] == old(b.handshakes) && Last(hs) == b.handshakes
      invariant forall j | 0 <= j < i :: Gives(requests[j], hs[j], es[j], hs[j + 1])
    {
      ghost var e := Serve(b, c, sessions, requests[i]);
      RunMore(es, gs, e, Now(b.s, sessions));
      es, gs, hs := es + [e], gs + [Now(b.s, sessions)], hs + [b.handshakes];
    }
    RunCounts(es, gs, |es|);
  }
}
