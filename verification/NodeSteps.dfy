/** Every call of a handler is a step of the cluster: the node it leaves behind is the step's, and what
    it writes to connections is what the step puts on channels and counts as sent and written. */
module NodeSteps {
  import opened Topics
  import opened Table
  import opened Listing
  import opened Fanout
  import opened Servers
  import opened Cluster
  import ClusterProcessor
  import Delivery

  function Handles(t: Table): set<Client> {
    t.live.Values + t.copies.Values
  }

  /** The clients' index names connections of own clients, `mine`, and the peers' index none of those. It may
      name connections that a peer has left behind. */
  ghost predicate Wired(n: Node, mine: set<Client>) {
    PeersOk(n.peers, mine) && Handles(n.local) <= mine && Handles(n.interest) !! mine
  }

  ghost predicate PeersOk(peers: map<Name, Client>, mine: set<Client>) {
    forall b | b in peers :: peers[b].id == b && peers[b] !in mine
  }

  // ---------------------------------------------------------------- writes and channels

  /** What a packet is on a channel; acknowledgements are taken without effect. */
  function Carry(p: Servers.Packet, e: Option<Event>): seq<Cluster.Packet> {
    match p
    case Publish(m) => [Pub(m, e)]
    case Subscribe(topics) => [Sub(topics)]
    case Unsubscribe(topics) => [Unsub(topics)]
    case _ => []
  }

  /** The packets among the writes that go to one connection, in order. */
  function OnChannel(ws: seq<Write>, to: Client, e: Option<Event>): seq<Cluster.Packet> {
    if ws == [] then [] else OnChannel(Parent(ws), to, e) + Goes(Last(ws), to, e)
  }

  function Goes(w: Write, to: Client, e: Option<Event>): seq<Cluster.Packet> {
    if w.to == to then Carry(w.packet, e) else []
  }

  lemma Associates<T>(a: seq<T>, b: seq<T>, c: seq<T>)
    ensures (a + b) + c == a + (b + c)
  {
  }

  /** How many publishes are written to a connection. */
  function Copies(ws: seq<Write>, c: Client): nat {
    if ws == [] then 0 else Copies(Parent(ws), c) + if Copied(Last(ws), c) then 1 else 0
  }

  predicate Copied(w: Write, c: Client) {
    w.packet.Publish? && w.to == c
  }

  lemma {:induction false} OnChannelJoin(ws: seq<Write>, more: seq<Write>, to: Client, e: Option<Event>)
    ensures OnChannel(ws + more, to, e) == OnChannel(ws, to, e) + OnChannel(more, to, e)
  {
    if more == [] {
      assert ws + more == ws;
    } else {
      hide Goes;
      OnChannelJoin(ws, Parent(more), to, e);
      assert Parent(ws + more) == ws + Parent(more) && Last(ws + more) == Last(more);
      Associates(OnChannel(ws, to, e), OnChannel(Parent(more), to, e), Goes(Last(more), to, e));
    }
  }

  lemma {:induction false} CopiesJoin(ws: seq<Write>, more: seq<Write>, c: Client)
    ensures Copies(ws + more, c) == Copies(ws, c) + Copies(more, c)
  {
    if more == [] {
      assert ws + more == ws;
    } else {
      hide Copied;
      CopiesJoin(ws, Parent(more), c);
      assert Parent(ws + more) == ws + Parent(more) && Last(ws + more) == Last(more);
    }
  }

  lemma AckOnChannel(h: Client, p: Servers.Packet, to: Client, e: Option<Event>)
    requires !p.Publish? && !p.Subscribe? && !p.Unsubscribe?
    ensures OnChannel([Write(h, p)], to, e) == [] && Copies([Write(h, p)], to) == 0
  {
    assert Parent([Write(h, p)]) == [];
  }

  lemma WriteEachFront(cs: seq<Client>, p: Servers.Packet)
    requires cs != []
    ensures WriteEach(cs, p) != [] && Parent(WriteEach(cs, p)) == WriteEach(Parent(cs), p)
    ensures Last(WriteEach(cs, p)) == Write(Last(cs), p)
  {
  }

  lemma FrontOnce(cs: seq<Client>)
    requires cs != [] && NoIdTwice(cs)
    ensures NoIdTwice(Parent(cs)) && Last(cs) !in Parent(cs)
    ensures forall c | c in Parent(cs) :: c.id != Last(cs).id
    ensures forall c :: c in cs <==> c in Parent(cs) || c == Last(cs)
  {
    assert cs == Parent(cs) + [Last(cs)];
  }

  lemma {:induction false} EachOnChannel(cs: seq<Client>, p: Servers.Packet, to: Client, e: Option<Event>)
    requires NoIdTwice(cs)
    ensures OnChannel(WriteEach(cs, p), to, e) == if to in cs then Carry(p, e) else []
  {
    if cs != [] {
      hide WriteEach, NoIdTwice, Carry;
      WriteEachFront(cs, p);
      FrontOnce(cs);
      EachOnChannel(Parent(cs), p, to, e);
    }
  }

  lemma {:induction false} EachCopies(cs: seq<Client>, m: Message, c: Client)
    requires NoIdTwice(cs)
    ensures Copies(WriteEach(cs, Publish(m)), c) == if c in cs then 1 else 0
  {
    if cs != [] {
      hide WriteEach, NoIdTwice;
      WriteEachFront(cs, Publish(m));
      FrontOnce(cs);
      EachCopies(Parent(cs), m, c);
    }
  }

  function Tagged(ms: seq<Message>, e: Option<Event>): (ps: seq<Cluster.Packet>)
    ensures |ps| == |ms| && forall i | 0 <= i < |ps| :: ps[i] == Pub(ms[i], e)
  {
    seq(|ms|, i requires 0 <= i < |ms| => Pub(ms[i], e))
  }

  lemma {:induction false} AllOnChannel(h: Client, ms: seq<Message>, to: Client, e: Option<Event>)
    ensures OnChannel(WriteAll(h, ms), to, e) == if to == h then Tagged(ms, e) else []
  {
    if ms != [] {
      hide WriteAll, Tagged;
      AllFront(h, ms, e);
      AllOnChannel(h, Parent(ms), to, e);
    }
  }

  lemma AllFront(h: Client, ms: seq<Message>, e: Option<Event>)
    requires ms != []
    ensures var ws := WriteAll(h, ms);
            ws != [] && Parent(ws) == WriteAll(h, Parent(ms)) && Last(ws) == Write(h, Publish(Last(ms)))
    ensures Tagged(ms, e) == Tagged(Parent(ms), e) + [Pub(Last(ms), e)]
  {
  }

  lemma AnnounceFront(h: Client, fs: seq<string>)
    requires fs != []
    ensures var ws := ClusterProcessor.Announce(h, fs);
            && ws != [] && Parent(ws) == ClusterProcessor.Announce(h, Parent(fs))
            && Last(ws) == Write(h, Subscribe([Last(fs)]))
    ensures Announced(fs) == Announced(Parent(fs)) + [Sub([Last(fs)])]
  {
  }

  lemma {:induction false} AnnouncedOnChannel(h: Client, fs: seq<string>, to: Client, e: Option<Event>)
    ensures OnChannel(ClusterProcessor.Announce(h, fs), to, e) == if to == h then Announced(fs) else []
  {
    if fs != [] {
      hide ClusterProcessor.Announce, Announced;
      AnnounceFront(h, fs);
      AnnouncedOnChannel(h, Parent(fs), to, e);
    }
  }

  // ---------------------------------------------------------------- who is written to

  /** The clients of a fan-out are the step's hits, one connection for each. */
  lemma OneEachHits(cs: seq<Client>, t: Table, topic: string)
    requires !Blank(topic) && OneEach(cs, t.Answers(topic))
    ensures NoIdTwice(cs) && Ids(cs) == Hits(t, topic)
    ensures forall c | c in cs :: c in Handles(t)
  {
    hide Blank, Table.Answers, NoIdTwice, Handles, Ids;
    IdsOf(cs);
    forall c | c in cs ensures c in Handles(t) {
      var pr :| pr in t.Answers(topic) && t.Answers(topic)[pr] == c;
      AnswerHandle(t, topic, pr);
    }
    assert forall pr | pr in t.Answers(topic) :: t.Answers(topic)[pr].id in Ids(cs);
    forall id | id in Ids(cs) ensures id in Hits(t, topic) {
      var c :| c in cs && c.id == id;
    }
  }

  lemma AnswerHandle(t: Table, topic: string, pr: Pair)
    requires !Blank(topic) && pr in t.Answers(topic)
    ensures t.Answers(topic)[pr] in Handles(t)
  {
    hide Blank, LiveHit, CopyHit, Wild;
  }

  lemma PeerIds(cs: seq<Client>, names: seq<string>, peers: map<Name, Client>, mine: set<Client>)
    requires Lists(cs, names, peers) && PeersOk(peers, mine)
    ensures NoIdTwice(cs) && forall c | c in cs :: c in peers.Values
  {
    assert forall i | 0 <= i < |cs| :: cs[i].id == names[i];
  }

  /** The connections of a broadcast are the current ones of all peers. */
  lemma BroadcastPeers(cs: seq<Client>, peers: map<Name, Client>, mine: set<Client>)
    requires Enumerates(cs, peers) && PeersOk(peers, mine)
    ensures NoIdTwice(cs) && forall c :: c in cs <==> c in peers.Values
  {
    hide NoIdTwice;
    var names :| Lists(cs, names, peers);
    PeerIds(cs, names, peers, mine);
    forall c | c in peers.Values ensures c in cs {
      var b :| b in peers && peers[b] == c;
      var i :| 0 <= i < |names| && names[i] == b;
      assert cs[i] == c;
    }
  }

  // ---------------------------------------------------------------- steps

  function Actor(step: Step): Name {
    match step
    case DoReceive(_, b, _) => b
    case _ => step.a
  }

  /** The event that the handled packet carries. */
  function EventOf(s: State, step: Step): Option<Event> {
    match step
    case DoPublish(_, _, e, _, _) => Some(e)
    case DoReceive(a, b, _) =>
      if Channel(s, a, b) != [] && Channel(s, a, b)[0].Pub? then Channel(s, a, b)[0].event else None
    case _ => None
  }

  /** What the step takes off channels: the packet that is handled, or all that a dead link loses. */
  function Popped(s: State, step: Step): State {
    match step
    case DoReceive(a, b, _) =>
      if Channel(s, a, b) == [] then s else s.(channels := s.channels[(a, b) := Channel(s, a, b)[1..]])
    case LinkDown(a, b) => s.(channels := s.channels[(a, b) := []][(b, a) := []])
    case _ => s
  }

  /** The step adds to each channel exactly the packets written to that peer's current connection; what it
      counts as sent and written are the publishes written to peers' connections and to own clients'. */
  ghost predicate Performs(s: State, step: Step, mine: set<Client>, ws: seq<Write>, s': State) {
    var a, e := Actor(step), EventOf(s, step);
    && a in s'.nodes
    && Puts(Popped(s, step), a, OnPeers(ws, s'.nodes[a].peers, e), s')
    && Counts(s.sent, a, e, ws, mine, false, s'.sent)
    && Counts(s.written, a, e, ws, mine, true, s'.written)
  }

  function OnPeers(ws: seq<Write>, peers: map<Name, Client>, e: Option<Event>): map<Name, seq<Cluster.Packet>> {
    map b | b in peers :: OnChannel(ws, peers[b], e)
  }

  ghost predicate Puts(s: State, a: Name, more: map<Name, seq<Cluster.Packet>>, s': State) {
    forall x, y :: Channel(s', x, y) == Channel(s, x, y) + if x == a && y in more then more[y] else []
  }

  /** The copies grew by the publishes written to connections that are own clients' or are not. */
  ghost predicate Counts(was: multiset<Copy>, a: Name, e: Option<Event>, ws: seq<Write>, mine: set<Client>, own: bool,
                         now: multiset<Copy>)
  {
    forall x, c, f ::
      now[(x, c, f)] == was[(x, c, f)] + if x == a && e == Some(f) && (c in mine) == own then Copies(ws, c) else 0
  }

  // ---------------------------------------------------------------- what the handlers' writes are on channels

  function SubscribeWrites(h: Client, messageId: nat, ms: seq<Message>, cs: seq<Client>, topics: seq<string>)
    : seq<Write>
  {
    [Write(h, Suback(messageId))] + WriteAll(h, ms) + WriteEach(cs, Subscribe(topics))
  }

  lemma SubscribeOnPeers(peers: map<Name, Client>, mine: set<Client>, h: Client, messageId: nat, ms: seq<Message>,
                         cs: seq<Client>, topics: seq<string>)
    requires PeersOk(peers, mine) && h in mine && Enumerates(cs, peers)
    ensures OnPeers(SubscribeWrites(h, messageId, ms, cs, topics), peers, None) == map b | b in peers :: [Sub(topics)]
  {
    hide WriteAll, WriteEach, OnChannel, NoIdTwice, Enumerates;
    BroadcastPeers(cs, peers, mine);
    var ack, all, each := [Write(h, Suback(messageId))], WriteAll(h, ms), WriteEach(cs, Subscribe(topics));
    forall b | b in peers ensures OnChannel(ack + all + each, peers[b], None) == [Sub(topics)] {
      OnChannelJoin(ack + all, each, peers[b], None);
      OnChannelJoin(ack, all, peers[b], None);
      AckOnChannel(h, Suback(messageId), peers[b], None);
      AllOnChannel(h, ms, peers[b], None);
      EachOnChannel(cs, Subscribe(topics), peers[b], None);
      assert peers[b] in peers.Values;
    }
  }

  function UnsubscribeWrites(h: Client, messageId: nat, cs: seq<Client>, topics: seq<string>): seq<Write> {
    [Write(h, Unsuback(messageId))] + WriteEach(cs, Unsubscribe(topics))
  }

  lemma UnsubscribeOnPeers(peers: map<Name, Client>, mine: set<Client>, h: Client, messageId: nat, cs: seq<Client>,
                           topics: seq<string>)
    requires PeersOk(peers, mine) && Enumerates(cs, peers)
    ensures OnPeers(UnsubscribeWrites(h, messageId, cs, topics), peers, None) == map b | b in peers :: [Unsub(topics)]
  {
    hide WriteEach, OnChannel, NoIdTwice, Enumerates;
    BroadcastPeers(cs, peers, mine);
    var ack, each := [Write(h, Unsuback(messageId))], WriteEach(cs, Unsubscribe(topics));
    forall b | b in peers ensures OnChannel(ack + each, peers[b], None) == [Unsub(topics)] {
      OnChannelJoin(ack, each, peers[b], None);
      AckOnChannel(h, Unsuback(messageId), peers[b], None);
      EachOnChannel(cs, Unsubscribe(topics), peers[b], None);
      assert peers[b] in peers.Values;
    }
  }

  predicate IsAck(acks: seq<Write>) {
    acks == [] || (|acks| == 1 && (acks[0].packet.Puback? || acks[0].packet.Pubrec?))
  }

  lemma AcksOnChannel(acks: seq<Write>, to: Client, e: Option<Event>)
    requires IsAck(acks)
    ensures OnChannel(acks, to, e) == [] && Copies(acks, to) == 0
  {
    if acks != [] {
      AckOnChannel(acks[0].to, acks[0].packet, to, e);
      assert acks == [Write(acks[0].to, acks[0].packet)];
    }
  }

  function PublishWrites(acks: seq<Write>, locals: seq<Client>, remotes: seq<Client>, m: Message): seq<Write> {
    acks + WriteEach(locals, Publish(m)) + WriteEach(remotes, Publish(m))
  }

  lemma PublishOn(acks: seq<Write>, locals: seq<Client>, remotes: seq<Client>, m: Message, to: Client, e: Option<Event>)
    requires IsAck(acks) && to !in locals && NoIdTwice(locals) && NoIdTwice(remotes)
    ensures OnChannel(PublishWrites(acks, locals, remotes, m), to, e) == if to in remotes then [Pub(m, e)] else []
  {
    hide WriteEach, OnChannel, NoIdTwice, IsAck;
    var l, r := WriteEach(locals, Publish(m)), WriteEach(remotes, Publish(m));
    OnChannelJoin(acks + l, r, to, e);
    OnChannelJoin(acks, l, to, e);
    AcksOnChannel(acks, to, e);
    EachOnChannel(locals, Publish(m), to, e);
    EachOnChannel(remotes, Publish(m), to, e);
  }

  /** The fan-out, connection by connection: a peer's current connection gets one copy if the fan-out picked it,
      and else nothing. */
  lemma PublishOnPeers(n: Node, mine: set<Client>, acks: seq<Write>, locals: seq<Client>, remotes: seq<Client>,
                       m: Message, e: Option<Event>)
    requires !Blank(m.topic) && Wired(n, mine) && IsAck(acks)
    requires OneEach(locals, n.local.Answers(m.topic)) && OneEach(remotes, n.interest.Answers(m.topic))
    ensures OnPeers(PublishWrites(acks, locals, remotes, m), n.peers, e) ==
            map b | b in n.peers :: if b in Forwarded(n, remotes) then [Pub(m, e)] else []
  {
    hide PublishWrites, OnChannel, NoIdTwice, Hits, Blank, OneEach, Handles, IsAck, Table.Answers, Ids;
    OneEachHits(locals, n.local, m.topic);
    OneEachHits(remotes, n.interest, m.topic);
    var ws := PublishWrites(acks, locals, remotes, m);
    forall b | b in n.peers
      ensures OnChannel(ws, n.peers[b], e) == if b in Forwarded(n, remotes) then [Pub(m, e)] else []
    {
      assert n.peers[b] !in mine;
      PublishOn(acks, locals, remotes, m, n.peers[b], e);
    }
  }

  /** The fan-out, counted: one publish for each connection picked, own clients' from the clients' index and
      peers' from the peers' index, and no other. */
  lemma PublishCopies(n: Node, mine: set<Client>, acks: seq<Write>, locals: seq<Client>, remotes: seq<Client>,
                      m: Message)
    requires !Blank(m.topic) && Wired(n, mine) && IsAck(acks)
    requires OneEach(locals, n.local.Answers(m.topic)) && OneEach(remotes, n.interest.Answers(m.topic))
    ensures var ws := PublishWrites(acks, locals, remotes, m);
            forall c :: Copies(ws, c) == if c in (if c in mine then locals else remotes) then 1 else 0
    ensures forall c | c in locals :: c in mine
    ensures forall c | c in remotes :: c !in mine
  {
    hide WriteEach, Copies, NoIdTwice, Hits, Blank, OneEach, Handles, IsAck;
    OneEachHits(locals, n.local, m.topic);
    OneEachHits(remotes, n.interest, m.topic);
    var l, r := WriteEach(locals, Publish(m)), WriteEach(remotes, Publish(m));
    forall c ensures Copies(acks + l + r, c) == (if c in locals then 1 else 0) + (if c in remotes then 1 else 0) {
      CopiesJoin(acks + l, r, c);
      CopiesJoin(acks, l, c);
      AcksOnChannel(acks, c, None);
      EachCopies(locals, m, c);
      EachCopies(remotes, m, c);
    }
  }

  // ---------------------------------------------------------------- the steps, from what the handlers wrote

  lemma BroadcastPuts(s: State, a: Name, to: set<Name>, p: Cluster.Packet, more: map<Name, seq<Cluster.Packet>>,
                      s': State)
    requires s'.channels == Broadcast(s, a, to, p) && to <= more.Keys
    requires forall b | b in more :: more[b] == if b in to then [p] else []
    ensures Puts(s, a, more, s')
  {
  }

  lemma OnePut(s: State, a: Name, b: Name, add: seq<Cluster.Packet>, more: map<Name, seq<Cluster.Packet>>, s': State)
    requires s'.channels == s.channels[(a, b) := Channel(s, a, b) + add] && b in more
    requires forall y | y in more :: more[y] == if y == b then add else []
    ensures Puts(s, a, more, s')
  {
  }

  lemma NothingPut(s: State, a: Name, more: map<Name, seq<Cluster.Packet>>, s': State)
    requires s'.channels == s.channels && forall b | b in more :: more[b] == []
    ensures Puts(s, a, more, s')
  {
  }

  lemma NothingCounted(was: multiset<Copy>, a: Name, ws: seq<Write>, mine: set<Client>, own: bool)
    ensures Counts(was, a, None, ws, mine, own, was)
  {
    hide Copies;
  }

  lemma NoneCounted(was: multiset<Copy>, a: Name, e: Option<Event>, ws: seq<Write>, mine: set<Client>, own: bool)
    requires forall c | (c in mine) == own :: Copies(ws, c) == 0
    ensures Counts(was, a, e, ws, mine, own, was)
  {
    hide Copies;
  }

  lemma OneCounted(was: multiset<Copy>, a: Name, e: Event, ws: seq<Write>, mine: set<Client>, own: bool,
                   cs: seq<Client>)
    requires forall c | (c in mine) == own :: Copies(ws, c) == if c in cs then 1 else 0
    requires forall c | c in cs :: (c in mine) == own
    ensures Counts(was, a, Some(e), ws, mine, own, was + Marks(a, cs, e))
  {
    hide Copies, Marks;
    forall x: Name, c: Client, f: Event
      ensures (was + Marks(a, cs, e))[(x, c, f)] ==
              was[(x, c, f)] + if x == a && Some(e) == Some(f) && (c in mine) == own then Copies(ws, c) else 0
    {
      Delivery.MarksCount(a, cs, e, (x, c, f));
    }
  }

  /** BrokerProcessor.Processor.ProcessSubscribe. */
  lemma SubscribeStep(s: State, a: Name, mine: set<Client>, h: Client, messageId: nat, topics: seq<string>,
                      ms: seq<Message>, cs: seq<Client>) returns (s': State)
    requires a in s.nodes && Wired(s.nodes[a], mine) && h in mine && Enumerates(cs, s.nodes[a].peers)
    requires forall f | f in topics :: !Blank(f)
    ensures Next(s, DoSubscribe(a, h, topics), s')
    ensures Performs(s, DoSubscribe(a, h, topics), mine, SubscribeWrites(h, messageId, ms, cs, topics), s')
    ensures s'.nodes == s.nodes[a := s.nodes[a].(local := SubscribeAll(s.nodes[a].local, topics, h))]
  {
    hide SubscribeAll, Blank, Enumerates, SubscribeWrites, Handles, Puts, Counts, OnPeers;
    var n, ws := s.nodes[a], SubscribeWrites(h, messageId, ms, cs, topics);
    s' := s.(nodes := s.nodes[a := n.(local := SubscribeAll(n.local, topics, h))],
             channels := Broadcast(s, a, n.peers.Keys, Sub(topics)));
    SubscribeOnPeers(n.peers, mine, h, messageId, ms, cs, topics);
    BroadcastPuts(s, a, n.peers.Keys, Sub(topics), OnPeers(ws, n.peers, None), s');
    NothingCounted(s.sent, a, ws, mine, false);
    NothingCounted(s.written, a, ws, mine, true);
  }

  /** BrokerProcessor.Processor.ProcessUnSubscribe. */
  lemma UnsubscribeStep(s: State, a: Name, mine: set<Client>, h: Client, messageId: nat, topics: seq<string>,
                        cs: seq<Client>)
    returns (s': State)
    requires a in s.nodes && Wired(s.nodes[a], mine) && Enumerates(cs, s.nodes[a].peers)
    ensures Next(s, DoUnsubscribe(a, h.id, topics), s')
    ensures Performs(s, DoUnsubscribe(a, h.id, topics), mine, UnsubscribeWrites(h, messageId, cs, topics), s')
    ensures s'.nodes == s.nodes[a := s.nodes[a].(local := UnsubscribeAll(s.nodes[a].local, topics, h.id))]
  {
    hide UnsubscribeAll, Enumerates, UnsubscribeWrites, Handles, Puts, Counts, OnPeers;
    var n, ws := s.nodes[a], UnsubscribeWrites(h, messageId, cs, topics);
    s' := s.(nodes := s.nodes[a := n.(local := UnsubscribeAll(n.local, topics, h.id))],
             channels := Broadcast(s, a, n.peers.Keys, Unsub(topics)));
    UnsubscribeOnPeers(n.peers, mine, h, messageId, cs, topics);
    BroadcastPuts(s, a, n.peers.Keys, Unsub(topics), OnPeers(ws, n.peers, None), s');
    NothingCounted(s.sent, a, ws, mine, false);
    NothingCounted(s.written, a, ws, mine, true);
  }

  /** BrokerProcessor.Processor.ProcessDisconnect. */
  lemma DisconnectStep(s: State, a: Name, mine: set<Client>, id: string, order: seq<string>) returns (s': State)
    requires a in s.nodes
    ensures Next(s, DoDisconnect(a, id, order), s') && Performs(s, DoDisconnect(a, id, order), mine, [], s')
    ensures s'.nodes == s.nodes[a := s.nodes[a].(local := UnsubscribeAll(s.nodes[a].local, order, id))]
  {
    hide UnsubscribeAll, Puts, Counts;
    s' := s.(nodes := s.nodes[a := s.nodes[a].(local := UnsubscribeAll(s.nodes[a].local, order, id))]);
    NothingPut(s, a, OnPeers([], s.nodes[a].peers, None), s');
    NothingCounted(s.sent, a, [], mine, false);
    NothingCounted(s.written, a, [], mine, true);
  }

  /** BrokerProcessor.Processor.ProcessPublish, once it routes the packet. */
  lemma PublishStep(s: State, a: Name, mine: set<Client>, acks: seq<Write>, m: Message, e: Event, locals: seq<Client>,
                    remotes: seq<Client>, t: Table) returns (s': State)
    requires a in s.nodes && e !in s.origin && !Blank(m.topic) && Wired(s.nodes[a], mine) && IsAck(acks)
    requires OneEach(locals, s.nodes[a].local.Answers(m.topic))
    requires OneEach(remotes, s.nodes[a].interest.Answers(m.topic))
    requires RetainStep(s.nodes[a].local, m, t)
    ensures Next(s, DoPublish(a, m, e, locals, remotes), s')
    ensures Performs(s, DoPublish(a, m, e, locals, remotes), mine, PublishWrites(acks, locals, remotes, m), s')
    ensures s'.nodes == s.nodes[a := s.nodes[a].(local := t)]
  {
    hide RetainStep, Blank, PublishWrites, Handles, Puts, Counts, OnPeers, OneEach, IsAck, Marks, Copies;
    var n, ws, to := s.nodes[a], PublishWrites(acks, locals, remotes, m), Forwarded(s.nodes[a], remotes);
    s' := State(s.nodes[a := n.(local := t)], Broadcast(s, a, to, Pub(m, Some(e))), s.origin[e := a],
                s.sent + Marks(a, remotes, e), s.written + Marks(a, locals, e));
    PublishOnPeers(n, mine, acks, locals, remotes, m, Some(e));
    PublishCopies(n, mine, acks, locals, remotes, m);
    BroadcastPuts(s, a, to, Pub(m, Some(e)), OnPeers(ws, n.peers, Some(e)), s');
    OneCounted(s.sent, a, e, ws, mine, false, remotes);
    OneCounted(s.written, a, e, ws, mine, true, locals);
  }

  ghost predicate Ready(s: State, a: Name, b: Name, mine: set<Client>) {
    Linked(s, b, a) && a != b && Channel(s, a, b) != [] && Wired(s.nodes[b], mine)
  }

  /** ClusterProcessor.Processor.ProcessSubscribe: the retained messages go back to the peer alone. */
  lemma NoteStep(s: State, a: Name, b: Name, mine: set<Client>, messageId: nat, topics: seq<string>, ms: seq<Message>)
    returns (s': State)
    requires Ready(s, a, b, mine) && Channel(s, a, b)[0] == Sub(topics) && Resends(s.nodes[b].local, topics, ms)
    ensures Next(s, DoReceive(a, b, []), s')
    ensures var h := s.nodes[b].peers[a];
            && Performs(s, DoReceive(a, b, []), mine, [Write(h, Suback(messageId))] + WriteAll(h, ms), s')
            && s'.nodes == s.nodes[b := s.nodes[b].(interest := SubscribeAll(s.nodes[b].interest, topics, h))]
  {
    hide Resends, SubscribeAll, WriteAll, Handles, Counts, Puts, OnChannel;
    var h, n := s.nodes[b].peers[a], s.nodes[b];
    var rest := s.channels[(a, b) := Channel(s, a, b)[1..]];
    var ws := [Write(h, Suback(messageId))] + WriteAll(h, ms);
    s' := s.(nodes := s.nodes[b := n.(interest := SubscribeAll(n.interest, topics, h))],
             channels := rest[(b, a) := Channel(s, b, a) + Replayed(ms)]);
    assert Replays(n.local, topics, Replayed(ms));
    forall y | y in n.peers ensures OnChannel(ws, n.peers[y], None) == if y == a then Replayed(ms) else [] {
      OnChannelJoin([Write(h, Suback(messageId))], WriteAll(h, ms), n.peers[y], None);
      AckOnChannel(h, Suback(messageId), n.peers[y], None);
      AllOnChannel(h, ms, n.peers[y], None);
      assert Tagged(ms, None) == Replayed(ms);
    }
    OnePut(Popped(s, DoReceive(a, b, [])), b, a, Replayed(ms), OnPeers(ws, n.peers, None), s');
    NothingCounted(s.sent, b, ws, mine, false);
    NothingCounted(s.written, b, ws, mine, true);
  }

  /** ClusterProcessor.Processor.ProcessUnSubscribe. */
  lemma ForgetStep(s: State, a: Name, b: Name, mine: set<Client>, h: Client, messageId: nat, topics: seq<string>)
    returns (s': State)
    requires Ready(s, a, b, mine) && Channel(s, a, b)[0] == Unsub(topics)
    ensures Next(s, DoReceive(a, b, []), s')
    ensures Performs(s, DoReceive(a, b, []), mine, [Write(h, Unsuback(messageId))], s')
    ensures s'.nodes == s.nodes[b := s.nodes[b].(interest := UnsubscribeAll(s.nodes[b].interest, topics, a))]
  {
    hide UnsubscribeAll, Handles, Counts, Puts, OnChannel;
    var n, ws := s.nodes[b], [Write(h, Unsuback(messageId))];
    s' := s.(nodes := s.nodes[b := n.(interest := UnsubscribeAll(n.interest, topics, a))],
             channels := s.channels[(a, b) := Channel(s, a, b)[1..]]);
    forall y | y in n.peers ensures OnChannel(ws, n.peers[y], None) == [] {
      AckOnChannel(h, Unsuback(messageId), n.peers[y], None);
    }
    NothingPut(Popped(s, DoReceive(a, b, [])), b, OnPeers(ws, n.peers, None), s');
    NothingCounted(s.sent, b, ws, mine, false);
    NothingCounted(s.written, b, ws, mine, true);
  }

  /** ClusterProcessor.Processor.ProcessPublish: own clients only, and no packet to any peer. */
  lemma PeerPublishStep(s: State, a: Name, b: Name, mine: set<Client>, m: Message, e: Option<Event>,
                        locals: seq<Client>, t: Table)
    returns (s': State)
    requires Ready(s, a, b, mine) && Channel(s, a, b)[0] == Pub(m, e) && !Blank(m.topic)
    requires OneEach(locals, s.nodes[b].local.Answers(m.topic))
    requires if m.retain then DropStep(s.nodes[b].local, m.topic, t) else t == s.nodes[b].local
    ensures Next(s, DoReceive(a, b, locals), s')
    ensures Performs(s, DoReceive(a, b, locals), mine, WriteEach(locals, Publish(m)), s')
    ensures s'.nodes == s.nodes[b := s.nodes[b].(local := t)]
  {
    hide DropStep, Blank, WriteEach, Handles, Puts, Counts, OneEach, OnChannel, Marks, Copies;
    var n, ws := s.nodes[b], WriteEach(locals, Publish(m));
    s' := s.(nodes := s.nodes[b := n.(local := t)], channels := s.channels[(a, b) := Channel(s, a, b)[1..]],
             written := s.written + if e.Some? then Marks(b, locals, e.value) else multiset{});
    LocalsOnPeers(n, mine, locals, m, e);
    NothingPut(Popped(s, DoReceive(a, b, locals)), b, OnPeers(ws, n.peers, e), s');
    NoneCounted(s.sent, b, e, ws, mine, false);
    if e.Some? {
      OneCounted(s.written, b, e.value, ws, mine, true, locals);
    } else {
      NothingCounted(s.written, b, ws, mine, true);
      assert s.written + multiset{} == s.written;
    }
  }

  lemma LocalsOnPeers(n: Node, mine: set<Client>, locals: seq<Client>, m: Message, e: Option<Event>)
    requires !Blank(m.topic) && Wired(n, mine) && OneEach(locals, n.local.Answers(m.topic))
    ensures var ws := WriteEach(locals, Publish(m));
            && (forall b | b in n.peers :: OnChannel(ws, n.peers[b], e) == [])
            && (forall c :: Copies(ws, c) == if c in locals then 1 else 0)
            && (forall c | c in locals :: c in mine)
  {
    hide WriteEach, OnChannel, Copies, NoIdTwice, Hits, Blank, OneEach, Handles;
    OneEachHits(locals, n.local, m.topic);
    forall b | b in n.peers ensures OnChannel(WriteEach(locals, Publish(m)), n.peers[b], e) == [] {
      EachOnChannel(locals, Publish(m), n.peers[b], e);
    }
    forall c ensures Copies(WriteEach(locals, Publish(m)), c) == if c in locals then 1 else 0 {
      EachCopies(locals, m, c);
    }
  }

  /** ClusterProcessor.Processor.Admit. */
  lemma LinkUpStep(s: State, a: Name, mine: set<Client>, c: Client, fs: seq<string>) returns (s': State)
    requires a in s.nodes && c.id in s.nodes && a != c.id && !Linked(s, a, c.id)
    requires PeersOk(s.nodes[a].peers[c.id := c], mine)
    requires Distinct(fs) && forall f :: f in fs <==> f in s.nodes[a].local.topics
    ensures Next(s, LinkUp(a, c.id, c), s')
    ensures Performs(s, LinkUp(a, c.id, c), mine, ClusterProcessor.Announce(c, fs), s')
    ensures s'.nodes == s.nodes[a := s.nodes[a].(peers := s.nodes[a].peers[c.id := c])]
  {
    hide ClusterProcessor.Announce, Counts, Puts, OnChannel, Distinct;
    var b, ws, peers := c.id, ClusterProcessor.Announce(c, fs), s.nodes[a].peers[c.id := c];
    s' := s.(nodes := s.nodes[a := s.nodes[a].(peers := peers)],
             channels := s.channels[(a, b) := Channel(s, a, b) + Announced(fs)]);
    assert Syncs(s.nodes[a].local, Announced(fs));
    forall y | y in peers ensures OnChannel(ws, peers[y], None) == if y == b then Announced(fs) else [] {
      AnnouncedOnChannel(c, fs, peers[y], None);
    }
    OnePut(s, a, b, Announced(fs), OnPeers(ws, peers, None), s');
    NothingCounted(s.sent, a, ws, mine, false);
    NothingCounted(s.written, a, ws, mine, true);
  }
}
