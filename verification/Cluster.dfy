/** The nodes of a cluster as a step system: each has the table of its own clients and a table of
    what its peers asked for, and packets travel in order on one channel per ordered pair. */
module Cluster {
  import opened Topics
  import opened Table
  import opened Listing
  import opened Fanout

  type Name = string
  type Event = nat

  /** A publish carries the event it came from; a replayed retained message carries none. */
  datatype Packet =
    | Sub(topics: seq<string>)
    | Unsub(topics: seq<string>)
    | Pub(message: Message, event: Option<Event>)

  /** `peers` has the current connection to each peer. */
  datatype Node = Node(local: Table, interest: Table, peers: map<Name, Client>)

  type Link = (Name, Name)

  /** A copy of an event that a node wrote to a connection. */
  type Copy = (Name, Client, Event)

  /** `origin` says where each event was published, `sent` counts the copies that each node wrote to its
      peers' connections, left-behind ones included, and `written` those to its own clients' connections. */
  datatype State = State(nodes: map<Name, Node>, channels: map<Link, seq<Packet>>, origin: map<Event, Name>,
                         sent: multiset<Copy>, written: multiset<Copy>)

  // ---------------------------------------------------------------- what one node does

  /** One topic of the packet after the other. */
  function SubscribeAll(t: Table, topics: seq<string>, c: Client): Table {
    if topics == [] then t else SubscribeAll(t, Parent(topics), c).Subscribe(Last(topics), c.id, c)
  }

  ghost function UnsubscribeAll(t: Table, topics: seq<string>, id: string): Table {
    if topics == [] then t else UnsubscribeAll(t, Parent(topics), id).Unsubscribe(Last(topics), id)
  }

  /** The ids a publish is written to: duplicates fall together. */
  ghost function Hits(t: Table, topic: string): set<string>
    requires !Blank(topic)
  {
    set pr | pr in t.Answers(topic) :: t.Answers(topic)[pr].id
  }

  /** The retained part of a publish at its own broker. */
  ghost predicate RetainStep(t: Table, m: Message, t': Table)
    requires !Blank(m.topic)
  {
    if !m.retain then t' == t
    else if m.payload != [] then t' == t.Retain(m.topic, m)
    else DropStep(t, m.topic, t')
  }

  /** The messages that answer a SUBSCRIBE: for each topic in turn every retained message that
      matches it, once, in some order. */
  ghost predicate Resends(t: Table, topics: seq<string>, ms: seq<Message>)
    decreases |topics|
  {
    if topics == [] then ms == []
    else exists n | 0 <= n <= |ms| :: Resends(t, Parent(topics), ms[..n]) && ResendsOne(t, Last(topics), ms[n..])
  }

  ghost predicate ResendsOne(t: Table, topic: string, ms: seq<Message>) {
    !Blank(topic) && Enumerates(ms, t.RetainAnswers(topic))
  }

  function Replayed(ms: seq<Message>): (ps: seq<Packet>)
    ensures |ps| == |ms| && forall i | 0 <= i < |ps| :: ps[i] == Pub(ms[i], None)
  {
    seq(|ms|, i requires 0 <= i < |ms| => Pub(ms[i], None))
  }

  ghost predicate Replays(t: Table, topics: seq<string>, back: seq<Packet>) {
    exists ms :: Resends(t, topics, ms) && back == Replayed(ms)
  }

  // ---------------------------------------------------------------- steps

  function Channel(s: State, a: Name, b: Name): seq<Packet> {
    if (a, b) in s.channels then s.channels[(a, b)] else []
  }

  predicate Linked(s: State, a: Name, b: Name) {
    a in s.nodes && b in s.nodes && b in s.nodes[a].peers
  }

  /** The channels with one packet more on each channel from a to a named peer. */
  function Broadcast(s: State, a: Name, to: set<Name>, p: Packet): map<Link, seq<Packet>> {
    s.channels + map b | b in to :: (a, b) := Channel(s, a, b) + [p]
  }

  ghost predicate ClientSubscribes(s: State, a: Name, c: Client, topics: seq<string>, s': State) {
    && a in s.nodes && (forall f | f in topics :: !Blank(f))
    && s' == s.(nodes := s.nodes[a := s.nodes[a].(local := SubscribeAll(s.nodes[a].local, topics, c))],
                channels := Broadcast(s, a, s.nodes[a].peers.Keys, Sub(topics)))
  }

  ghost predicate ClientUnsubscribes(s: State, a: Name, id: string, topics: seq<string>, s': State) {
    && a in s.nodes
    && s' == s.(nodes := s.nodes[a := s.nodes[a].(local := UnsubscribeAll(s.nodes[a].local, topics, id))],
                channels := Broadcast(s, a, s.nodes[a].peers.Keys, Unsub(topics)))
  }

  /** A disconnect takes the client's filters away without telling the peers. */
  ghost predicate ClientDisconnects(s: State, a: Name, id: string, topics: seq<string>, s': State) {
    && a in s.nodes
    && s' == s.(nodes := s.nodes[a := s.nodes[a].(local := UnsubscribeAll(s.nodes[a].local, topics, id))])
  }

  /** Peers a publish is put on the channel of: those whose current connection is written to. What is written
      to a connection that a peer left behind goes nowhere. */
  function Forwarded(n: Node, remotes: seq<Client>): set<Name> {
    set b | b in n.peers && n.peers[b] in remotes
  }

  function Marks(a: Name, cs: seq<Client>, e: Event): multiset<Copy> {
    multiset(set c | c in cs :: (a, c, e))
  }

  /** `locals` and `remotes` are the connections that the fan-out picks, one for each id that answers. */
  ghost predicate ClientPublishes(s: State, a: Name, m: Message, e: Event, locals: seq<Client>, remotes: seq<Client>,
                                  s': State)
  {
    && a in s.nodes && e !in s.origin && !Blank(m.topic)
    && var n := s.nodes[a];
       && OneEach(locals, n.local.Answers(m.topic)) && OneEach(remotes, n.interest.Answers(m.topic))
       && exists t ::
            && RetainStep(n.local, m, t)
            && s' == State(s.nodes[a := n.(local := t)],
                           Broadcast(s, a, Forwarded(n, remotes), Pub(m, Some(e))),
                           s.origin[e := a],
                           s.sent + Marks(a, remotes, e),
                           s.written + Marks(a, locals, e))
  }

  /** b takes the oldest packet that a sent it; a publish fans out to `locals`. */
  ghost predicate Receives(s: State, a: Name, b: Name, locals: seq<Client>, s': State) {
    && Linked(s, b, a) && a != b && Channel(s, a, b) != []
    && var n, p := s.nodes[b], Channel(s, a, b)[0];
       var rest := s.channels[(a, b) := Channel(s, a, b)[1..]];
       match p
       case Sub(topics) =>
         exists back :: Replays(n.local, topics, back)
           && s' == s.(nodes := s.nodes[b := n.(interest := SubscribeAll(n.interest, topics, n.peers[a]))],
                       channels := rest[(b, a) := Channel(s, b, a) + back])
       case Unsub(topics) =>
         s' == s.(nodes := s.nodes[b := n.(interest := UnsubscribeAll(n.interest, topics, a))], channels := rest)
       case Pub(m, e) =>
         && !Blank(m.topic) && OneEach(locals, n.local.Answers(m.topic))
         && exists t ::
              && (if m.retain then DropStep(n.local, m.topic, t) else t == n.local)
              && s' == s.(nodes := s.nodes[b := n.(local := t)], channels := rest,
                          written := s.written + if e.Some? then Marks(b, locals, e.value) else multiset{})
  }

  /** One SUBSCRIBE packet for each filter. */
  function Announced(fs: seq<string>): (ps: seq<Packet>)
    ensures |ps| == |fs| && forall i | 0 <= i < |ps| :: ps[i] == Sub([fs[i]])
  {
    seq(|fs|, i requires 0 <= i < |fs| => Sub([fs[i]]))
  }

  /** What a newly connected peer is sent: every filter of the foliage, once, in some order. */
  ghost predicate Syncs(t: Table, ps: seq<Packet>) {
    exists fs :: Distinct(fs) && (forall f :: f in fs <==> f in t.topics) && ps == Announced(fs)
  }

  /** a registers its new connection to b and replays its topics to it. */
  ghost predicate Connects(s: State, a: Name, b: Name, c: Client, s': State) {
    && a in s.nodes && b in s.nodes && a != b && c.id == b && !Linked(s, a, b)
    && exists ps ::
         && Syncs(s.nodes[a].local, ps)
         && s' == s.(nodes := s.nodes[a := s.nodes[a].(peers := s.nodes[a].peers[b := c])],
                     channels := s.channels[(a, b) := Channel(s, a, b) + ps])
  }

  ghost function Parted(n: Node, peer: Name, filters: seq<string>): Node {
    Node(n.local, UnsubscribeAll(n.interest, filters, peer), n.peers - {peer})
  }

  /** The filters are all that the node has noted for the peer, except what no unsubscribe takes away. */
  ghost predicate CoversPeer(n: Node, peer: Name, filters: seq<string>) {
    forall f | (f, peer) in n.interest.live && Table.Removable(f) :: f in filters
  }

  /** The connection ends: what was in flight is lost, and each end unsubscribes what it noted for
      the other. */
  ghost predicate Disconnects(s: State, a: Name, b: Name, s': State) {
    && a in s.nodes && b in s.nodes && a != b
    && exists fa, fb ::
         && CoversPeer(s.nodes[a], b, fb) && CoversPeer(s.nodes[b], a, fa)
         && s' == s.(nodes := s.nodes[a := Parted(s.nodes[a], b, fb)][b := Parted(s.nodes[b], a, fa)],
                     channels := s.channels[(a, b) := []][(b, a) := []])
  }

  datatype Step =
    | DoSubscribe(a: Name, c: Client, topics: seq<string>)
    | DoUnsubscribe(a: Name, id: string, topics: seq<string>)
    | DoDisconnect(a: Name, id: string, topics: seq<string>)
    | DoPublish(a: Name, m: Message, e: Event, locals: seq<Client>, remotes: seq<Client>)
    | DoReceive(a: Name, b: Name, locals: seq<Client>)
    | LinkUp(a: Name, b: Name, c: Client)
    | LinkDown(a: Name, b: Name)

  ghost predicate Next(s: State, step: Step, s': State) {
    match step
    case DoSubscribe(a, c, topics) => ClientSubscribes(s, a, c, topics, s')
    case DoUnsubscribe(a, id, topics) => ClientUnsubscribes(s, a, id, topics, s')
    case DoDisconnect(a, id, topics) => ClientDisconnects(s, a, id, topics, s')
    case DoPublish(a, m, e, locals, remotes) => ClientPublishes(s, a, m, e, locals, remotes, s')
    case DoReceive(a, b, locals) => Receives(s, a, b, locals, s')
    case LinkUp(a, b, c) => Connects(s, a, b, c, s')
    case LinkDown(a, b) => Disconnects(s, a, b, s')
  }

  ghost predicate Init(s: State) {
    && (forall a | a in s.nodes ::
          s.nodes[a] == Node(EMPTY, EMPTY, map[]))
    && s.channels == map[] && s.origin == map[] && s.sent == multiset{} && s.written == multiset{}
  }

  ghost predicate Run(steps: seq<Step>, ss: seq<State>) {
    && |ss| == |steps| + 1
    && Init(ss[0])
    && forall i | 0 <= i < |steps| :: Next(ss[i], steps[i], ss[i + 1])
  }
}
