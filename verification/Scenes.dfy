/** Runs in which promises fail: a client misses publishes because its node was forgotten, or because an old
    connection of its own is written to instead; and two nodes retain a message of one topic each, and lose both. */
module Scenes {
  import opened Topics
  import opened Matching
  import opened Table
  import opened Listing
  import opened Fanout
  import opened Cluster
  import opened Delivery
  import opened RetainedCopies

  const TO_A := Client("A", 11)
  const TO_B := Client("B", 12)

  /** Nodes "A" and "B", linked both ways: the tables of each, and the channels from "A" and from "B". */
  function World(la: Table, ia: Table, lb: Table, ib: Table, ab: seq<Packet>, ba: seq<Packet>, origin: map<Event, Name>)
    : State
  {
    State(map["A" := Node(la, ia, map["B" := TO_B]), "B" := Node(lb, ib, map["A" := TO_A])],
          map[("A", "B") := ab, ("B", "A") := ba], origin, multiset{}, multiset{})
  }

  lemma SetA(la: Table, ia: Table, lb: Table, ib: Table, ab: seq<Packet>, ba: seq<Packet>, o: map<Event, Name>,
             la': Table, ia': Table)
    ensures var s := World(la, ia, lb, ib, ab, ba, o);
            World(la', ia', lb, ib, ab, ba, o) == s.(nodes := s.nodes["A" := Node(la', ia', map["B" := TO_B])])
  {
    var s, s' := World(la, ia, lb, ib, ab, ba, o), World(la', ia', lb, ib, ab, ba, o);
    assert s'.nodes == s.nodes["A" := Node(la', ia', map["B" := TO_B])];
  }

  lemma SetB(la: Table, ia: Table, lb: Table, ib: Table, ab: seq<Packet>, ba: seq<Packet>, o: map<Event, Name>,
             lb': Table, ib': Table)
    ensures var s := World(la, ia, lb, ib, ab, ba, o);
            World(la, ia, lb', ib', ab, ba, o) == s.(nodes := s.nodes["B" := Node(lb', ib', map["A" := TO_A])])
  {
    var s, s' := World(la, ia, lb, ib, ab, ba, o), World(la, ia, lb', ib', ab, ba, o);
    assert s'.nodes == s.nodes["B" := Node(lb', ib', map["A" := TO_A])];
  }

  lemma SetChannels(la: Table, ia: Table, lb: Table, ib: Table, ab: seq<Packet>, ba: seq<Packet>, o: map<Event, Name>,
                    ab': seq<Packet>, ba': seq<Packet>)
    ensures var s := World(la, ia, lb, ib, ab, ba, o);
            && World(la, ia, lb, ib, ab', ba', o) == s.(channels := s.channels[("A", "B") := ab'][("B", "A") := ba'])
            && World(la, ia, lb, ib, ab', ba', o) == s.(channels := s.channels[("B", "A") := ba'][("A", "B") := ab'])
  {
    var s := World(la, ia, lb, ib, ab, ba, o);
    var c := World(la, ia, lb, ib, ab', ba', o).channels;
    assert c == s.channels[("A", "B") := ab'][("B", "A") := ba'] == s.channels[("B", "A") := ba'][("A", "B") := ab'];
  }

  lemma SetAB(la: Table, ia: Table, lb: Table, ib: Table, ab: seq<Packet>, ba: seq<Packet>, o: map<Event, Name>,
              ab': seq<Packet>)
    ensures var s := World(la, ia, lb, ib, ab, ba, o);
            World(la, ia, lb, ib, ab', ba, o) == s.(channels := s.channels[("A", "B") := ab'])
  {
    var s := World(la, ia, lb, ib, ab, ba, o);
    assert World(la, ia, lb, ib, ab', ba, o).channels == s.channels[("A", "B") := ab'];
  }

  lemma SetBA(la: Table, ia: Table, lb: Table, ib: Table, ab: seq<Packet>, ba: seq<Packet>, o: map<Event, Name>,
              ba': seq<Packet>)
    ensures var s := World(la, ia, lb, ib, ab, ba, o);
            World(la, ia, lb, ib, ab, ba', o) == s.(channels := s.channels[("B", "A") := ba'])
  {
    var s := World(la, ia, lb, ib, ab, ba, o);
    assert World(la, ia, lb, ib, ab, ba', o).channels == s.channels[("B", "A") := ba'];
  }

  lemma Channels(la: Table, ia: Table, lb: Table, ib: Table, ab: seq<Packet>, ba: seq<Packet>, o: map<Event, Name>)
    ensures var s := World(la, ia, lb, ib, ab, ba, o);
            && Channel(s, "A", "B") == ab && Channel(s, "B", "A") == ba && Linked(s, "A", "B") && Linked(s, "B", "A")
            && (forall x, y | (x, y) != ("A", "B") && (x, y) != ("B", "A") :: Channel(s, x, y) == [])
            && s.nodes.Keys == {"A", "B"} && s.nodes["A"] == Node(la, ia, map["B" := TO_B])
            && s.nodes["B"] == Node(lb, ib, map["A" := TO_A])
  {
  }

  // ---------------------------------------------------------------- steps in general

  /** A publish that no fan-out finds anybody for only sets what is retained. */
  lemma Publishing(s: State, a: Name, m: Message, e: Event, t: Table, s': State)
    requires a in s.nodes && e !in s.origin && m.topic == "t"
    requires s.nodes[a].local.live == map[] && s.nodes[a].local.copies == map[] && s.nodes[a].interest == EMPTY
    requires t == if m.retain then s.nodes[a].local.Retain("t", m) else s.nodes[a].local
    requires m.retain ==> m.payload != []
    requires s' == s.(nodes := s.nodes[a := s.nodes[a].(local := t)], origin := s.origin[e := a])
    ensures Next(s, DoPublish(a, m, e, [], []), s')
  {
    NoAnswers(s.nodes[a].local);
    NoAnswers(EMPTY);
    hide Blank, DropStep, Broadcast, OneEach;
    var n := s.nodes[a];
    assert Forwarded(n, []) == {} && RetainStep(n.local, m, t);
    NobodyTold(s, a, Pub(m, Some(e)));
    NothingMarked(a, e, s.sent);
    NothingMarked(a, e, s.written);
  }

  lemma NoAnswers(t: Table)
    requires t.live == map[] && t.copies == map[]
    ensures !Blank("t") && OneEach([], t.Answers("t"))
  {
    PlainTopic();
    hide Blank;
    assert t.Answers("t") == map[];
  }

  lemma NobodyTold(s: State, a: Name, p: Packet)
    ensures Broadcast(s, a, {}, p) == s.channels
  {
  }

  lemma NothingMarked(a: Name, e: Event, was: multiset<Copy>)
    ensures was + Marks(a, [], e) == was
  {
    var none: seq<Client> := [];
    assert (set c | c in none :: (a, c, e)) == {};
  }

  lemma Noticing(s: State, a: Name, b: Name, topics: seq<string>, rest: seq<Packet>, back: seq<Packet>, s': State)
    requires Linked(s, b, a) && a != b && Channel(s, a, b) == [Sub(topics)] + rest
    requires Replays(s.nodes[b].local, topics, back)
    requires var n := s.nodes[b];
             s' == s.(nodes := s.nodes[b := n.(interest := SubscribeAll(n.interest, topics, n.peers[a]))],
                      channels := s.channels[(a, b) := rest][(b, a) := Channel(s, b, a) + back])
    ensures Next(s, DoReceive(a, b, []), s')
  {
    hide SubscribeAll, Replays;
    assert Channel(s, a, b)[1..] == rest;
  }

  lemma Forgetting(s: State, a: Name, b: Name, topics: seq<string>, rest: seq<Packet>, s': State)
    requires Linked(s, b, a) && a != b && Channel(s, a, b) == [Unsub(topics)] + rest
    requires var n := s.nodes[b];
             s' == s.(nodes := s.nodes[b := n.(interest := UnsubscribeAll(n.interest, topics, a))],
                      channels := s.channels[(a, b) := rest])
    ensures Next(s, DoReceive(a, b, []), s')
  {
    hide UnsubscribeAll;
    assert Channel(s, a, b)[1..] == rest;
  }

  /** A replayed retained message of a peer. */
  lemma Replaying(s: State, a: Name, b: Name, m: Message, locals: seq<Client>, rest: seq<Packet>, t: Table, s': State)
    requires Linked(s, b, a) && a != b && Channel(s, a, b) == [Pub(m, None)] + rest && m.retain && !Blank(m.topic)
    requires OneEach(locals, s.nodes[b].local.Answers(m.topic)) && DropStep(s.nodes[b].local, m.topic, t)
    requires s' == s.(nodes := s.nodes[b := s.nodes[b].(local := t)], channels := s.channels[(a, b) := rest])
    ensures Next(s, DoReceive(a, b, locals), s')
  {
    hide OneEach, DropStep, Blank;
    assert Channel(s, a, b)[1..] == rest && s.written + multiset{} == s.written;
  }

  // ---------------------------------------------------------------- the links

  lemma PlainTopic()
    ensures !Wild("t") && !Blank("t") && !CopiesUp("t") && Levels("t") == ["t"] && KeepPath("t") == ["t"]
  {
    hide Split, TrimSpace;
    SplitNoSlash("t");
    TrimNothing("t");
  }

  function Apart(): State {
    State(map["A" := Node(EMPTY, EMPTY, map[]), "B" := Node(EMPTY, EMPTY, map[])], map[], map[], multiset{}, multiset{})
  }

  function HalfLinked(): State {
    State(map["A" := Node(EMPTY, EMPTY, map["B" := TO_B]), "B" := Node(EMPTY, EMPTY, map[])], map[("A", "B") := []],
          map[], multiset{}, multiset{})
  }

  function Together(): State {
    World(EMPTY, EMPTY, EMPTY, EMPTY, [], [], map[])
  }

  lemma LinkFirst()
    ensures Init(Apart()) && Next(Apart(), LinkUp("A", "B", TO_B), HalfLinked())
  {
    Linking(Apart(), "A", "B", TO_B, HalfLinked());
  }

  /** A link between nodes without filters puts nothing on the channel. */
  lemma Linking(s: State, a: Name, b: Name, c: Client, s': State)
    requires a in s.nodes && b in s.nodes && a != b && c.id == b
    requires s.nodes[a] == Node(EMPTY, EMPTY, map[]) && Channel(s, a, b) == []
    requires s'.nodes == s.nodes[a := Node(EMPTY, EMPTY, map[b := c])] && s'.channels == s.channels[(a, b) := []]
    requires s'.origin == s.origin && s'.sent == s.sent && s'.written == s.written
    ensures Next(s, LinkUp(a, b, c), s')
  {
    NothingToSync();
    hide Syncs;
    var none: map<Name, Client> := map[];
    assert Channel(s, a, b) + [] == [] && none[b := c] == map[b := c];
    assert s' == s.(nodes := s.nodes[a := s.nodes[a].(peers := s.nodes[a].peers[b := c])],
                    channels := s.channels[(a, b) := Channel(s, a, b) + []]);
  }

  lemma NothingToSync()
    ensures Syncs(EMPTY, [])
  {
    var fs: seq<string> := [];
    assert Distinct(fs) && (forall f :: f in fs <==> f in EMPTY.topics) && [] == Announced(fs);
  }

  lemma LinkSecond()
    ensures Next(HalfLinked(), LinkUp("B", "A", TO_A), Together())
  {
    Linking(HalfLinked(), "B", "A", TO_A, Together());
  }

  // ---------------------------------------------------------------- filter "t"

  /** Filter "t" held by some clients, and what is retained. */
  function Holding(live: map<Pair, Client>, retained: map<string, Message>): Table {
    Table(live, map[], retained, if live == map[] then {} else {"t"})
  }

  lemma SubscribesT(live: map<Pair, Client>, retained: map<string, Message>, c: Client)
    ensures SubscribeAll(Holding(live, retained), ["t"], c) == Holding(live[("t", c.id) := c], retained)
  {
    PlainTopic();
    hide CopiesUp;
    assert Parent(["t"]) == [] && Last(["t"]) == "t";
    assert SubscribeAll(Holding(live, retained), [], c) == Holding(live, retained);
    assert ("t", c.id) in live[("t", c.id) := c];
  }

  lemma UnsubscribesT(live: map<Pair, Client>, id: string)
    requires forall pr | pr in live :: pr.0 == "t"
    ensures UnsubscribeAll(Holding(live, map[]), ["t"], id) == Holding(live - {("t", id)}, map[])
  {
    PlainTopic();
    assert Parent(["t"]) == [] && Last(["t"]) == "t";
    assert UnsubscribeAll(Holding(live, map[]), [], id) == Holding(live, map[]);
    var left := live - {("t", id)};
    if left != map[] {
      var pr :| pr in left;
      assert pr == ("t", pr.1);
    }
  }

  lemma NothingReplayed(t: Table)
    requires t.retained == map[]
    ensures Replays(t, ["t"], [])
  {
    ListsNothing<string, Message>();
    PlainTopic();
    hide Blank;
    assert t.RetainAnswers("t") == map[];
    Answered(t, []);
    assert Replayed([]) == [];
  }

  lemma Answered(t: Table, ms: seq<Message>)
    requires !Blank("t") && Enumerates(ms, t.RetainAnswers("t"))
    ensures Resends(t, ["t"], ms)
  {
    hide Blank, Enumerates, Table.RetainAnswers;
    assert Parent(["t"]) == [] && Last(["t"]) == "t" && ms[..0] == [] && ms[0..] == ms;
    assert Resends(t, [], ms[..0]) && ResendsOne(t, "t", ms[0..]);
  }

  lemma OneReplayed(t: Table, m: Message)
    requires t.retained == map["t" := m]
    ensures Replays(t, ["t"], [Pub(m, None)])
  {
    hide Resends, Replayed, Enumerates;
    OneAnswer(t, m);
    ListedOnce(m);
    Answered(t, [m]);
    ReplayedOnce(m);
  }

  lemma OneAnswer(t: Table, m: Message)
    requires t.retained == map["t" := m]
    ensures !Blank("t") && t.RetainAnswers("t") == map["t" := m]
  {
    PlainTopic();
    hide Blank, Levels, KeepPath;
  }

  lemma ReplayedOnce(m: Message)
    ensures Replayed([m]) == [Pub(m, None)]
  {
  }

  lemma ListedOnce(m: Message)
    ensures Enumerates([m], map["t" := m])
  {
    OneListed("t", m);
  }

  lemma OneListed<K, V>(k: K, v: V)
    ensures Lists([v], [k], map[k := v])
  {
    assert [k][0] == k;
  }

  /** The fan-out of "t" to the one client that holds it. */
  lemma OneServed(id: string, c: Client, retained: map<string, Message>)
    requires c.id == id
    ensures OneEach([c], Holding(map[("t", id) := c], retained).Answers("t"))
  {
    PlainTopic();
    hide Blank, CopiesUp;
    var t := Holding(map[("t", id) := c], retained);
    assert t.Answers("t") == map[("t", id) := c];
    assert Parent([c]) == [] && Last([c]) == c && Ids([c]) == {c.id};
    assert ("t", id) in t.Answers("t");
  }

  const ONE := Client("1", 1)
  const TWO := Client("2", 2)
  const NOBODY: map<Pair, Client> := map[]
  const FIRST: map<Pair, Client> := map[("t", "1") := ONE]
  const SECOND: map<Pair, Client> := map[("t", "2") := TWO]
  const BOTH: map<Pair, Client> := map[("t", "1") := ONE, ("t", "2") := TWO]
  const NOTED: map<Pair, Client> := map[("t", "A") := TO_A]
  const NOTED_B: map<Pair, Client> := map[("t", "B") := TO_B]

  // ---------------------------------------------------------------- steps of the two nodes

  lemma TellsOne(s: State, a: Name, b: Name, p: Packet)
    ensures Broadcast(s, a, {b}, p) == s.channels[(a, b) := Channel(s, a, b) + [p]]
  {
    hide Channel;
    var more := map x | x in {b} :: (a, x) := Channel(s, a, x) + [p];
    assert b in {b} && more.Keys == {(a, b)};
    assert more == map[(a, b) := Channel(s, a, b) + [p]];
  }

  lemma JoinA(live: map<Pair, Client>, m: map<string, Message>, c: Client, ia: Table, lb: Table, ib: Table,
              ab: seq<Packet>, ba: seq<Packet>, o: map<Event, Name>)
    ensures Next(World(Holding(live, m), ia, lb, ib, ab, ba, o), DoSubscribe("A", c, ["t"]),
                 World(Holding(live[("t", c.id) := c], m), ia, lb, ib, ab + [Sub(["t"])], ba, o))
  {
    hide World, Blank, SubscribeAll, Holding, Channel, Linked, Broadcast;
    var la, la' := Holding(live, m), Holding(live[("t", c.id) := c], m);
    PlainTopic();
    SubscribesT(live, m, c);
    Channels(la, ia, lb, ib, ab, ba, o);
    SetA(la, ia, lb, ib, ab, ba, o, la', ia);
    SetAB(la', ia, lb, ib, ab, ba, o, ab + [Sub(["t"])]);
    TellsOne(World(la, ia, lb, ib, ab, ba, o), "A", "B", Sub(["t"]));
    assert map["B" := TO_B].Keys == {"B"};
  }

  lemma JoinB(live: map<Pair, Client>, m: map<string, Message>, c: Client, la: Table, ia: Table, ib: Table,
              ab: seq<Packet>, ba: seq<Packet>, o: map<Event, Name>)
    ensures Next(World(la, ia, Holding(live, m), ib, ab, ba, o), DoSubscribe("B", c, ["t"]),
                 World(la, ia, Holding(live[("t", c.id) := c], m), ib, ab, ba + [Sub(["t"])], o))
  {
    hide World, Blank, SubscribeAll, Holding, Channel, Linked, Broadcast;
    var lb, lb' := Holding(live, m), Holding(live[("t", c.id) := c], m);
    PlainTopic();
    SubscribesT(live, m, c);
    Channels(la, ia, lb, ib, ab, ba, o);
    SetB(la, ia, lb, ib, ab, ba, o, lb', ib);
    SetBA(la, ia, lb', ib, ab, ba, o, ba + [Sub(["t"])]);
    TellsOne(World(la, ia, lb, ib, ab, ba, o), "B", "A", Sub(["t"]));
    assert map["A" := TO_A].Keys == {"A"};
  }

  lemma LeaveA(live: map<Pair, Client>, id: string, ia: Table, lb: Table, ib: Table, ab: seq<Packet>, ba: seq<Packet>,
               o: map<Event, Name>)
    requires forall pr | pr in live :: pr.0 == "t"
    ensures Next(World(Holding(live, map[]), ia, lb, ib, ab, ba, o), DoUnsubscribe("A", id, ["t"]),
                 World(Holding(live - {("t", id)}, map[]), ia, lb, ib, ab + [Unsub(["t"])], ba, o))
  {
    hide World, UnsubscribeAll, Holding, Channel, Linked, Broadcast;
    var la, la' := Holding(live, map[]), Holding(live - {("t", id)}, map[]);
    UnsubscribesT(live, id);
    Channels(la, ia, lb, ib, ab, ba, o);
    SetA(la, ia, lb, ib, ab, ba, o, la', ia);
    SetAB(la', ia, lb, ib, ab, ba, o, ab + [Unsub(["t"])]);
    TellsOne(World(la, ia, lb, ib, ab, ba, o), "A", "B", Unsub(["t"]));
    assert map["B" := TO_B].Keys == {"B"};
  }

  lemma NoteB(la: Table, ia: Table, lb: Table, live: map<Pair, Client>, ab: seq<Packet>, ba: seq<Packet>,
              o: map<Event, Name>, back: seq<Packet>)
    requires Replays(lb, ["t"], back)
    ensures Next(World(la, ia, lb, Holding(live, map[]), [Sub(["t"])] + ab, ba, o), DoReceive("A", "B", []),
                 World(la, ia, lb, Holding(live[("t", "A") := TO_A], map[]), ab, ba + back, o))
  {
    hide World, SubscribeAll, Holding, Channel, Linked, Replays, Next;
    var ib, ib', was := Holding(live, map[]), Holding(live[("t", "A") := TO_A], map[]), [Sub(["t"])] + ab;
    SubscribesT(live, map[], TO_A);
    Channels(la, ia, lb, ib, was, ba, o);
    SetB(la, ia, lb, ib, was, ba, o, lb, ib');
    SetChannels(la, ia, lb, ib', was, ba, o, ab, ba + back);
    Noticing(World(la, ia, lb, ib, was, ba, o), "A", "B", ["t"], ab, back, World(la, ia, lb, ib', ab, ba + back, o));
  }

  lemma NoteA(la: Table, live: map<Pair, Client>, lb: Table, ib: Table, ab: seq<Packet>, ba: seq<Packet>,
              o: map<Event, Name>, back: seq<Packet>)
    requires Replays(la, ["t"], back)
    ensures Next(World(la, Holding(live, map[]), lb, ib, ab, [Sub(["t"])] + ba, o), DoReceive("B", "A", []),
                 World(la, Holding(live[("t", "B") := TO_B], map[]), lb, ib, ab + back, ba, o))
  {
    hide World, SubscribeAll, Holding, Channel, Linked, Replays, Next;
    var ia, ia', was := Holding(live, map[]), Holding(live[("t", "B") := TO_B], map[]), [Sub(["t"])] + ba;
    SubscribesT(live, map[], TO_B);
    Channels(la, ia, lb, ib, ab, was, o);
    SetA(la, ia, lb, ib, ab, was, o, la, ia');
    SetChannels(la, ia', lb, ib, ab, was, o, ab + back, ba);
    Noticing(World(la, ia, lb, ib, ab, was, o), "B", "A", ["t"], ba, back, World(la, ia', lb, ib, ab + back, ba, o));
  }

  lemma ForgetB(la: Table, ia: Table, lb: Table, live: map<Pair, Client>, ab: seq<Packet>, ba: seq<Packet>,
                o: map<Event, Name>)
    requires forall pr | pr in live :: pr.0 == "t"
    ensures Next(World(la, ia, lb, Holding(live, map[]), [Unsub(["t"])] + ab, ba, o), DoReceive("A", "B", []),
                 World(la, ia, lb, Holding(live - {("t", "A")}, map[]), ab, ba, o))
  {
    hide World, UnsubscribeAll, Holding, Channel, Linked, Next;
    var ib, ib', was := Holding(live, map[]), Holding(live - {("t", "A")}, map[]), [Unsub(["t"])] + ab;
    UnsubscribesT(live, "A");
    Channels(la, ia, lb, ib, was, ba, o);
    SetB(la, ia, lb, ib, was, ba, o, lb, ib');
    SetAB(la, ia, lb, ib', was, ba, o, ab);
    Forgetting(World(la, ia, lb, ib, was, ba, o), "A", "B", ["t"], ab, World(la, ia, lb, ib', ab, ba, o));
  }

  lemma Gone(live: map<Pair, Client>, kept: Message)
    ensures DropStep(Holding(live, map["t" := kept]), "t", Holding(live, map[]))
  {
    PlainTopic();
    hide KeepPath, Levels;
    var t := Holding(live, map["t" := kept]);
    assert Cleared(t, "t", "t") && t.retained - {"t"} == map[];
  }

  lemma DropB(la: Table, ia: Table, id: string, c: Client, kept: Message, m: Message, ib: Table, ab: seq<Packet>,
              ba: seq<Packet>, o: map<Event, Name>)
    requires c.id == id && m.topic == "t" && m.retain
    ensures Next(World(la, ia, Holding(map[("t", id) := c], map["t" := kept]), ib, [Pub(m, None)] + ab, ba, o),
                 DoReceive("A", "B", [c]), World(la, ia, Holding(map[("t", id) := c], map[]), ib, ab, ba, o))
  {
    hide World, Holding, Channel, Linked, Next, OneEach, DropStep, Blank, Table.Answers;
    var live := map[("t", id) := c];
    var lb, lb', was := Holding(live, map["t" := kept]), Holding(live, map[]), [Pub(m, None)] + ab;
    PlainTopic();
    OneServed(id, c, map["t" := kept]);
    Gone(live, kept);
    Channels(la, ia, lb, ib, was, ba, o);
    SetB(la, ia, lb, ib, was, ba, o, lb', ib);
    SetAB(la, ia, lb', ib, was, ba, o, ab);
    Replaying(World(la, ia, lb, ib, was, ba, o), "A", "B", m, [c], ab, lb', World(la, ia, lb', ib, ab, ba, o));
  }

  lemma DropA(id: string, c: Client, kept: Message, m: Message, ia: Table, lb: Table, ib: Table, ab: seq<Packet>,
              ba: seq<Packet>, o: map<Event, Name>)
    requires c.id == id && m.topic == "t" && m.retain
    ensures Next(World(Holding(map[("t", id) := c], map["t" := kept]), ia, lb, ib, ab, [Pub(m, None)] + ba, o),
                 DoReceive("B", "A", [c]), World(Holding(map[("t", id) := c], map[]), ia, lb, ib, ab, ba, o))
  {
    hide World, Holding, Channel, Linked, Next, OneEach, DropStep, Blank, Table.Answers;
    var live := map[("t", id) := c];
    var la, la', was := Holding(live, map["t" := kept]), Holding(live, map[]), [Pub(m, None)] + ba;
    PlainTopic();
    OneServed(id, c, map["t" := kept]);
    Gone(live, kept);
    Channels(la, ia, lb, ib, ab, was, o);
    SetA(la, ia, lb, ib, ab, was, o, la', ia);
    SetBA(la', ia, lb, ib, ab, was, o, ba);
    Replaying(World(la, ia, lb, ib, ab, was, o), "B", "A", m, [c], ba, la', World(la', ia, lb, ib, ab, ba, o));
  }

  // ---------------------------------------------------------------- a missed publish

  const NEWS := Message("t", [1], 0, false, 0)

  /** Clients "1" and "2" of "A" subscribe "t", client "1" takes it back, and then "B" publishes. */
  function Missing(): seq<Step> {
    [LinkUp("A", "B", TO_B), LinkUp("B", "A", TO_A), DoSubscribe("A", ONE, ["t"]), DoSubscribe("A", TWO, ["t"]),
     DoReceive("A", "B", []), DoReceive("A", "B", []), DoUnsubscribe("A", "1", ["t"]), DoReceive("A", "B", []),
     DoPublish("B", NEWS, 0, [], [])]
  }

  /** Client "2" holds the filter and both links are up, but "B" has forgotten it. */
  function Forgotten(o: map<Event, Name>): State {
    World(Holding(SECOND, map[]), EMPTY, EMPTY, EMPTY, [], [], o)
  }

  /** Clients of "A", what "B" has noted, and what is on the way from "A". */
  function Noted(live: map<Pair, Client>, noted: map<Pair, Client>, ab: seq<Packet>): State {
    World(Holding(live, map[]), EMPTY, EMPTY, Holding(noted, map[]), ab, [], map[])
  }

  function MissingStates(): seq<State> {
    [Apart(), HalfLinked(), Together(), Noted(FIRST, NOBODY, [Sub(["t"])]),
     Noted(BOTH, NOBODY, [Sub(["t"]), Sub(["t"])]), Noted(BOTH, NOTED, [Sub(["t"])]), Noted(BOTH, NOTED, []),
     Noted(SECOND, NOTED, [Unsub(["t"])]), Forgotten(map[]), Forgotten(map[0 := "B"])]
  }

  lemma Literals(p: Packet)
    ensures Holding(NOBODY, map[]) == EMPTY
    ensures NOBODY[("t", ONE.id) := ONE] == FIRST && FIRST[("t", TWO.id) := TWO] == BOTH
    ensures NOBODY[("t", TWO.id) := TWO] == SECOND
    ensures NOBODY[("t", "A") := TO_A] == NOTED && NOTED[("t", "A") := TO_A] == NOTED
    ensures NOBODY[("t", "B") := TO_B] == NOTED_B
    ensures BOTH - {("t", "1")} == SECOND && NOTED - {("t", "A")} == NOBODY
    ensures [] + [p] == [p] == [p] + [] && [p] + [p] == [p, p]
  {
    assert ("t", "1") != ("t", "2");
  }

  lemma Joining()
    ensures Next(Together(), DoSubscribe("A", ONE, ["t"]), Noted(FIRST, NOBODY, [Sub(["t"])]))
    ensures Next(Noted(FIRST, NOBODY, [Sub(["t"])]), DoSubscribe("A", TWO, ["t"]),
                 Noted(BOTH, NOBODY, [Sub(["t"]), Sub(["t"])]))
  {
    hide Next, World, Holding;
    Literals(Sub(["t"]));
    JoinA(NOBODY, map[], ONE, EMPTY, EMPTY, EMPTY, [], [], map[]);
    JoinA(FIRST, map[], TWO, EMPTY, EMPTY, EMPTY, [Sub(["t"])], [], map[]);
  }

  lemma Noting()
    ensures Next(Noted(BOTH, NOBODY, [Sub(["t"]), Sub(["t"])]), DoReceive("A", "B", []),
                 Noted(BOTH, NOTED, [Sub(["t"])]))
    ensures Next(Noted(BOTH, NOTED, [Sub(["t"])]), DoReceive("A", "B", []), Noted(BOTH, NOTED, []))
  {
    hide Next, World, Holding;
    Literals(Sub(["t"]));
    NothingReplayed(EMPTY);
    var la, nothing := Holding(BOTH, map[]), [];
    NoteB(la, EMPTY, EMPTY, NOBODY, [Sub(["t"])], nothing, map[], nothing);
    NoteB(la, EMPTY, EMPTY, NOTED, nothing, nothing, map[], nothing);
    assert nothing + nothing == nothing;
  }

  lemma Leaving()
    ensures Next(Noted(BOTH, NOTED, []), DoUnsubscribe("A", "1", ["t"]), Noted(SECOND, NOTED, [Unsub(["t"])]))
    ensures Next(Noted(SECOND, NOTED, [Unsub(["t"])]), DoReceive("A", "B", []), Forgotten(map[]))
  {
    hide Next, World, Holding;
    Literals(Unsub(["t"]));
    LeaveA(BOTH, "1", EMPTY, EMPTY, Holding(NOTED, map[]), [], [], map[]);
    ForgetB(Holding(SECOND, map[]), EMPTY, EMPTY, NOTED, [], [], map[]);
  }

  lemma LastPublish()
    ensures Next(Forgotten(map[]), DoPublish("B", NEWS, 0, [], []), Forgotten(map[0 := "B"]))
  {
    hide Holding;
    var la := Holding(SECOND, map[]);
    Channels(la, EMPTY, EMPTY, EMPTY, [], [], map[]);
    SetB(la, EMPTY, EMPTY, EMPTY, [], [], map[], EMPTY, EMPTY);
    Publishing(Forgotten(map[]), "B", NEWS, 0, EMPTY, Forgotten(map[0 := "B"]));
  }

  lemma MissingRun()
    ensures Run(Missing(), MissingStates())
  {
    hide Next, World, Holding, Init, Apart, HalfLinked, Together, Noted, Forgotten;
    LinkFirst();
    LinkSecond();
    Joining();
    Noting();
    Leaving();
    LastPublish();
  }

  /** However the run goes on, the publish is never written to client "2". */
  lemma NeverDelivered(steps: seq<Step>, ss: seq<State>, k: nat)
    requires Run(steps, ss) && 9 <= k <= |steps| && steps[..9] == Missing() && ss[..10] == MissingStates()
    ensures ss[8] == Forgotten(map[]) && (("A", TWO, 0)) !in ss[k].written
  {
    hide Next, Init, World, Arrives, Forgotten;
    assert ss[8] == ss[..10][8] && steps[8] == steps[..9][8];
    NobodyForwarded();
    OnlyForwarded(steps, ss, 8, k, "A");
    NotArrived(ss[k], "A", TWO, 0);
  }

  lemma NotArrived(s: State, x: Name, c: Client, e: Event)
    requires !Arrives(s, x, e)
    ensures (x, c, e) !in s.written
  {
  }

  lemma NobodyForwarded()
    ensures "B" in Forgotten(map[]).nodes && Forwarded(Forgotten(map[]).nodes["B"], []) == {}
  {
  }

  lemma StillHeld()
    ensures var s := Forgotten(map[]);
            && "A" in s.nodes && ("t", "2") in s.nodes["A"].local.live && Matches("t", NEWS.topic)
            && Linked(s, "A", "B") && Linked(s, "B", "A") && Channel(s, "A", "B") == []
  {
    PlainTopic();
  }

  // ---------------------------------------------------------------- an old connection is written to

  const OLD := Client("1", 1)
  const NEW := Client("1", 2)
  const HELLO := Message("a", [1], 0, false, 0)
  const LEFT: map<Pair, Client> := map[("a/#", "1") := OLD]
  const LIVE: map<Pair, Client> := map[("+", "1") := NEW]

  /** Client "1" subscribes "a/#" and goes; it comes back on another connection and subscribes "+". */
  function Displacing(): seq<Step> {
    [DoSubscribe("A", OLD, ["a/#"]), DoDisconnect("A", "1", ["a/#"]), DoSubscribe("A", NEW, ["+"]),
     DoPublish("A", HELLO, 0, [OLD], [])]
  }

  function Alone(t: Table, o: map<Event, Name>, written: multiset<Copy>): State {
    State(map["A" := Node(t, EMPTY, map[])], map[], o, multiset{}, written)
  }

  /** What the disconnect leaves: a copy with the old connection. */
  function Remnant(): Table {
    Table(map[], LEFT, map[], {"a/#"})
  }

  function Returned(): Table {
    Table(LIVE, LEFT, map[], {"a/#", "+"})
  }

  function DisplacingStates(): seq<State> {
    [Alone(EMPTY, map[], multiset{}), Alone(Table(LEFT, LEFT, map[], {"a/#"}), map[], multiset{}),
     Alone(Remnant(), map[], multiset{}), Alone(Returned(), map[], multiset{}),
     Alone(Returned(), map[0 := "A"], multiset{("A", OLD, 0)})]
  }

  lemma PlusFacts()
    ensures !CopiesUp("+") && !Blank("+") && !Blank("a") && !Wild("a") && LiveHit("+", "a") && Matches("+", "a")
  {
    hide Split, TrimSpace;
    SplitNoSlash("+");
    SplitNoSlash("a");
    TrimNothing("+");
    TrimNothing("a");
    assert "+"[0] == '+';
    assert Levels("+") == ["+"] && Levels("a") == ["a"];
    assert FilterPath(["+"]) == ["+"] && Last(["+"]) == "+";
    assert ["+"][1..] == [] && ["a"][1..] == [];
  }

  lemma SubscribeOneMore(t: Table, f: string, c: Client, id: string)
    ensures SubscribeAll(t, [f], c) == t.Subscribe(f, c.id, c) && UnsubscribeAll(t, [f], id) == t.Unsubscribe(f, id)
  {
    assert Parent([f]) == [] && Last([f]) == f;
    assert SubscribeAll(t, [], c) == t && UnsubscribeAll(t, [], id) == t;
  }

  lemma Tables()
    ensures SubscribeAll(EMPTY, ["a/#"], OLD) == Table(LEFT, LEFT, map[], {"a/#"})
    ensures UnsubscribeAll(Table(LEFT, LEFT, map[], {"a/#"}), ["a/#"], "1") == Remnant()
    ensures SubscribeAll(Remnant(), ["+"], NEW) == Returned()
    ensures !Blank("a/#") && !Blank("+")
  {
    hide SubscribeAll, UnsubscribeAll, Blank, Scannable, CopiesUp;
    OutlivedCopyExists();
    HashFiled();
    PlusFacts();
    SubscribeOneMore(EMPTY, "a/#", OLD, "1");
    SubscribeOneMore(Table(LEFT, LEFT, map[], {"a/#"}), "a/#", OLD, "1");
    SubscribeOneMore(Remnant(), "+", NEW, "1");
    assert LEFT - {("a/#", "1")} == map[];
  }

  lemma HashFiled()
    ensures Wild("a/#") && !Blank("a/#")
  {
    hide Split, TrimSpace;
    assert "a/#"[2] == '#';
    OutlivedCopyExists();
  }

  /** The old connection may come first in the answers, and then the new one is skipped. */
  lemma OldComesFirst()
    ensures !Blank("a") && !Wild("a") && Matches("+", "a") && OneEach([OLD], Returned().Answers("a"))
    ensures OneEach([], EMPTY.Answers("a"))
  {
    hide CopiesUp, LiveHit, CopyHit, Blank, Matches, Scannable;
    OutlivedCopyExists();
    PlusFacts();
    var answers := Returned().Answers("a");
    assert ("+", "1") in answers && ("a/#", "1") in answers && answers[("a/#", "1")] == OLD;
    assert Parent([OLD]) == [] && Last([OLD]) == OLD && Ids([OLD]) == {"1"};
    assert EMPTY.Answers("a") == map[];
  }

  lemma SkippingPublish(ss: seq<State>)
    requires ss == DisplacingStates()
    ensures Next(ss[3], DoPublish("A", HELLO, 0, [OLD], []), ss[4])
  {
    hide Returned, OneEach, Blank, Table.Answers, Broadcast, Marks;
    OldComesFirst();
    var none: multiset<Copy> := multiset{};
    NobodyTold(ss[3], "A", Pub(HELLO, Some(0)));
    NothingMarked("A", 0, none);
    MarksOne();
    assert Forwarded(ss[3].nodes["A"], []) == {} && RetainStep(Returned(), HELLO, Returned());
    assert ss[4].nodes == ss[3].nodes["A" := ss[3].nodes["A"]];
    assert none + multiset{("A", OLD, 0)} == multiset{("A", OLD, 0)};
  }

  lemma MarksOne()
    ensures Marks("A", [OLD], 0) == multiset{("A", OLD, 0)}
  {
    assert (set c | c in [OLD] :: ("A", c, 0)) == {("A", OLD, 0)};
  }

  lemma DisplacingRun()
    ensures Run(Displacing(), DisplacingStates())
  {
    hide SubscribeAll, UnsubscribeAll, Blank, Broadcast, ClientPublishes, Returned, Remnant;
    var ss := DisplacingStates();
    Tables();
    NobodyTold(ss[0], "A", Sub(["a/#"]));
    NobodyTold(ss[2], "A", Sub(["+"]));
    var none: map<Name, Client> := map[];
    assert none.Keys == {};
    SkippingPublish(ss);
    assert ss[1].nodes == ss[0].nodes["A" := ss[1].nodes["A"]];
    assert ss[2].nodes == ss[1].nodes["A" := ss[2].nodes["A"]];
    assert ss[3].nodes == ss[2].nodes["A" := ss[3].nodes["A"]];
  }

  /** The connection that holds the filter is live at the publish, and however the run goes on it is never
      written the event: the copy went to the connection that is gone. */
  lemma NeverServed(steps: seq<Step>, ss: seq<State>, k: nat)
    requires Run(steps, ss) && 4 <= k <= |steps| && steps[..4] == Displacing() && ss[..5] == DisplacingStates()
    ensures ss[3] == Alone(Returned(), map[], multiset{}) && Returned().live[("+", "1")] == NEW
    ensures Matches("+", HELLO.topic)
    ensures ("A", OLD, 0) in ss[k].written && ("A", NEW, 0) !in ss[k].written
  {
    hide Next, Init, Matches;
    assert ss[3] == ss[..5][3] && ss[4] == ss[..5][4];
    PlusFacts();
    StaysWritten(steps, ss, 4, k, ("A", OLD, 0));
    AtMostOnce(steps, ss, k, "A", OLD, NEW, 0);
  }

  lemma {:induction false} StaysWritten(steps: seq<Step>, ss: seq<State>, i: nat, k: nat, t: Copy)
    requires Run(steps, ss) && i <= k <= |steps| && t in ss[i].written
    ensures t in ss[k].written
    decreases k
  {
    hide Next, Init;
    if i < k {
      StaysWritten(steps, ss, i, k - 1, t);
      WrittenGrows(ss[k - 1], steps[k - 1], ss[k]);
    }
  }

  // ---------------------------------------------------------------- two retained messages, and none

  const MORNING := Message("t", [1], 0, true, 0)
  const EVENING := Message("t", [2], 0, true, 0)

  /** Both publish before anybody subscribes; then one client of each node does. */
  function Retaining(): seq<Step> {
    [LinkUp("A", "B", TO_B), LinkUp("B", "A", TO_A),
     DoPublish("A", MORNING, 0, [], []), DoPublish("B", EVENING, 1, [], []),
     DoSubscribe("A", ONE, ["t"]), DoSubscribe("B", TWO, ["t"]), DoReceive("A", "B", []), DoReceive("B", "A", []),
     DoReceive("A", "B", [TWO]), DoReceive("B", "A", [ONE])]
  }

  function Kept(live: map<Pair, Client>, m: Message): Table {
    Holding(live, map["t" := m])
  }

  const SAID: map<Event, Name> := map[0 := "A", 1 := "B"]

  function Morning(): State {
    World(Kept(NOBODY, MORNING), EMPTY, EMPTY, EMPTY, [], [], map[0 := "A"])
  }

  function TwoRetained(): State {
    World(Kept(NOBODY, MORNING), EMPTY, Kept(NOBODY, EVENING), EMPTY, [], [], SAID)
  }

  function NoneRetained(): State {
    World(Holding(FIRST, map[]), Holding(NOTED_B, map[]), Holding(SECOND, map[]), Holding(NOTED, map[]), [], [], SAID)
  }

  function RetainingStates(): seq<State> {
    var la, lb, ia, ib := Kept(FIRST, MORNING), Kept(SECOND, EVENING), Holding(NOTED_B, map[]), Holding(NOTED, map[]);
    [Apart(), HalfLinked(), Together(), Morning(), TwoRetained(),
     World(la, EMPTY, Kept(NOBODY, EVENING), EMPTY, [Sub(["t"])], [], SAID),
     World(la, EMPTY, lb, EMPTY, [Sub(["t"])], [Sub(["t"])], SAID),
     World(la, EMPTY, lb, ib, [], [Sub(["t"]), Pub(EVENING, None)], SAID),
     World(la, ia, lb, ib, [Pub(MORNING, None)], [Pub(EVENING, None)], SAID),
     World(la, ia, Holding(SECOND, map[]), ib, [], [Pub(EVENING, None)], SAID), NoneRetained()]
  }

  lemma Retains(m: Message)
    ensures EMPTY.Retain("t", m) == Kept(NOBODY, m)
  {
    PlainTopic();
  }

  lemma FirstRetained()
    ensures Next(Together(), DoPublish("A", MORNING, 0, [], []), Morning())
  {
    hide Holding, Next, Kept;
    Retains(MORNING);
    Channels(EMPTY, EMPTY, EMPTY, EMPTY, [], [], map[]);
    SetA(EMPTY, EMPTY, EMPTY, EMPTY, [], [], map[], Kept(NOBODY, MORNING), EMPTY);
    Publishing(Together(), "A", MORNING, 0, Kept(NOBODY, MORNING), Morning());
  }

  lemma SecondRetained()
    ensures Next(Morning(), DoPublish("B", EVENING, 1, [], []), TwoRetained())
  {
    hide Holding, Next, Kept;
    Retains(EVENING);
    var la, o := Kept(NOBODY, MORNING), map[0 := "A"];
    Channels(la, EMPTY, EMPTY, EMPTY, [], [], o);
    SetB(la, EMPTY, EMPTY, EMPTY, [], [], o, Kept(NOBODY, EVENING), EMPTY);
    assert o[1 := "B"] == SAID;
    Publishing(Morning(), "B", EVENING, 1, Kept(NOBODY, EVENING), TwoRetained());
  }

  lemma BothJoin(ss: seq<State>)
    requires ss == RetainingStates()
    ensures Next(TwoRetained(), DoSubscribe("A", ONE, ["t"]), ss[5]) && Next(ss[5], DoSubscribe("B", TWO, ["t"]), ss[6])
  {
    hide Next, World, Holding;
    Literals(Sub(["t"]));
    JoinA(NOBODY, map["t" := MORNING], ONE, EMPTY, Kept(NOBODY, EVENING), EMPTY, [], [], SAID);
    JoinB(NOBODY, map["t" := EVENING], TWO, Kept(FIRST, MORNING), EMPTY, EMPTY, [Sub(["t"])], [], SAID);
  }

  lemma BothReplay(ss: seq<State>)
    requires ss == RetainingStates()
    ensures Next(ss[6], DoReceive("A", "B", []), ss[7]) && Next(ss[7], DoReceive("B", "A", []), ss[8])
  {
    hide Next, World, Replays;
    var la, lb := Kept(FIRST, MORNING), Kept(SECOND, EVENING);
    Literals(Sub(["t"]));
    OneReplayed(lb, EVENING);
    OneReplayed(la, MORNING);
    hide Holding;
    assert [Sub(["t"])] + [Pub(EVENING, None)] == [Sub(["t"]), Pub(EVENING, None)];
    assert [] + [Pub(MORNING, None)] == [Pub(MORNING, None)];
    NoteB(la, EMPTY, lb, NOBODY, [], [Sub(["t"])], SAID, [Pub(EVENING, None)]);
    NoteA(la, NOBODY, lb, Holding(NOTED, map[]), [], [Pub(EVENING, None)], SAID, [Pub(MORNING, None)]);
  }

  lemma BothDrop(ss: seq<State>)
    requires ss == RetainingStates()
    ensures Next(ss[8], DoReceive("A", "B", [TWO]), ss[9]) && Next(ss[9], DoReceive("B", "A", [ONE]), ss[10])
  {
    hide Next, World, Holding;
    var ia, ib := Holding(NOTED_B, map[]), Holding(NOTED, map[]);
    Literals(Pub(MORNING, None));
    Literals(Pub(EVENING, None));
    DropB(Kept(FIRST, MORNING), ia, "2", TWO, EVENING, MORNING, ib, [], [Pub(EVENING, None)], SAID);
    DropA("1", ONE, MORNING, EVENING, ia, Holding(SECOND, map[]), ib, [], [], SAID);
  }

  lemma RetainingRun()
    ensures Run(Retaining(), RetainingStates())
  {
    hide Next, World, Holding, Init, Apart, HalfLinked, Together, Morning, TwoRetained, NoneRetained;
    var ss := RetainingStates();
    LinkFirst();
    LinkSecond();
    FirstRetained();
    SecondRetained();
    BothJoin(ss);
    BothReplay(ss);
    BothDrop(ss);
  }

  /** Both nodes are linked, nothing is in flight, and each retains a message of its own for the topic. */
  lemma TwoCopies()
    ensures var s := RetainingStates()[4];
            && Linked(s, "A", "B") && Linked(s, "B", "A") && Channel(s, "A", "B") == [] && Channel(s, "B", "A") == []
            && "A" in s.nodes && MessageOf(s.nodes["A"].local, "t") == Some(MORNING)
            && "B" in s.nodes && MessageOf(s.nodes["B"].local, "t") == Some(EVENING)
  {
  }

  /** Each replay took the other node's message away: nobody cleared the topic, and no node retains it. */
  lemma NoneLeft()
    ensures var s := RetainingStates()[10];
            && Linked(s, "A", "B") && Linked(s, "B", "A") && Channel(s, "A", "B") == [] && Channel(s, "B", "A") == []
            && forall x :: !Holds(s, x, "t")
  {
    hide Holding;
    HoldsNothing(FIRST);
    HoldsNothing(SECOND);
    assert RetainingStates()[10] == NoneRetained();
  }

  lemma HoldsNothing(live: map<Pair, Client>)
    ensures Holding(live, map[]).retained == map[]
  {
  }
}
