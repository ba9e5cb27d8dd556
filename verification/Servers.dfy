/** What the handlers of one node share: the two topic indexes, the connected peers, the gauges, and
    the packets written so far; and the session of one connection. */
module Servers {
  import opened Topics
  import opened Table
  import opened Listing
  import opened Fanout
  import opened TopicTrie
  import opened TrieSpec
  import opened Ledgers
  import Cluster

  datatype Packet =
    | Publish(message: Message)
    | Puback(id: nat) | Pubrec(id: nat) | Pubcomp(id: nat) | Suback(id: nat) | Unsuback(id: nat)
    | Subscribe(topics: seq<string>)
    | Unsubscribe(topics: seq<string>)

  datatype Write = Write(to: Client, packet: Packet)

  // ---------------------------------------------------------------- one write to each

  function SetOf(topics: seq<string>): set<string> {
    set f | f in topics
  }

  function WriteEach(cs: seq<Client>, packet: Packet): (ws: seq<Write>)
    ensures |ws| == |cs| && forall i | 0 <= i < |ws| :: ws[i] == Write(cs[i], packet)
  {
    seq(|cs|, i requires 0 <= i < |cs| => Write(cs[i], packet))
  }

  function WriteAll(to: Client, ms: seq<Message>): (ws: seq<Write>)
    ensures |ws| == |ms| && forall i | 0 <= i < |ws| :: ws[i] == Write(to, Publish(ms[i]))
  {
    seq(|ms|, i requires 0 <= i < |ms| => Write(to, Publish(ms[i])))
  }

  // ---------------------------------------------------------------- packets topic by topic

  /** Before the first topic of a SUBSCRIBE; t is the table that resends come from. */
  lemma NothingYet(t: Table, h: Client)
    ensures SetOf([]) == {} && Cluster.Resends(t, [], []) && WriteAll(h, []) == []
  {
  }

  /** One topic more. */
  lemma ResentMore(t: Table, topics: seq<string>, topic: string, h: Client, ms: seq<Message>, more: seq<Message>)
    requires Cluster.Resends(t, topics, ms) && Cluster.ResendsOne(t, topic, more)
    ensures Cluster.Resends(t, topics + [topic], ms + more)
    ensures WriteAll(h, ms + more) == WriteAll(h, ms) + WriteAll(h, more)
    ensures SetOf(topics + [topic]) == SetOf(topics) + {topic}
  {
    hide WriteAll, SetOf, Cluster.Resends, Cluster.ResendsOne;
    ResendsMore(t, topics, topic, ms, more);
    WriteAllMore(h, ms, more);
    SetOfMore(topics, topic);
  }

  lemma ResendsMore(t: Table, topics: seq<string>, topic: string, ms: seq<Message>, more: seq<Message>)
    requires Cluster.Resends(t, topics, ms) && Cluster.ResendsOne(t, topic, more)
    ensures Cluster.Resends(t, topics + [topic], ms + more)
  {
    hide Cluster.ResendsOne;
    assert Parent(topics + [topic]) == topics;
    assert (ms + more)[..|ms|] == ms && (ms + more)[|ms|..] == more;
  }

  function Flat(parts: seq<seq<Message>>): seq<Message> {
    if parts == [] then [] else Flat(Parent(parts)) + Last(parts)
  }

  /** One part for each topic, with every message that the topic is sent, once. */
  ghost predicate Parts(t: Table, topics: seq<string>, parts: seq<seq<Message>>) {
    && |parts| == |topics|
    && forall i | 0 <= i < |topics| :: !Blank(topics[i]) && Enumerates(parts[i], t.RetainAnswers(topics[i]))
  }

  /** Exactly what answers a SUBSCRIBE, taken apart: topic by topic all that is retained for it. */
  lemma ResendsExactly(t: Table, topics: seq<string>, ms: seq<Message>)
    ensures Cluster.Resends(t, topics, ms) <==> exists parts :: Parts(t, topics, parts) && ms == Flat(parts)
  {
    hide Cluster.Resends, Parts, Flat;
    if Cluster.Resends(t, topics, ms) {
      var parts := TakenApart(t, topics, ms);
    }
    if parts :| Parts(t, topics, parts) && ms == Flat(parts) {
      PutTogether(t, topics, parts);
    }
  }

  lemma {:induction false} TakenApart(t: Table, topics: seq<string>, ms: seq<Message>)
    returns (parts: seq<seq<Message>>)
    requires Cluster.Resends(t, topics, ms)
    ensures Parts(t, topics, parts) && ms == Flat(parts)
    decreases |topics|
  {
    hide Parts, Flat, Cluster.ResendsOne;
    if topics == [] {
      parts := [];
      NoParts(t);
    } else {
      var front, topic := Parent(topics), Last(topics);
      var n :| 0 <= n <= |ms| && Cluster.Resends(t, front, ms[..n]) && Cluster.ResendsOne(t, topic, ms[n..]);
      var before := TakenApart(t, front, ms[..n]);
      PartMore(t, front, before, topic, ms[n..]);
      parts := before + [ms[n..]];
    }
  }

  lemma NoParts(t: Table)
    ensures Parts(t, [], []) && Flat([]) == []
  {
  }

  lemma PartMore(t: Table, topics: seq<string>, parts: seq<seq<Message>>, topic: string, more: seq<Message>)
    requires Parts(t, topics, parts) && Cluster.ResendsOne(t, topic, more)
    ensures Parts(t, topics + [topic], parts + [more]) && Flat(parts + [more]) == Flat(parts) + more
  {
    hide Blank, Enumerates, Table.RetainAnswers;
    assert Parent(parts + [more]) == parts;
  }

  lemma {:induction false} PutTogether(t: Table, topics: seq<string>, parts: seq<seq<Message>>)
    requires Parts(t, topics, parts)
    ensures Cluster.Resends(t, topics, Flat(parts))
    decreases |topics|
  {
    hide Cluster.Resends;
    if topics == [] {
      NothingYet(t, Client("", 0));
    } else {
      LastPart(t, topics, parts);
      hide Parts, Flat;
      PutTogether(t, Parent(topics), Parent(parts));
      ResendsMore(t, Parent(topics), Last(topics), Flat(Parent(parts)), Last(parts));
    }
  }

  lemma LastPart(t: Table, topics: seq<string>, parts: seq<seq<Message>>)
    requires Parts(t, topics, parts) && topics != []
    ensures parts != [] && Parts(t, Parent(topics), Parent(parts)) && Cluster.ResendsOne(t, Last(topics), Last(parts))
    ensures Flat(parts) == Flat(Parent(parts)) + Last(parts) && topics == Parent(topics) + [Last(topics)]
  {
    hide Blank, Enumerates, Table.RetainAnswers;
  }

  lemma WriteAllMore(h: Client, ms: seq<Message>, more: seq<Message>)
    ensures WriteAll(h, ms + more) == WriteAll(h, ms) + WriteAll(h, more)
  {
  }

  lemma SetOfMore(topics: seq<string>, topic: string)
    ensures SetOf([]) == {} && SetOf(topics + [topic]) == SetOf(topics) + {topic}
  {
  }

  lemma NextTopic(topics: seq<string>, i: nat)
    requires i < |topics|
    ensures topics[..i + 1] == topics[..i] + [topics[i]]
  {
  }

  lemma NobodyYet(packet: Packet)
    ensures Ids([]) == {} && Firsts([]) == [] && WriteEach([], packet) == []
  {
  }

  lemma WriteEachMore(cs: seq<Client>, c: Client, packet: Packet)
    ensures WriteEach(cs + [c], packet) == WriteEach(cs, packet) + [Write(c, packet)]
    ensures WriteEach(cs + [], packet) == WriteEach(cs, packet)
  {
    assert cs + [] == cs;
  }

  // ---------------------------------------------------------------- sessions

  /** One connection of a client or a peer. */
  class Session {
    var id: string
    var conn: nat
    var open: bool
    var topics: map<string, string>

    constructor (conn: nat)
      ensures this.conn == conn && open && topics == map[] && id == ""
    {
      this.conn, open, topics, id := conn, true, map[], "";
    }

    /** What the index stores for the session: its client's id and this very connection. */
    function Handle(): (c: Client)
      reads this`id, this`conn
      ensures c.id == id && c.conn == conn
    {
      Client(id, conn)
    }

    method AddTopic(topic: string, data: string) returns (exist: bool)
      modifies this`topics
      ensures topics == old(topics)[topic := data]
      ensures exist <==> topic in old(topics)
    {
      exist := topic in topics;
      topics := topics[topic := data];
    }

    method RemoveTopic(topic: string) returns (ok: bool)
      modifies this`topics
      ensures topics == old(topics) - {topic}
      ensures ok <==> topic in old(topics)
    {
      if topic !in topics {
        assert topics - {topic} == topics;
        return false;
      }
      topics := topics - {topic};
      ok := true;
    }

    method Close()
      modifies this`open
      ensures !open
    {
      open := false;
    }
  }

  // ---------------------------------------------------------------- the server

  class Server {
    const brokerTopics: Trie
    const clusterTopics: Trie
    var clusters: map<string, Client>
    var pubRecv: int
    var pubSent: int
    var subCount: int
    var retain: int
    var clientsConnected: int
    var clientsDisconnected: int
    /** Every call of WritePacket, in order. */
    var wire: seq<Write>

    ghost function Repr(): set<object>
      reads brokerTopics, clusterTopics
    {
      brokerTopics.Repr() + clusterTopics.Repr()
    }

    ghost predicate Valid()
      reads brokerTopics, clusterTopics, Repr()
    {
      && brokerTopics.Valid() && clusterTopics.Valid()
      && brokerTopics.Repr() !! clusterTopics.Repr()
      && this !in Repr()
    }

    /** The handlers of client packets touch no object of the peers' index. */
    twostate predicate BrokerGrew()
      reads brokerTopics, clusterTopics
    {
      && (forall o | o in brokerTopics.Repr() :: o in old(brokerTopics.Repr()) || fresh(o))
      && clusterTopics.Repr() == old(clusterTopics.Repr())
    }

    /** The handlers of peers' packets only clear messages in the clients' index. */
    twostate predicate ClusterGrew()
      reads brokerTopics, clusterTopics
    {
      && (forall o | o in clusterTopics.Repr() :: o in old(clusterTopics.Repr()) || fresh(o))
      && brokerTopics.Repr() == old(brokerTopics.Repr())
    }

    /** This server as one node of the cluster's step system. */
    ghost function Node(): Cluster.Node
      reads this`clusters, brokerTopics`table, clusterTopics`table
    {
      Cluster.Node(brokerTopics.table, clusterTopics.table, clusters)
    }

    /** The clients' index with its gauges. */
    ghost function Books(): Ledger
      reads this`subCount, this`retain, brokerTopics
    {
      Ledger(brokerTopics.Value(), brokerTopics.table, subCount, retain)
    }

    lemma BooksSound()
      requires Valid()
      ensures Books().Sound() && Books().table == Node().local
    {
      hide Trie.Agrees, WF;
    }

    constructor ()
      ensures Valid() && fresh(this) && fresh(Repr())
      ensures Node() == Cluster.Node(EMPTY, EMPTY, map[])
      ensures Books() == Ledger(State(map[], map[[] := map[]]), EMPTY, 0, 0) && wire == []
      ensures clientsConnected == 0 && clientsDisconnected == 0
    {
      hide Trie.Agrees, WF;
      var b := new Trie();
      var c := new Trie();
      brokerTopics, clusterTopics := b, c;
      clusters, wire := map[], [];
      pubRecv, pubSent, subCount, retain := 0, 0, 0, 0;
      clientsConnected, clientsDisconnected := 0, 0;
    }

    method WritePacket(to: Client, packet: Packet)
      modifies this`wire
      ensures wire == old(wire) + [Write(to, packet)]
    {
      wire := wire + [Write(to, packet)];
    }

    /** Writes a publish once to each client id among the subscribers. */
    method FanOut(subs: seq<Client>, message: Message, counted: bool)
      modifies this`wire, this`pubSent
      ensures wire == old(wire) + WriteEach(Firsts(subs), Publish(message))
      ensures pubSent == old(pubSent) + if counted then |Firsts(subs)| else 0
    {
      hide Firsts, Ids, WriteEach;
      var history: set<string> := {};
      assert subs[..0] == [];
      NobodyYet(Publish(message));
      for i := 0 to |subs|
        invariant history == Ids(subs[..i])
        invariant wire == old(wire) + WriteEach(Firsts(subs[..i]), Publish(message))
        invariant pubSent == old(pubSent) + if counted then |Firsts(subs[..i])| else 0
      {
        var client := subs[i];
        FirstsNext(subs, i);
        WriteEachMore(Firsts(subs[..i]), client, Publish(message));
        if client.id !in history {
          history := history + {client.id};
          WritePacket(client, Publish(message));
          if counted {
            pubSent := pubSent + 1;
          }
        }
      }
      assert subs[..|subs|] == subs;
    }

    /** Sends retained messages to one client. */
    method Resend(to: Client, retains: seq<Message>)
      modifies this`wire
      ensures wire == old(wire) + WriteAll(to, retains)
    {
      for i := 0 to |retains|
        invariant wire == old(wire) + WriteAll(to, retains[..i])
      {
        WritePacket(to, Publish(retains[i]));
        assert WriteAll(to, retains[..i + 1]) == WriteAll(to, retains[..i]) + [Write(to, Publish(retains[i]))];
      }
      assert retains[..|retains|] == retains;
    }

    /** Clusters().Range: the packet goes to every connected peer, in some order. */
    method Broadcast(packet: Packet) returns (ghost peers: seq<Client>)
      modifies this`wire
      ensures Enumerates(peers, clusters)
      ensures wire == old(wire) + WriteEach(peers, packet)
    {
      peers := [];
      ghost var names: seq<string> := [];
      var rest := clusters.Keys;
      while rest != {}
        invariant rest <= clusters.Keys
        invariant Lists(peers, names, map k | k in clusters && k !in rest :: clusters[k])
        invariant wire == old(wire) + WriteEach(peers, packet)
      {
        var k :| k in rest;
        WritePacket(clusters[k], packet);
        ghost var done := map k | k in clusters && k !in rest :: clusters[k];
        ListsOneMore(peers, names, done, k, clusters[k]);
        rest := rest - {k};
        assert (map k | k in clusters && k !in rest :: clusters[k]) == done[k := clusters[k]];
        peers, names := peers + [clusters[k]], names + [k];
      }
      assert (map k | k in clusters && k !in rest :: clusters[k]) == clusters;
    }
  }
}
