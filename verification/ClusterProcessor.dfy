/** The receiving side of the node-to-node protocol, and the replay of topics to a new peer. */
module ClusterProcessor {
  import opened Topics
  import opened Table
  import opened Listing
  import opened Fanout
  import opened TopicTrie
  import opened TrieSpec
  import opened TrieLaws
  import opened Ledgers
  import opened Servers
  import Cluster

  class Processor {
    const s: Server

    constructor (s: Server)
      ensures this.s == s
    {
      this.s := s;
    }

    // -------------------------------------------------------------- publish

    /** A peer's publish goes to the local clients only. */
    method DoPublish(topic: string, packet: Message) returns (ghost locals: seq<Client>)
      requires s.Valid() && !Blank(topic)
      modifies s`wire, s`pubSent
      ensures s.Valid()
      ensures OneEach(locals, s.Node().local.Answers(topic))
      ensures s.wire == old(s.wire) + WriteEach(locals, Publish(packet))
      ensures s.pubSent == old(s.pubSent) + |Cluster.Hits(s.Node().local, topic)|
    {
      hide Trie.Agrees, WF, OneEach, Firsts, Enumerates, Table.Answers, Table.Ok;
      var subs := s.brokerTopics.Subscribers(topic);
      FirstsOneEach(subs, s.brokerTopics.table.Answers(topic));
      locals := Firsts(subs);
      s.FanOut(subs, packet, true);
    }

    /** A retained message that another node took over is dropped here. The gauge is not told: it is off
        by one more exactly when there was one. */
    method ProcessPublish(packet: Message) returns (ghost locals: seq<Client>)
      requires s.Valid() && !Blank(packet.topic)
      modifies s`wire, s`pubSent, s.brokerTopics.Repr()
      ensures s.Valid() && s.BrokerGrew()
      ensures var was := old(s.Node());
              && OneEach(locals, was.local.Answers(packet.topic))
              && s.wire == old(s.wire) + WriteEach(locals, Publish(packet))
              && s.pubSent == old(s.pubSent) + |Cluster.Hits(was.local, packet.topic)|
              && s.Node() == was.(local := s.Node().local)
              && if packet.retain then DropStep(was.local, packet.topic, s.Node().local) else s.Node() == was
      ensures old(s.Books()).Forgets(packet, s.Books())
      ensures s.Books().RetainDrift() == old(s.Books()).RetainDrift()
                  + if packet.retain && Clears(old(s.Node()).local, packet.topic) then 1 else 0
    {
      hide Trie.Agrees, WF, OneEach, Table.Answers, Cluster.Hits, Blank, DropStep, Clears, Ledger.Forgets;
      hide Ledger.RetainDrift;
      locals := DoPublish(packet.topic, packet);
      ghost var books := s.Books();
      s.BooksSound();
      DropRetained(packet);
      books.ForgetCounts(packet, s.Books());
    }

    /** The retained part of a peer's publish. */
    method DropRetained(packet: Message)
      requires s.Valid() && !Blank(packet.topic)
      modifies s.brokerTopics.Repr()
      ensures s.Valid() && s.BrokerGrew()
      ensures s.Node() == old(s.Node()).(local := s.Node().local)
      ensures old(s.Books()).Forgets(packet, s.Books())
    {
      hide Trie.Agrees, WF, Blank, Cleared, DropKeptState, KeepPath, Ledger.Forgets;
      ghost var books := s.Books();
      var exist := false;
      ghost var key := "";
      if packet.retain {
        exist, key := s.brokerTopics.RemoveRetain(packet.topic);
      }
      Dropped(books, packet, exist, key, s.Books());
    }

    lemma Dropped(books: Ledger, packet: Message, exist: bool, key: string, next: Ledger)
      requires exist <==> packet.retain && exists k :: Cleared(books.table, packet.topic, k)
      requires exist ==> Cleared(books.table, packet.topic, key) && next == books.Forget(key)
      requires !exist ==> next == books
      ensures books.Forgets(packet, next)
    {
      hide Cleared, DropKeptState, KeepPath;
    }

    // -------------------------------------------------------------- subscriptions

    /** One topic of a peer's SUBSCRIBE: noted for the peer, and answered with the messages retained here. */
    method SubscribeOne(client: Session, topic: string) returns (ghost ms: seq<Message>)
      requires s.Valid() && client !in s.Repr() && !Blank(topic)
      modifies s`wire, client`topics, s.clusterTopics.Repr()
      ensures s.Valid() && s.ClusterGrew()
      ensures s.Node() ==
              old(s.Node()).(interest := old(s.Node()).interest.Subscribe(topic, client.id, client.Handle()))
      ensures client.topics.Keys == old(client.topics.Keys) + {topic}
      ensures Cluster.ResendsOne(s.Node().local, topic, ms)
      ensures s.wire == old(s.wire) + WriteAll(client.Handle(), ms)
    {
      hide Trie.Agrees, WF, Blank, Enumerates, Table.RetainAnswers, WriteAll, Table.Subscribe, SubscribeState;
      var exist := s.clusterTopics.Subscribe(topic, client.id, client.Handle());
      exist := client.AddTopic(topic, client.id);
      var retains := s.brokerTopics.SearchRetain(topic);
      ms := retains;
      s.Resend(client.Handle(), retains);
    }

    method SubscribeEach(client: Session, topics: seq<string>) returns (ghost ms: seq<Message>)
      requires s.Valid() && client !in s.Repr() && forall f | f in topics :: !Blank(f)
      modifies s`wire, client`topics, s.clusterTopics.Repr()
      ensures s.Valid() && s.ClusterGrew()
      ensures s.Node() ==
              old(s.Node()).(interest := Cluster.SubscribeAll(old(s.Node()).interest, topics, client.Handle()))
      ensures client.topics.Keys == old(client.topics.Keys) + SetOf(topics)
      ensures Cluster.Resends(s.Node().local, topics, ms)
      ensures s.wire == old(s.wire) + WriteAll(client.Handle(), ms)
    {
      hide Server.Valid, Trie.Repr, Server.Node, Table.Subscribe, SetOf, Cluster.SubscribeAll, Cluster.Resends;
      hide Cluster.ResendsOne, WriteAll, Blank;
      ghost var n := s.Node();
      ghost var h := client.Handle();
      ms := [];
      NothingYet(n.local, h);
      NothingNoted(n.interest, h);
      assert topics[..0] == [];
      for i := 0 to |topics|
        invariant s.Valid() && client !in s.Repr() && h == client.Handle() && s.ClusterGrew()
        invariant s.Node() == n.(interest := Cluster.SubscribeAll(n.interest, topics[..i], h))
        invariant client.topics.Keys == old(client.topics.Keys) + SetOf(topics[..i])
        invariant Cluster.Resends(n.local, topics[..i], ms)
        invariant s.wire == old(s.wire) + WriteAll(h, ms)
      {
        ghost var more := SubscribeOne(client, topics[i]);
        AnsweredMore(n, topics, i, h, ms, more);
        ms := ms + more;
      }
      assert topics[..|topics|] == topics;
    }

    lemma NothingNoted(t: Table, h: Client)
      ensures Cluster.SubscribeAll(t, [], h) == t
    {
    }

    /** One topic more. */
    lemma NotedMore(t: Table, topics: seq<string>, topic: string, h: Client)
      ensures Cluster.SubscribeAll(t, topics + [topic], h) ==
              Cluster.SubscribeAll(t, topics, h).Subscribe(topic, h.id, h)
    {
      hide Table.Subscribe;
      assert Parent(topics + [topic]) == topics;
    }

    lemma NothingForgotten(t: Table, id: string)
      ensures Cluster.UnsubscribeAll(t, [], id) == t
    {
    }

    lemma ForgottenMore(t: Table, topics: seq<string>, topic: string, id: string)
      ensures Cluster.UnsubscribeAll(t, topics + [topic], id) ==
              Cluster.UnsubscribeAll(t, topics, id).Unsubscribe(topic, id)
    {
      hide Table.Unsubscribe;
      assert Parent(topics + [topic]) == topics;
    }

    lemma AnsweredMore(n: Cluster.Node, topics: seq<string>, i: nat, h: Client, ms: seq<Message>, more: seq<Message>)
      requires i < |topics| && Cluster.Resends(n.local, topics[..i], ms)
      requires Cluster.ResendsOne(n.local, topics[i], more)
      ensures Cluster.SubscribeAll(n.interest, topics[..i + 1], h) ==
              Cluster.SubscribeAll(n.interest, topics[..i], h).Subscribe(topics[i], h.id, h)
      ensures Cluster.Resends(n.local, topics[..i + 1], ms + more)
      ensures WriteAll(h, ms + more) == WriteAll(h, ms) + WriteAll(h, more)
      ensures SetOf(topics[..i + 1]) == SetOf(topics[..i]) + {topics[i]}
    {
      hide Cluster.Resends, Cluster.ResendsOne, SetOf, Cluster.SubscribeAll, WriteAll, Table.Subscribe;
      NextTopic(topics, i);
      ResentMore(n.local, topics[..i], topics[i], h, ms, more);
      NotedMore(n.interest, topics[..i], topics[i], h);
    }

    method ProcessSubscribe(client: Session, messageId: nat, topics: seq<string>) returns (ghost ms: seq<Message>)
      requires s.Valid() && client !in s.Repr() && forall f | f in topics :: !Blank(f)
      modifies s`wire, client`topics, s.clusterTopics.Repr()
      ensures s.Valid() && s.ClusterGrew()
      ensures s.Node() ==
              old(s.Node()).(interest := Cluster.SubscribeAll(old(s.Node()).interest, topics, client.Handle()))
      ensures client.topics.Keys == old(client.topics.Keys) + SetOf(topics)
      ensures Cluster.Resends(s.Node().local, topics, ms)
      ensures s.wire == old(s.wire) + [Write(client.Handle(), Suback(messageId))] + WriteAll(client.Handle(), ms)
    {
      hide Trie.Valid, SetOf, Cluster.SubscribeAll, Cluster.Resends, WriteAll, Blank;
      s.WritePacket(client.Handle(), Suback(messageId));
      ms := SubscribeEach(client, topics);
    }

    method UnsubscribeOne(client: Session, topic: string)
      requires s.Valid() && client !in s.Repr()
      modifies client`topics, s.clusterTopics.Repr()
      ensures s.Valid() && s.ClusterGrew()
      ensures s.Node() == old(s.Node()).(interest := old(s.Node()).interest.Unsubscribe(topic, client.id))
      ensures client.topics == old(client.topics) - {topic}
    {
      hide Trie.Agrees, WF, HasLeaf, Table.Unsubscribe, UnsubscribeState;
      var exist := s.clusterTopics.Unsubscribe(topic, client.id);
      var ok := client.RemoveTopic(topic);
    }

    method ProcessUnSubscribe(client: Session, messageId: nat, topics: seq<string>)
      requires s.Valid() && client !in s.Repr()
      modifies s`wire, client`topics, s.clusterTopics.Repr()
      ensures s.Valid() && s.ClusterGrew()
      ensures s.Node() == old(s.Node()).(interest := Cluster.UnsubscribeAll(old(s.Node()).interest, topics, client.id))
      ensures client.topics == old(client.topics) - SetOf(topics)
      ensures s.wire == old(s.wire) + [Write(client.Handle(), Unsuback(messageId))]
    {
      hide Trie.Valid, SetOf, Cluster.UnsubscribeAll;
      s.WritePacket(client.Handle(), Unsuback(messageId));
      UnsubscribeEach(client, topics);
    }

    method UnsubscribeEach(client: Session, topics: seq<string>)
      requires s.Valid() && client !in s.Repr()
      modifies client`topics, s.clusterTopics.Repr()
      ensures s.Valid() && s.ClusterGrew()
      ensures s.Node() == old(s.Node()).(interest := Cluster.UnsubscribeAll(old(s.Node()).interest, topics, client.id))
      ensures client.topics == old(client.topics) - SetOf(topics)
    {
      hide Server.Valid, Trie.Repr, Server.Node, Table.Unsubscribe, SetOf, Cluster.UnsubscribeAll;
      ghost var n := s.Node();
      NothingForgotten(n.interest, client.id);
      SetOfMore([], "");
      assert topics[..0] == [];
      for i := 0 to |topics|
        invariant s.Valid() && client !in s.Repr() && client.id == old(client.id) && s.ClusterGrew()
        invariant s.Node() == n.(interest := Cluster.UnsubscribeAll(n.interest, topics[..i], client.id))
        invariant client.topics == old(client.topics) - SetOf(topics[..i])
      {
        UnsubscribeOne(client, topics[i]);
        ForgottenMore(n.interest, topics[..i], topics[i], client.id);
        SetOfMore(topics[..i], topics[i]);
        NextTopic(topics, i);
      }
      assert topics[..|topics|] == topics;
    }

    method LeaveEach(client: Session) returns (ghost order: seq<string>)
      requires s.Valid() && client !in s.Repr()
      modifies client`topics, s.clusterTopics.Repr()
      ensures s.Valid() && s.ClusterGrew()
      ensures client.topics == map[] && SetOf(order) == old(client.topics).Keys
      ensures s.Node() == old(s.Node()).(interest := Cluster.UnsubscribeAll(old(s.Node()).interest, order, client.id))
    {
      hide Server.Valid, Trie.Repr, Server.Node, Table.Unsubscribe, Cluster.UnsubscribeAll, SetOf;
      ghost var n := s.Node();
      order := [];
      NothingForgotten(n.interest, client.id);
      SetOfMore([], "");
      var rest := client.topics.Keys;
      while rest != {}
        invariant s.Valid() && client !in s.Repr() && client.id == old(client.id) && s.ClusterGrew()
        invariant rest == client.topics.Keys && SetOf(order) + rest == old(client.topics).Keys
        invariant s.Node() == n.(interest := Cluster.UnsubscribeAll(n.interest, order, client.id))
      {
        var topic :| topic in rest;
        UnsubscribeOne(client, topic);
        ForgottenMore(n.interest, order, topic, client.id);
        SetOfMore(order, topic);
        order := order + [topic];
        rest := rest - {topic};
      }
    }

    /** The peer is forgotten together with everything it asked for. */
    method ProcessDisconnect(client: Session) returns (ghost order: seq<string>)
      requires s.Valid() && client !in s.Repr()
      modifies s`clusters, client`topics, client`open, s.clusterTopics.Repr()
      ensures s.Valid() && s.ClusterGrew()
      ensures !client.open && client.topics == map[] && SetOf(order) == old(client.topics).Keys
      ensures s.clusters == old(s.clusters) - {client.id}
      ensures s.Node() == Cluster.Parted(old(s.Node()), client.id, order)
    {
      hide Trie.Valid, Cluster.UnsubscribeAll, SetOf;
      s.clusters := s.clusters - {client.id};
      client.Close();
      order := LeaveEach(client);
    }

    // -------------------------------------------------------------- replay

    /** One round of syncNodeTopics: the peer of the trimmed name, if it is connected, is sent every
        filter of the clients' index. */
    method SyncNodeTopics(name: string) returns (ghost topics: seq<string>)
      requires s.Valid()
      modifies s`wire
      ensures s.Valid()
      ensures Distinct(topics) && forall f :: f in topics <==> f in s.Node().local.topics
      ensures s.wire == old(s.wire) +
              if TrimSpace(name) in s.clusters then Announce(s.clusters[TrimSpace(name)], topics) else []
    {
      hide Trie.Agrees, WF, TrimSpace;
      var fs := s.brokerTopics.RangeTopics();
      topics := fs;
      var clientId := TrimSpace(name);
      if clientId in s.clusters {
        for i := 0 to |fs|
          invariant s.wire == old(s.wire) + Announce(s.clusters[clientId], fs[..i])
        {
          s.WritePacket(s.clusters[clientId], Subscribe([fs[i]]));
          assert Announce(s.clusters[clientId], fs[..i + 1]) ==
              Announce(s.clusters[clientId], fs[..i]) + [Write(s.clusters[clientId], Subscribe([fs[i]]))];
        }
        assert fs[..|fs|] == fs;
      }
    }

    /** The configuration is searched for the name as it was received: one round for each entry that
        is equal to it, so none for a peer that is not configured. */
    method SyncTopics(names: seq<string>, clientId: string) returns (ghost rounds: seq<seq<string>>)
      requires s.Valid()
      modifies s`wire
      ensures s.Valid()
      ensures |rounds| == multiset(names)[clientId]
      ensures EachTopicOnce(rounds, s.Node().local.topics)
      ensures s.wire == old(s.wire) + Announcements(s.clusters, clientId, rounds)
    {
      hide Server.Valid, Trie.Repr, TrimSpace, EachTopicOnce, Announce, Announcements, Distinct;
      rounds := [];
      assert names[..0] == [];
      NoRound(s.clusters, clientId, s.Node().local.topics);
      for i := 0 to |names|
        invariant s.Valid()
        invariant |rounds| == multiset(names[..i])[clientId]
        invariant EachTopicOnce(rounds, s.Node().local.topics)
        invariant s.wire == old(s.wire) + Announcements(s.clusters, clientId, rounds)
      {
        OneNameMore(names, i, clientId);
        if clientId == names[i] {
          ghost var topics := SyncNodeTopics(names[i]);
          RoundMore(s.clusters, clientId, s.Node().local.topics, rounds, topics);
          rounds := rounds + [topics];
        }
      }
      assert names[..|names|] == names;
    }

    /** A new connection of a peer: it is stored under its name, and the topics are replayed to it. */
    method Admit(client: Session, names: seq<string>) returns (ghost rounds: seq<seq<string>>)
      requires s.Valid()
      modifies s`wire, s`clusters
      ensures s.Valid() && s.clusters == old(s.clusters)[client.id := client.Handle()]
      ensures s.Node() == old(s.Node()).(peers := old(s.Node()).peers[client.id := client.Handle()])
      ensures |rounds| == multiset(names)[client.id]
      ensures EachTopicOnce(rounds, s.Node().local.topics)
      ensures s.wire == old(s.wire) + Announcements(s.clusters, client.id, rounds)
    {
      hide Trie.Valid, TrimSpace, EachTopicOnce, Announcements;
      s.clusters := s.clusters[client.id := client.Handle()];
      rounds := SyncTopics(names, client.id);
    }

    lemma OneNameMore(names: seq<string>, i: nat, name: string)
      requires i < |names|
      ensures multiset(names[..i + 1])[name] == multiset(names[..i])[name] + if names[i] == name then 1 else 0
    {
      assert names[..i + 1] == names[..i] + [names[i]];
    }

    lemma NoRound(clusters: map<string, Client>, clientId: string, filters: set<string>)
      ensures EachTopicOnce([], filters) && Announcements(clusters, clientId, []) == []
    {
    }

    lemma RoundMore(clusters: map<string, Client>, clientId: string, filters: set<string>, rounds: seq<seq<string>>,
                    topics: seq<string>)
      requires EachTopicOnce(rounds, filters) && Distinct(topics) && forall f :: f in topics <==> f in filters
      ensures EachTopicOnce(rounds + [topics], filters)
      ensures Announcements(clusters, clientId, rounds + [topics]) == Announcements(clusters, clientId, rounds) +
              if TrimSpace(clientId) in clusters then Announce(clusters[TrimSpace(clientId)], topics) else []
    {
      hide TrimSpace, Distinct;
      assert Parent(rounds + [topics]) == rounds;
    }
  }

  ghost predicate EachTopicOnce(rounds: seq<seq<string>>, filters: set<string>) {
    forall r | r in rounds :: Distinct(r) && forall f :: f in r <==> f in filters
  }

  /** What the rounds write: nothing if no peer of the trimmed name is connected. */
  function Announcements(clusters: map<string, Client>, clientId: string, rounds: seq<seq<string>>): seq<Write> {
    if TrimSpace(clientId) in clusters then AnnounceAll(clusters[TrimSpace(clientId)], rounds) else []
  }

  function Announce(to: Client, topics: seq<string>): (ws: seq<Write>)
    ensures |ws| == |topics| && forall i | 0 <= i < |ws| :: ws[i] == Write(to, Subscribe([topics[i]]))
  {
    seq(|topics|, i requires 0 <= i < |topics| => Write(to, Subscribe([topics[i]])))
  }

  function AnnounceAll(to: Client, rounds: seq<seq<string>>): seq<Write> {
    if rounds == [] then [] else AnnounceAll(to, Parent(rounds)) + Announce(to, Last(rounds))
  }
}
