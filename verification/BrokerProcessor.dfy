/** The handlers of client packets: publish routing with the QoS handshakes, subscriptions, and the
    gauges that count them. */
module BrokerProcessor {
  import opened Topics
  import opened Table
  import opened Listing
  import opened Fanout
  import opened TopicTrie
  import opened TrieSpec
  import opened TrieLaws
  import opened Ledgers
  import opened Servers
  import Cluster
  import Qos2

  /** The packet is routed: at QoS 0 at once, at QoS 1 after its acknowledgement, and at QoS 2 exactly if the
      traces of Qos2 forward it. */
  predicate Routed(h: Qos2.Handshakes, id: string, m: Message, ackOk: bool, now: nat) {
    || m.qos == 0
    || (m.qos == 1 && ackOk)
    || (m.qos == 2 && Qos2.Forwards(h, Qos2.Publish(id, m.messageId, now, ackOk)))
  }

  class Processor {
    const s: Server
    var qos2Msgs: map<nat, int>
    var maxQos2Msgs: int
    /** The handshakes as the traces of Qos2 have them: times in full, and the pending timers. */
    ghost var handshakes: Qos2.Handshakes

    /** The table holds the whole seconds at which each handshake was saved. */
    ghost predicate Agrees()
      reads this
    {
      && handshakes.max == maxQos2Msgs
      && qos2Msgs == map id | id in handshakes.saved :: Qos2.Unix(handshakes.saved[id])
    }

    ghost predicate Valid()
      reads this, s.brokerTopics, s.clusterTopics, s.Repr()
    {
      Agrees() && s.Valid() && this !in s.Repr()
    }

    constructor (s: Server)
      requires s.Valid()
      ensures this.s == s && Valid()
      ensures handshakes == Qos2.Handshakes(map[], multiset{}, 0)
    {
      hide Trie.Agrees, WF, Table.Ok;
      this.s := s;
      qos2Msgs, maxQos2Msgs := map[], 0;
      handshakes := Qos2.Handshakes(map[], multiset{}, 0);
    }

    // -------------------------------------------------------------- QoS 2 handshakes

    predicate IsQos2MsgFull()
      requires Agrees()
      reads this
      ensures IsQos2MsgFull() <==> handshakes.Full()
      ensures IsQos2MsgFull() <==> maxQos2Msgs != 0 && |handshakes.saved| >= maxQos2Msgs
    {
      SavedSize();
      if maxQos2Msgs == 0 then false
      else if |qos2Msgs| < maxQos2Msgs then false
      else true
    }

    lemma SavedSize()
      requires Agrees()
      ensures |qos2Msgs| == |handshakes.saved|
    {
      assert qos2Msgs.Keys == handshakes.saved.Keys;
      assert |qos2Msgs| == |qos2Msgs.Keys| && |handshakes.saved| == |handshakes.saved.Keys|;
    }

    method SaveQos2Msg(messageId: nat, now: nat) returns (ok: bool)
      requires Agrees()
      modifies this`qos2Msgs, this`handshakes
      ensures Agrees()
      ensures ok <==> messageId !in old(qos2Msgs) && (maxQos2Msgs == 0 || |old(qos2Msgs)| < maxQos2Msgs)
      ensures ok <==> old(handshakes).Accepts(messageId)
      ensures handshakes == old(handshakes).Save(messageId, now)
    {
      if IsQos2MsgFull() {
        return false;
      }
      if messageId in qos2Msgs {
        return false;
      }
      qos2Msgs := qos2Msgs[messageId := Qos2.Unix(now)];
      handshakes := handshakes.Save(messageId, now);
      ok := true;
    }

    method CheckQos2Msg(messageId: nat) returns (found: bool)
      requires Agrees()
      modifies this`qos2Msgs, this`handshakes
      ensures Agrees()
      ensures found <==> messageId in old(handshakes).saved
      ensures handshakes == old(handshakes).Release(messageId)
    {
      handshakes := handshakes.Release(messageId);
      if messageId in qos2Msgs {
        qos2Msgs := qos2Msgs - {messageId};
        found := true;
      } else {
        found := false;
      }
    }

    /** The timer that was due at `deadline` runs. */
    method ExpireQos2Msg(now: nat, ghost deadline: nat)
      requires Agrees() && Qos2.Enabled(handshakes, Qos2.Fire(deadline, now))
      modifies this`qos2Msgs, this`handshakes
      ensures Agrees()
      ensures handshakes == Qos2.Step(old(handshakes), Qos2.Fire(deadline, now))
    {
      ghost var h := handshakes;
      handshakes := Qos2.Step(h, Qos2.Fire(deadline, now));
      if |qos2Msgs| == 0 {
        return;
      }
      var rest := qos2Msgs.Keys;
      while rest != {}
        invariant rest <= h.saved.Keys && qos2Msgs.Keys <= h.saved.Keys
        invariant forall id | id in h.saved && id in rest :: id in qos2Msgs
        invariant forall id | id in h.saved && id !in rest :: id in qos2Msgs <==> !h.Expired(id, now)
        invariant handshakes == Qos2.Step(h, Qos2.Fire(deadline, now))
        invariant forall id | id in qos2Msgs :: qos2Msgs[id] == Qos2.Unix(h.saved[id])
      {
        var id :| id in rest;
        if Qos2.Unix(now) - qos2Msgs[id] >= Qos2.TIMEOUT {
          qos2Msgs := qos2Msgs - {id};
        }
        rest := rest - {id};
      }
      assert qos2Msgs.Keys == handshakes.saved.Keys;
    }

    // -------------------------------------------------------------- publish

    /** Each local client that the index finds gets one copy, and so does each interested peer. */
    method DoPublish(topic: string, packet: Message) returns (ghost locals: seq<Client>, ghost remotes: seq<Client>)
      requires s.Valid() && !Blank(topic)
      modifies s`wire, s`pubRecv, s`pubSent
      ensures s.Valid()
      ensures OneEach(locals, s.brokerTopics.table.Answers(topic))
      ensures OneEach(remotes, s.clusterTopics.table.Answers(topic))
      ensures s.wire == old(s.wire) + WriteEach(locals, Publish(packet)) + WriteEach(remotes, Publish(packet))
      ensures s.pubRecv == old(s.pubRecv) + 1
      ensures s.pubSent == old(s.pubSent) + |Cluster.Hits(s.brokerTopics.table, topic)|
    {
      hide Trie.Agrees, WF, OneEach, Firsts, Enumerates, Table.Answers, Table.Ok;
      var brokerSubs := s.brokerTopics.Subscribers(topic);
      s.pubRecv := s.pubRecv + 1;
      FirstsOneEach(brokerSubs, s.brokerTopics.table.Answers(topic));
      locals := Firsts(brokerSubs);
      s.FanOut(brokerSubs, packet, true);
      var clusterSubs := s.clusterTopics.Subscribers(topic);
      FirstsOneEach(clusterSubs, s.clusterTopics.table.Answers(topic));
      remotes := Firsts(clusterSubs);
      s.FanOut(clusterSubs, packet, false);
    }

    /** The acknowledgement that the QoS asks for, and whether the packet is to be routed; `ackOk`
        says whether the acknowledgement could be written. */
    method Acknowledge(client: Session, packet: Message, ackOk: bool, now: nat)
      returns (routed: bool, ghost acks: seq<Write>)
      requires Agrees()
      modifies this`qos2Msgs, this`handshakes, s`wire
      ensures Agrees() && s.wire == old(s.wire) + acks
      ensures handshakes == if packet.qos == 2 then old(handshakes).Save(packet.messageId, now) else old(handshakes)
      ensures packet.qos == 0 ==> routed && acks == []
      ensures packet.qos == 1 ==> routed == ackOk && acks == [Write(client.Handle(), Puback(packet.messageId))]
      ensures packet.qos == 2 ==>
                var h, id, to := old(handshakes), packet.messageId, client.Handle();
                && routed == Qos2.Forwards(h, Qos2.Publish(to.id, id, now, ackOk))
                && acks == if id !in h.saved && (h.max == 0 || |h.saved| < h.max) then [Write(to, Pubrec(id))] else []
      ensures packet.qos > 2 ==> !routed && acks == []
    {
      routed, acks := true, [];
      match packet.qos {
        case 0 =>
        case 1 =>
          s.WritePacket(client.Handle(), Puback(packet.messageId));
          acks := [Write(client.Handle(), Puback(packet.messageId))];
          if !ackOk {
            routed := false;
          }
        case 2 =>
          var saved := SaveQos2Msg(packet.messageId, now);
          if !saved {
            return false, [];
          }
          s.WritePacket(client.Handle(), Pubrec(packet.messageId));
          acks := [Write(client.Handle(), Pubrec(packet.messageId))];
          if !ackOk {
            routed := false;
          }
        case _ =>
          return false, [];
      }
    }

    /** QoS 0 is routed at once, QoS 1 after its PUBACK and QoS 2 after the PUBREC of a handshake that could be
        opened; what is routed goes to both fan-outs and may be retained, and nothing else changes anything. */
    method ProcessPublish(client: Session, packet: Message, ackOk: bool, now: nat)
      returns (ghost routed: bool, ghost acks: seq<Write>, ghost locals: seq<Client>, ghost remotes: seq<Client>)
      requires Valid() && !Blank(packet.topic)
      modifies this`qos2Msgs, this`handshakes, s`wire, s`pubRecv, s`pubSent, s`retain, s.brokerTopics.Repr()
      ensures Valid() && s.BrokerGrew()
      ensures handshakes == if packet.qos == 2 then old(handshakes).Save(packet.messageId, now) else old(handshakes)
      ensures packet.qos == 0 ==> routed && acks == []
      ensures packet.qos == 1 ==> routed == ackOk && acks == [Write(old(client.Handle()), Puback(packet.messageId))]
      ensures packet.qos == 2 ==>
                var h, id, to := old(handshakes), packet.messageId, old(client.Handle());
                && routed == Qos2.Forwards(h, Qos2.Publish(to.id, id, now, ackOk))
                && acks == if id !in h.saved && (h.max == 0 || |h.saved| < h.max) then [Write(to, Pubrec(id))] else []
      ensures packet.qos > 2 ==> !routed && acks == []
      ensures s.Books().RetainDrift() == old(s.Books()).RetainDrift()
      ensures var was := old(s.Node());
              if routed then
                && OneEach(locals, was.local.Answers(packet.topic))
                && OneEach(remotes, was.interest.Answers(packet.topic))
                && s.wire == old(s.wire) + acks
                             + WriteEach(locals, Publish(packet)) + WriteEach(remotes, Publish(packet))
                && s.pubSent == old(s.pubSent) + |Cluster.Hits(was.local, packet.topic)|
                && s.Node() == was.(local := s.Node().local) && Cluster.RetainStep(was.local, packet, s.Node().local)
                && old(s.Books()).Publishes(packet, s.Books())
              else
                s.wire == old(s.wire) + acks && s.Node() == was && s.Books() == old(s.Books())
      ensures var before, after := old(s.Node()).local, s.Node().local;
              && (routed && packet.retain && packet.payload != [] ==> after == before.Retain(packet.topic, packet))
              && (routed && packet.retain && packet.payload == [] ==> DropStep(before, packet.topic, after))
              && (!routed || !packet.retain ==> after == before)
    {
      hide Trie.Agrees, WF, OneEach, Enumerates, Table.Answers, Cluster.Hits, Cluster.RetainStep, Blank, DropStep;
      hide Ledger.Publishes, Qos2.Handshakes.Accepts, Qos2.Handshakes.Save, Qos2.Forwards, Table.Retain;
      locals, remotes := [], [];
      var goesOn;
      goesOn, acks := Acknowledge(client, packet, ackOk, now);
      routed := goesOn;
      if !goesOn {
        return;
      }
      s.BooksSound();
      locals, remotes := DoPublish(packet.topic, packet);
      ghost var books := s.Books();
      if packet.retain {
        KeepRetained(packet);
      } else {
        NotRetained(books, packet);
      }
      books.PublishCounts(packet, s.Books());
      RetainCases(books, packet, s.Books());
    }

    lemma RetainCases(books: Ledger, packet: Message, next: Ledger)
      requires books.Publishes(packet, next) && !Blank(packet.topic)
      ensures Cluster.RetainStep(books.table, packet, next.table)
      ensures packet.retain && packet.payload != [] ==> next.table == books.table.Retain(packet.topic, packet)
      ensures packet.retain && packet.payload == [] ==> DropStep(books.table, packet.topic, next.table)
      ensures !packet.retain ==> next.table == books.table
    {
      hide Blank, Cleared, KeepState, DropKeptState, KeepPath;
    }

    lemma NotRetained(books: Ledger, packet: Message)
      requires !packet.retain
      ensures books.Publishes(packet, books)
    {
    }

    method ProcessPubrel(client: Session, messageId: nat)
      requires Valid()
      modifies this`qos2Msgs, this`handshakes, s`wire
      ensures Valid()
      ensures handshakes == old(handshakes).Release(messageId)
      ensures s.wire == old(s.wire) + [Write(client.Handle(), Pubcomp(messageId))]
    {
      hide Trie.Agrees, WF;
      var found := CheckQos2Msg(messageId);
      s.WritePacket(client.Handle(), Pubcomp(messageId));
    }

    /** The retained part of a publish, with its gauge. */
    method KeepRetained(packet: Message)
      requires s.Valid() && !Blank(packet.topic) && packet.retain
      modifies s`retain, s.brokerTopics.Repr()
      ensures s.Valid() && s.BrokerGrew()
      ensures s.Node() == old(s.Node()).(local := s.Node().local)
      ensures old(s.Books()).Publishes(packet, s.Books())
    {
      hide Trie.Agrees, WF, Blank, KeepPath, Levels, Table.Retain, Table.DropRetained, Ledger.Publishes, KeepState;
      hide DropKeptState, Cleared;
      ghost var books := s.Books();
      if |packet.payload| > 0 {
        var exist := s.brokerTopics.AddRetain(packet.topic, packet);
        if !exist {
          s.retain := s.retain + 1;
        }
        Retained(books, packet, s.Books());
      } else {
        var exist, key := s.brokerTopics.RemoveRetain(packet.topic);
        if exist {
          s.retain := s.retain - 1;
        }
        Dropped(books, packet, exist, key, s.Books());
      }
    }

    lemma Retained(books: Ledger, packet: Message, next: Ledger)
      requires packet.retain && packet.payload != [] && next == books.Keep(packet)
      ensures books.Publishes(packet, next)
    {
    }

    lemma Dropped(books: Ledger, packet: Message, exist: bool, key: string, next: Ledger)
      requires packet.retain && packet.payload == []
      requires exist <==> exists k :: Cleared(books.table, packet.topic, k)
      requires exist ==> Cleared(books.table, packet.topic, key) && next == books.Clear(key)
      requires !exist ==> next == books
      ensures books.Publishes(packet, next)
    {
      hide Cleared;
    }

    // -------------------------------------------------------------- subscriptions

    /** Subscribes in the index, and counts the pair if it is new. */
    method Enter(client: Session, topic: string)
      requires s.Valid() && client !in s.Repr()
      modifies s`subCount, s.brokerTopics.Repr()
      ensures s.Valid() && s.BrokerGrew()
      ensures s.Node() == old(s.Node()).(local := s.Node().local)
      ensures s.Books() == old(s.Books()).Enter(topic, client.Handle())
    {
      hide Trie.Agrees, WF, Table.Subscribe, SubscribeState;
      var exist := s.brokerTopics.Subscribe(topic, client.id, client.Handle());
      if !exist {
        s.subCount := s.subCount + 1;
      }
    }

    /** One topic of a SUBSCRIBE. */
    method SubscribeOne(client: Session, topic: string) returns (ghost ms: seq<Message>)
      requires s.Valid() && client !in s.Repr() && !Blank(topic)
      modifies s`wire, s`subCount, client`topics, s.brokerTopics.Repr()
      ensures s.Valid() && s.BrokerGrew()
      ensures s.Node() == old(s.Node()).(local := s.Node().local)
      ensures s.Books() == old(s.Books()).Enter(topic, client.Handle())
      ensures client.topics.Keys == old(client.topics.Keys) + {topic}
      ensures Cluster.ResendsOne(s.Books().table, topic, ms)
      ensures s.wire == old(s.wire) + WriteAll(client.Handle(), ms)
    {
      hide Trie.Agrees, WF, Blank, Ledger.Enter, Enumerates, Table.RetainAnswers, WriteAll;
      var exist := client.AddTopic(topic, client.id);
      Enter(client, topic);
      var retains := s.brokerTopics.SearchRetain(topic);
      ms := retains;
      s.Resend(client.Handle(), retains);
    }

    method SubscribeEach(client: Session, topics: seq<string>) returns (ghost ms: seq<Message>)
      requires s.Valid() && client !in s.Repr() && forall f | f in topics :: !Blank(f)
      modifies s`wire, s`subCount, client`topics, s.brokerTopics.Repr()
      ensures s.Valid() && s.BrokerGrew()
      ensures s.Node() == old(s.Node()).(local := s.Node().local)
      ensures s.Books() == old(s.Books()).EnterAll(topics, client.Handle())
      ensures client.topics.Keys == old(client.topics.Keys) + SetOf(topics)
      ensures Cluster.Resends(old(s.Books()).table, topics, ms)
      ensures s.wire == old(s.wire) + WriteAll(client.Handle(), ms)
    {
      hide Server.Valid, Trie.Repr, Server.Node, Server.Books, SetOf, Ledger.Enter, Ledger.EnterAll, Cluster.Resends;
      hide Cluster.ResendsOne, WriteAll, Blank;
      ghost var books := s.Books();
      ghost var h := client.Handle();
      ms := [];
      NothingYet(books.table, h);
      NobodyEntered(books, h);
      assert topics[..0] == [];
      for i := 0 to |topics|
        invariant s.Valid() && client !in s.Repr() && h == client.Handle() && s.BrokerGrew()
        invariant s.Node() == old(s.Node()).(local := s.Node().local)
        invariant s.Books() == books.EnterAll(topics[..i], h)
        invariant client.topics.Keys == old(client.topics.Keys) + SetOf(topics[..i])
        invariant Cluster.Resends(books.table, topics[..i], ms)
        invariant s.wire == old(s.wire) + WriteAll(h, ms)
      {
        ghost var more := SubscribeOne(client, topics[i]);
        EnteredMore(books, topics, i, h, more);
        ResentMore(books.table, topics[..i], topics[i], h, ms, more);
        NextTopic(topics, i);
        ms := ms + more;
      }
      assert topics[..|topics|] == topics;
    }

    lemma NobodyEntered(books: Ledger, h: Client)
      ensures books.EnterAll([], h) == books
    {
    }

    /** One topic more; subscribing leaves the retained messages alone. */
    lemma EnteredMore(books: Ledger, topics: seq<string>, i: nat, h: Client, more: seq<Message>)
      requires i < |topics|
      requires Cluster.ResendsOne(books.EnterAll(topics[..i], h).Enter(topics[i], h).table, topics[i], more)
      ensures books.EnterAll(topics[..i + 1], h) == books.EnterAll(topics[..i], h).Enter(topics[i], h)
      ensures Cluster.ResendsOne(books.table, topics[i], more)
    {
      hide Enumerates, SubscribeState, HasLeaf;
      NextTopic(topics, i);
      assert Parent(topics[..i + 1]) == topics[..i];
      EnteredRetains(books, topics[..i], h);
      var t := books.EnterAll(topics[..i], h).Enter(topics[i], h).table;
      if !Blank(topics[i]) {
        assert t.RetainAnswers(topics[i]) == books.table.RetainAnswers(topics[i]);
      }
    }

    lemma {:induction false} EnteredRetains(books: Ledger, topics: seq<string>, h: Client)
      ensures books.EnterAll(topics, h).table.retained == books.table.retained
    {
      if topics != [] {
        hide SubscribeState;
        EnteredRetains(books, Parent(topics), h);
      }
    }

    method ProcessSubscribe(client: Session, messageId: nat, topics: seq<string>)
      returns (ghost ms: seq<Message>, ghost peers: seq<Client>)
      requires s.Valid() && client !in s.Repr() && forall f | f in topics :: !Blank(f)
      modifies s`wire, s`subCount, client`topics, s.brokerTopics.Repr()
      ensures s.Valid() && s.BrokerGrew()
      ensures s.Books() == old(s.Books()).EnterAll(topics, client.Handle())
      ensures s.Books().SubDrift() == old(s.Books()).SubDrift()
      ensures s.Node() == old(s.Node()).(local := Cluster.SubscribeAll(old(s.Node()).local, topics, client.Handle()))
      ensures client.topics.Keys == old(client.topics.Keys) + SetOf(topics)
      ensures Cluster.Resends(old(s.Node()).local, topics, ms) && Enumerates(peers, s.clusters)
      ensures s.wire == old(s.wire) + [Write(client.Handle(), Suback(messageId))] + WriteAll(client.Handle(), ms)
                        + WriteEach(peers, Subscribe(topics))
    {
      hide Trie.Valid, SetOf, Ledger.EnterAll, Cluster.SubscribeAll, Cluster.Resends, Enumerates, WriteAll, WriteEach;
      hide Blank, Ledger.SubDrift, Ledger.Sound, Trie.Value;
      s.BooksSound();
      ghost var books := s.Books();
      ms := SubscribeAcked(client, messageId, topics);
      books.EnterAllCounts(topics, client.Handle());
      peers := s.Broadcast(Subscribe(topics));
    }

    /** The acknowledgement and the topics. */
    method SubscribeAcked(client: Session, messageId: nat, topics: seq<string>) returns (ghost ms: seq<Message>)
      requires s.Valid() && client !in s.Repr() && forall f | f in topics :: !Blank(f)
      modifies s`wire, s`subCount, client`topics, s.brokerTopics.Repr()
      ensures s.Valid() && s.BrokerGrew()
      ensures s.Node() == old(s.Node()).(local := s.Node().local)
      ensures s.Books() == old(s.Books()).EnterAll(topics, client.Handle())
      ensures client.topics.Keys == old(client.topics.Keys) + SetOf(topics)
      ensures Cluster.Resends(old(s.Books()).table, topics, ms)
      ensures s.wire == old(s.wire) + [Write(client.Handle(), Suback(messageId))] + WriteAll(client.Handle(), ms)
    {
      hide Trie.Valid, SetOf, Ledger.EnterAll, Cluster.Resends, WriteAll, Blank;
      s.WritePacket(client.Handle(), Suback(messageId));
      ms := SubscribeEach(client, topics);
    }

    /** Unsubscribes in the index. The count goes down whenever the filter had a leaf, which is one too
        far exactly when this client was not on it. */
    method Leave(id: string, topic: string) returns (exist: bool)
      requires s.Valid()
      modifies s`subCount, s.brokerTopics.Repr()
      ensures s.Valid() && s.BrokerGrew()
      ensures s.Node() == old(s.Node()).(local := s.Node().local)
      ensures exist <==> old(s.Books()).Found(topic)
      ensures s.Books() == old(s.Books()).Leave(topic, id)
      ensures s.Books().SubDrift() == old(s.Books()).SubDrift() - if old(s.Books()).Stray(topic, id) then 1 else 0
    {
      hide Trie.Agrees, WF, Table.Unsubscribe, UnsubscribeState, Table.Removable, HasLeaf, Ledger.Stray, Wild;
      s.BooksSound();
      s.Books().LeaveCounts(topic, id);
      exist := s.brokerTopics.Unsubscribe(topic, id);
      if exist {
        s.subCount := s.subCount - 1;
      }
    }

    /** One topic of an UNSUBSCRIBE or of a session that ends. */
    method UnsubscribeOne(client: Session, topic: string)
      requires s.Valid() && client !in s.Repr()
      modifies s`subCount, client`topics, s.brokerTopics.Repr()
      ensures s.Valid() && s.BrokerGrew()
      ensures s.Node() == old(s.Node()).(local := s.Node().local)
      ensures s.Books() == old(s.Books()).Leave(topic, client.id)
      ensures client.topics == old(client.topics) - {topic}
    {
      hide Trie.Valid, Ledger.Leave, Ledger.Found, Ledger.Stray;
      var ok := client.RemoveTopic(topic);
      var exist := Leave(client.id, topic);
    }

    method UnsubscribeEach(client: Session, topics: seq<string>)
      requires s.Valid() && client !in s.Repr()
      modifies s`subCount, client`topics, s.brokerTopics.Repr()
      ensures s.Valid() && s.BrokerGrew()
      ensures s.Node() == old(s.Node()).(local := s.Node().local)
      ensures s.Books() == old(s.Books()).LeaveAll(topics, client.id)
      ensures client.topics == old(client.topics) - SetOf(topics)
    {
      hide Server.Valid, Trie.Repr, Server.Node, Server.Books, SetOf, Ledger.Leave, Ledger.LeaveAll;
      ghost var books := s.Books();
      NobodyLeft(books, client.id);
      SetOfMore([], "");
      assert topics[..0] == [];
      for i := 0 to |topics|
        invariant s.Valid() && client !in s.Repr() && client.id == old(client.id) && s.BrokerGrew()
        invariant s.Node() == old(s.Node()).(local := s.Node().local)
        invariant s.Books() == books.LeaveAll(topics[..i], client.id)
        invariant client.topics == old(client.topics) - SetOf(topics[..i])
      {
        UnsubscribeOne(client, topics[i]);
        LeftMore(books, topics[..i], topics[i], client.id);
        SetOfMore(topics[..i], topics[i]);
        NextTopic(topics, i);
      }
      assert topics[..|topics|] == topics;
    }

    lemma NobodyLeft(books: Ledger, id: string)
      ensures books.LeaveAll([], id) == books
    {
    }

    lemma LeftMore(books: Ledger, topics: seq<string>, topic: string, id: string)
      ensures books.LeaveAll(topics + [topic], id) == books.LeaveAll(topics, id).Leave(topic, id)
    {
      hide Ledger.Leave;
      assert Parent(topics + [topic]) == topics;
    }

    method ProcessUnSubscribe(client: Session, messageId: nat, topics: seq<string>)
      returns (ghost peers: seq<Client>)
      requires s.Valid() && client !in s.Repr()
      modifies s`wire, s`subCount, client`topics, s.brokerTopics.Repr()
      ensures s.Valid() && s.BrokerGrew()
      ensures s.Books() == old(s.Books()).LeaveAll(topics, client.id)
      ensures s.Books().SubDrift() == old(s.Books()).SubDrift() - old(s.Books()).Strays(topics, client.id)
      ensures s.Node() == old(s.Node()).(local := Cluster.UnsubscribeAll(old(s.Node()).local, topics, client.id))
      ensures client.topics == old(client.topics) - SetOf(topics)
      ensures Enumerates(peers, s.clusters)
      ensures s.wire == old(s.wire) + [Write(client.Handle(), Unsuback(messageId))]
                        + WriteEach(peers, Unsubscribe(topics))
    {
      hide Trie.Valid, SetOf, Ledger.LeaveAll, Ledger.Strays, Cluster.UnsubscribeAll, Enumerates, WriteEach;
      hide Ledger.SubDrift, Ledger.Sound, Trie.Value;
      s.BooksSound();
      ghost var books := s.Books();
      UnsubscribeAcked(client, messageId, topics);
      books.LeaveAllCounts(topics, client.id);
      peers := s.Broadcast(Unsubscribe(topics));
    }

    /** The acknowledgement and the topics. */
    method UnsubscribeAcked(client: Session, messageId: nat, topics: seq<string>)
      requires s.Valid() && client !in s.Repr()
      modifies s`wire, s`subCount, client`topics, s.brokerTopics.Repr()
      ensures s.Valid() && s.BrokerGrew()
      ensures s.Node() == old(s.Node()).(local := s.Node().local)
      ensures s.Books() == old(s.Books()).LeaveAll(topics, client.id)
      ensures client.topics == old(client.topics) - SetOf(topics)
      ensures s.wire == old(s.wire) + [Write(client.Handle(), Unsuback(messageId))]
    {
      hide Trie.Valid, SetOf, Ledger.LeaveAll;
      s.WritePacket(client.Handle(), Unsuback(messageId));
      UnsubscribeEach(client, topics);
    }

    /** Walks the session's topics, in some order, while taking them out. */
    method LeaveEach(client: Session) returns (ghost order: seq<string>)
      requires s.Valid() && client !in s.Repr()
      modifies s`subCount, client`topics, s.brokerTopics.Repr()
      ensures s.Valid() && s.BrokerGrew()
      ensures client.topics == map[]
      ensures Distinct(order) && SetOf(order) == old(client.topics).Keys
      ensures s.Node() == old(s.Node()).(local := s.Node().local)
      ensures s.Books() == old(s.Books()).LeaveAll(order, client.id)
    {
      hide Server.Valid, Trie.Repr, Server.Node, Server.Books, Ledger.Leave, Ledger.LeaveAll, SetOf, Distinct;
      ghost var books := s.Books();
      order := [];
      NobodyLeft(books, client.id);
      SetOfMore([], "");
      NothingTwice();
      var rest := client.topics.Keys;
      while rest != {}
        invariant s.Valid() && client !in s.Repr() && client.id == old(client.id) && s.BrokerGrew()
        invariant rest == client.topics.Keys && Distinct(order)
        invariant SetOf(order) + rest == old(client.topics).Keys && SetOf(order) !! rest
        invariant s.Node() == old(s.Node()).(local := s.Node().local)
        invariant s.Books() == books.LeaveAll(order, client.id)
      {
        var topic :| topic in rest;
        UnsubscribeOne(client, topic);
        LeftMore(books, order, topic, client.id);
        SetOfMore(order, topic);
        StillDistinct(order, topic);
        order := order + [topic];
        rest := rest - {topic};
      }
    }

    lemma NothingTwice()
      ensures Distinct<string>([])
    {
    }

    lemma StillDistinct(order: seq<string>, topic: string)
      requires Distinct(order) && topic !in SetOf(order)
      ensures Distinct(order + [topic])
    {
      assert forall i | 0 <= i < |order| :: order[i] in order;
    }

    /** The end of a session, graceful or not; the peers are not told. */
    method ProcessDisconnect(client: Session) returns (ghost order: seq<string>)
      requires s.Valid() && client !in s.Repr()
      modifies s`subCount, s`clientsConnected, s`clientsDisconnected, client`topics, client`open, s.brokerTopics.Repr()
      ensures s.Valid() && s.BrokerGrew()
      ensures !client.open && client.topics == map[]
      ensures Distinct(order) && SetOf(order) == old(client.topics).Keys
      ensures s.Books() == old(s.Books()).LeaveAll(order, client.id)
      ensures s.Books().SubDrift() == old(s.Books()).SubDrift() - old(s.Books()).Strays(order, client.id)
      ensures s.Node() == old(s.Node()).(local := Cluster.UnsubscribeAll(old(s.Node()).local, order, client.id))
      ensures s.clientsConnected == old(s.clientsConnected) - 1
      ensures s.clientsDisconnected == old(s.clientsDisconnected) + 1
    {
      hide Trie.Valid, Cluster.UnsubscribeAll, Ledger.LeaveAll, Ledger.Strays, Distinct, SetOf;
      client.Close();
      s.BooksSound();
      ghost var books := s.Books();
      order := LeaveEach(client);
      books.LeaveAllCounts(order, client.id);
      s.clientsConnected := s.clientsConnected - 1;
      s.clientsDisconnected := s.clientsDisconnected + 1;
    }
  }
}
