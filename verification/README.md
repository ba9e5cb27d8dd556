# Verification of the amqtt broker

This project models the parts of the amqtt MQTT 3.1.1 broker where its state and its recursion are, and
proves what they are for. `dafny verify dfyconfig.toml` checks all of it (Dafny 4.11, its default limits).

## What is modelled

- **Topic trie.** `TopicTrie.dfy` has the source's classes `Leaf`, `Branch` and `Trie` with parent pointers, maps of
  leaves and children updated in place, and the flat `foliage` map. `Table.dfy` says what they are an index of: live
  (filter, client id) pairs, the copies that a filter ending in `#` leaves one branch up, retained messages by topic,
  and the filters that `RangeTopics` enumerates. Every public method is proved to turn the old table into the new one
  and to answer from it. `Matching.dfy` relates the three tree walks to section 4.7.1 of MQTT 3.1.1, and `Filters.dfy`
  says what subscribing, publishing, unsubscribing and retaining mean for the strings themselves; `TrieSpec.dfy`,
  `TrieLaws.dfy` and `TrieSearch.dfy` are the trie as a value, between objects and table. `History.dfy` reads answers
  off whole histories of calls.
- **One node.** `Fanout.dfy` (the deduplication by client id), `Servers.dfy` (shared state and sessions),
  `BrokerProcessor.dfy` and `ClusterProcessor.dfy` have the
  handlers of client packets and of peer packets, with their loops. `wire` is the sequence of all `WritePacket` calls.
  `Ledgers.dfy` is the clients' index with the gauges that the handlers' code keeps beside it; `Gauges.dfy` follows
  `SubCount` and `Retain` over runs and calls the handlers on any list of requests.
- **Cluster.** `Cluster.dfy` is a step system of any number of nodes with one FIFO channel per ordered pair. A publish
  is written to connections: for each client id, and for each peer, the fan-out picks one of the connections that the
  index finds, and what is written to a connection that a peer left behind reaches no channel. `NodeSteps.dfy` proves,
  from what a handler writes, that its call is one of the steps: each channel gains exactly the packets written to that
  peer's current connection, and the publishes written to peers' and to own clients' connections are those the step
  counts. `NodeRuns.dfy` calls the handlers on servers that are nodes of a running cluster, and counts the `WritePacket`
  calls of whole runs. `Coverage.dfy` proves interest coverage, `Renewal.dfy` that a returned peer's replay renews all
  that was noted for it, `Delivery.dfy` at-most-once and exactly-once delivery by connection and its converse,
  `RetainedCopies.dfy` when a node drops its copy of a retained message and when the last copy goes, `Replay.dfy` what a
  new peer is told, and `NodeHistory.dfy` that a node's table is the one its history of calls makes, all over all runs.
  `Scenes.dfy` has runs in which promises fail.
- **QoS 2.** `Qos2.dfy` has the handshake table over traces of all clients' publishes and PUBRELs and of timers; the
  handler methods refine it, storing whole seconds where the traces have nanoseconds.
- **Wire codec.** `Wire.dfy` (Go's reader semantics, words, length-prefixed fields, the variable-length integer),
  `Packets.dfy` (packets as values, parsing and printing, the stream) and `PacketCodec.dfy` (the packet structs with
  `Write` and `Unpack`, and `ReadPacket`). `Samples.dfy` has packets of the standard byte for byte.

Iterating over a Go map is a loop that picks any remaining key, so everything holds for every iteration order. Where the
source's loop ranges over a map and only merges another map into it (trie/branch.go:184-188), the merge is one step.

## What the code does that a reader may not expect

Each of these is proved below; the model follows the code.

- A filter `p/#` files a second leaf on the branch of `p`, and `Unsubscribe` does not take it back. The topic `p` finds
  the client from then on (`Table.OutlivedCopy`). Answers are exact if and only if no such copy answers the
  topic (`Table.Table.AnswersAreMatches`, over histories `History.HistoryAnswers`).
- Such a copy keeps the connection it had. The fan-out writes to one connection of each client id, whichever the index
  returns first, so a client that comes back may be skipped for the connection it had before: `Scenes.DisplacingRun` is
  such a run and `Scenes.NeverServed` shows that the live connection never gets the publish. A connection that holds a
  matching filter is sure to be written to if and only if no other connection of its client id answers the topic
  (`Delivery.AlwaysServed`, as a step `Delivery.PublishServes`). For a client with one session that means no copy from
  an earlier one (`Delivery.SessionServed`); in terms of the calls made, `History.HistoryServed` and, over runs,
  `NodeHistory.RunServed`.
- A peer's copies outlive it in the same way, and a publish may go to the connection it left. Its replay repairs that:
  once the replay has been taken, no entry names an old connection (`Renewal.NoneStale`). Until then a peer is sure to be
  forwarded to if and only if its current connection answers and no old one does (`RetainedCopies.ForwardedExactly`).
- A wildcard filter with white space around a level in front of `#` can be subscribed but never unsubscribed
  (`Matching.ScanReaches`). Wildcard filters stay in the foliage, and so in the replay to new peers, for good, also when
  nobody holds them any more (`History.TopicsMean`, over runs of the cluster `Replay.ReplayNames`).
- A blank first level is skipped: `/+` finds the topic `a`, which section 4.7.1 rules out, and `+/a` does not find `/a`,
  which it asks for (`Filters.SlashGap`, in general `Filters.MatchesAcrossSlash`). If neither or both begin with a slash,
  matching is that of section 4.7.1 (`Filters.MatchesAsSpelled`, `Filters.MatchesAfterSlash`).
- Retained search leaves out one case of section 4.7.1, the messages on the parent level of a `#`, and no other
  (`Matching.RetainedSearchGap`, exactly when: `Table.Table.RetainAnswersExact`; for example `Table.HashParentExists`).
- `/a` and `a` are one branch for retained messages, and clearing one may clear the other (`Table.AliasClears`); a
  topic with white space around a level is not cleared by its own name. Clearing a topic is sure to clear its own message
  if and only if no level of it carries white space and no other retained topic has its levels
  (`Table.DropsOwnByLevels`).
- A QoS 2 id can be accepted again after 19.1 seconds, because the saving time is rounded down and every timer sweeps the
  whole table (`Qos2.EarlyExpiry`, exactly when: `Qos2.EarlyExactlyWhen`); more than 19 seconds always pass
  (`Qos2.ForwardedOnce`).
- A broker has one handshake table for all its clients, keyed by the packet identifier alone (broker/broker.go:37,
  broker/processor.go:18-22). A PUBREL of one client closes another's handshake, and a repeated publish is then forwarded
  again (`Qos2.ForwardedTwice`, exactly when: `Qos2.RepeatedExactly`). While one client's handshake is open, a publish of
  another with the same identifier is dropped without a PUBREC (`Qos2.OtherDropped`,
  `BrokerProcessor.Processor.ProcessPublish`).
- An UNSUBSCRIBE is forwarded to the peers although another local client still holds the filter (exactly when this
  breaks coverage: `Coverage.UnsubscribeKeeps`). The peers then stop sending what that client should get:
  `Scenes.MissingRun` is such a run and `Scenes.NeverDelivered` shows that the publish never arrives, however the run
  goes on. In general a connection at another node has a matching publish if and only if the publish was written to its
  node's current connection (`Delivery.DeliveredExactly`).
- The comment at cluster/processor.go:41-42 promises one retained copy per topic in the cluster. There may be two: after
  `Scenes.TwoCopies` two linked nodes with drained channels retain a message each. A node keeps its copy if and only if
  the publish was not forwarded to it, as long as no other publish or replay bears on the topic meanwhile
  (`RetainedCopies.CopyLeftExactly`); and the `Retain` gauge is not told of a dropped copy
  (`ClusterProcessor.Processor.ProcessPublish`).
- There may also be none: a replayed retained message clears the receiver's copy like any other publish. In
  `Scenes.RetainingRun` each node subscribes the topic, each replays its message to the other, and both messages are gone
  (`Scenes.NoneLeft`). The last copy goes exactly when its node handles a clearing publish of an own client or any
  retained publish of a peer (`RetainedCopies.LastCopyExactly`).
- `Unsubscribe` answers true whenever the filter has a leaf, so `SubCount` goes down for clients that were never
  subscribed (`Gauges.StrayHappens`; by how much, for whole packets: `Ledgers.Ledger.LeaveAllCounts`, over whole runs:
  `Gauges.RunCounts`, and exactly when it stays right: `Gauges.CountIsRight`).
- A peer's topics are synchronised once for each configuration entry equal to its name, and the connection is looked up
  under the trimmed name: a peer that is not configured, or whose name has white space around it, is told nothing
  (`ClusterProcessor.Processor.SyncTopics`).
- UNSUBSCRIBE parsing ends without an error at an empty topic and at the end of the body, and a body cut off inside its
  last topic is accepted with zero bytes in place of the missing ones (`Packets.UnsubscribePads`). An accepted body is
  what its topics are written as if and only if it is an id and whole non-empty fields (`Packets.UnsubscribeInverse`).
- The length prefix of a field is cut to 16 bits, so a longer field is not read back (`Wire.GetPutField`).
- The packet that `ReadPacket` returns has a `PacketSize` without its body (`PacketCodec.ReadPacket`).
- packets/packets_test.go:230 still calls `decodeLength` with an older signature; the model follows the function.

## Model

| member | source | states |
|---|---|---|
| Topics.SplitThenJoin | trie/trie.go:32 | splitting a topic into levels loses nothing, and no level holds a slash |
| Topics.TrimSpaceExact | trie/branch.go:37 | trimming takes away all white space at the two ends and nothing else |
| Topics.LevelsOf | trie/trie.go:33-36 | the levels are what the slashes separate, without the first one if that is blank |
| Topics.WildHasLevels | trie/trie.go:29-37 | a wildcard filter always has a level left after the blank first one is skipped, so insertion never runs past the levels |
| Topics.WildPathShape | trie/branch.go:36-57 | the path a wildcard filter is filed under is non-empty, has `#` only at its end, and is the trimmed levels unless cut after a `#` |
| Matching.SearchIsMatching | trie/branch.go:177-192 | for every topic, a filter matches by section 4.7.1 if and only if the search finds its own leaf or its copy one branch up, and never both |
| Matching.MatchesByLevel | trie/branch.go:177-192 | matching level by level: without `#`, as many levels, each equal or under a `+` |
| Matching.HashMatchesByLevel | trie/branch.go:177-192 | with a `#`, what stands in front of it matches as many first levels, and any number may follow, none included |
| Matching.RetainedSearchGap | trie/branch.go:159-175 | matching by section 4.7.1 is retained search plus exactly one case, messages on the parent level of a trailing `#`, and never both |
| Matching.RetainedSearchExact | trie/branch.go:159-175 | for any levels of a filter, retained search decides as section 4.7.1 does if and only if the names are not the parent level of the filter's first `#` |
| Matching.RetainHitsByLevel | trie/branch.go:159-175 | retained search level by level: without `#`, as many levels, each equal or under a `+` |
| Matching.RetainHashByLevel | trie/branch.go:159-175 | with a `#`, what stands in front of it matches as many first levels, and at least one follows |
| Table.Table.RetainAnswersExact | trie/trie.go:135-148 | a filter is sent exactly the retained messages that section 4.7.1 gives it if and only if none is retained on the parent level of a `#` in it |
| Table.HashParentExists | trie/branch.go:159-175 | there is such a case: `a/#` matches `a` and is not sent its message |
| Matching.ScanReaches | trie/branch.go:92-109 | the removal scan reaches the leaf of its own filter if and only if no level in front of `#` had white space to trim |
| Matching.ScanStops | trie/branch.go:92-109 | where the scan removes a leaf, no earlier branch was `#` and all levels were used up unless it stands on `#` |
| Table.Table.AnswersAreMatches | trie/trie.go:75-106 | a topic's answers are the live pairs whose filter matches it by section 4.7 if and only if no outlived `#` copy answers it |
| Table.Table.AnsweredOnce | trie/trie.go:97-104 | no pair is found through both its leaf and its copy |
| Table.Table.UnsubscribeExact | trie/branch.go:72-109 | an unsubscribe that reaches its leaf changes no other pair's answers and no retained message; the pair itself can then only be found through its copy, on the parent level of the `#` and never below it |
| Matching.SearchStops | trie/branch.go:177-192 | a search that does not end on a `#` has matched the topic level by level |
| Table.Table.UnsubscribeOk | trie/trie.go:42-69 | the table's invariant (live pairs are enumerated by RangeTopics, `#` pairs have copies) survives an unsubscribe |
| Table.OutlivedCopy | trie/branch.go:46-50 | subscribing and unsubscribing a `#` filter leaves its copy answering every topic on the parent level |
| Table.OutlivedCopyExists | trie/branch.go:92-109 | such filters and topics exist: `a/#` and `a` |
| Table.DropsOwnExactly | trie/branch.go:129-144 | whatever leaf the code picks, clearing a topic clears its own message if and only if no other retained topic is filed where its levels lead, and it is itself if it is retained at all |
| Table.DropsOwnByLevels | trie/branch.go:129-144 | for a retained topic: if and only if its levels carry no white space and no other retained topic has them |
| Table.AliasClears | trie/branch.go:131-135 | clearing `a` may clear the message retained for `/a` |
| Filters.MatchesAsSpelled | trie/trie.go:21-106 | a filter without white space around its levels matches a topic exactly by section 4.7.1 on what the slashes separate, if neither begins with a blank level |
| Filters.MatchesAfterSlash | trie/trie.go:33-36 | and also if both begin with an empty one |
| Filters.WildMatchesTrimmed | trie/branch.go:36-57 | a wildcard filter with white space is compared without it, the topic as it is |
| Filters.MatchesAcrossSlash | trie/trie.go:91-95 | if only one begins with an empty level, a wildcard filter matches as if it did not, and any other filter does not match |
| Filters.SlashGap | trie/trie.go:91-95 | so `/+` matches `a` and `+/a` does not match `/a`, against section 4.7.1 |
| Filters.WildTopicFindsNobody | trie/trie.go:77-80 | a topic with a wildcard character finds nobody |
| Filters.AnswersAsSpelled | trie/trie.go:75-106 | whoever holds a filter is among the answers to exactly the topics that match it by section 4.7.1 on the strings' own levels, with the connection it was subscribed on |
| Filters.RemovableAsSpelled | trie/branch.go:92-109 | an unsubscribe takes a filter back if and only if it has no wildcard character or no white space in front of its first `#` |
| Filters.LeftAsSpelled | trie/branch.go:46-50 | after that the client is found through this filter only by its `#` copy, by exactly the topics that match the levels in front of the `#` |
| Filters.RetainedAsSpelled | trie/trie.go:108-148 | a filter is sent the message retained for a topic if and only if retained search matches the filter's levels with the topic's, taken without white space |
| Filters.RetainedAfterSlash | trie/trie.go:140-143 | and with a leading slash in both, if and only if it matches what follows |
| Filters.ClearedAsSpelled | trie/trie.go:119-133 | clearing a topic reaches a message if and only if that message's levels without white space are the topic's levels |
| TrieSpec.StandsForOne | trie/trie.go:15-19 | a state of the trie stands for one table only |
| TrieLaws.SubscribeLaw | trie/trie.go:21-40 | the pure trie after a subscribe is well built and stands for the table with that pair added and nothing else changed |
| TrieLaws.UnsubscribeLaw | trie/trie.go:42-69 | the pure trie after an unsubscribe, upward pruning included, stands for the table without just that pair |
| TrieLaws.KeepLaw | trie/trie.go:108-117 | a retained publish sets one entry of the retained messages and no other |
| TrieLaws.DropKeptLaw | trie/trie.go:119-133 | clearing one leaf's message takes one entry away and no other |
| TrieLaws.PruneKeeps | trie/branch.go:84-109 | the cascade of CheckClean restores that no branch but the root is empty, keeps every branch's ancestors, and drops no leaf |
| TrieSearch.SearchVia | trie/branch.go:177-192 | the leaves found under a branch are its own or those found under its children, level by level |
| TrieSearch.RetainsByTopic | trie/branch.go:146-175 | listing the branches that a retained search visits lists the table's retained answers |
| TrieSearch.RootScan | trie/trie.go:51-56 | the scan of the root's children finds the filter's leaf exactly if it can be reached |
| TopicTrie.Leaf.AddSubscriber | trie/leaf.go:38-44 | the subscriber map gains the entry; the result says whether the id was there |
| TopicTrie.Leaf.SetRetain | trie/leaf.go:21-28 | the retained slot holds the message; the result says whether one was there |
| TopicTrie.Leaf.RemoveRetain | trie/leaf.go:30-36 | the retained slot is empty; the result says whether it was not |
| TopicTrie.Branch.NeverEmpty | trie/branch.go:84-90 | in a valid trie every branch but the root has a leaf or a child, is its parent's child of that name, and keeps only leaves that belong on its path |
| TopicTrie.Branch.AddBranch | trie/branch.go:36-57 | the linked tree becomes the specified one: missing branches made, the leaf filed at the end of the trimmed path, the `#` copy on the parent |
| TopicTrie.Branch.AddLeaf | trie/branch.go:59-70 | the branch's leaves gain the subscriber, the result says whether the id was there, everything else is unchanged |
| TopicTrie.Branch.RemoveLeaf | trie/branch.go:72-82 | the id leaves the filter's leaf, an emptied leaf without a message goes, and a missing leaf changes nothing |
| TopicTrie.Branch.CheckClean | trie/branch.go:84-90 | the branch is unlinked from its parent exactly if it has neither leaves nor children |
| TopicTrie.Branch.ScanRemoveLeaf | trie/branch.go:92-109 | succeeds if and only if the scan can reach the filter's leaf, and then the tree is the specified pruned one; otherwise nothing changed |
| TopicTrie.Branch.AddRetain | trie/branch.go:111-127 | the message is set on the leaf at the end of the trimmed path, made with its branches if missing |
| TopicTrie.Branch.RemoveRetain | trie/branch.go:129-144 | clears one retained leaf of the branch that the levels lead to if there is one, else changes nothing |
| TopicTrie.Branch.GetRestRetain | trie/branch.go:146-157 | lists each message retained at or below the branch exactly once |
| TopicTrie.Branch.SearchRetain | trie/branch.go:159-175 | lists each message retained on a branch that the filter's levels match exactly once, and no other |
| TopicTrie.Branch.SearchLeaves | trie/branch.go:177-192 | returns a leaf for every filter with a branch that matches the levels, and only leaves of such branches |
| TopicTrie.Trie.constructor | trie/trie.go:8-13 | a new trie is valid and stands for the empty table |
| TopicTrie.Trie.Subscribe | trie/trie.go:21-40 | refines the table's subscribe; the result says whether the pair was live |
| TopicTrie.Trie.Unsubscribe | trie/trie.go:42-69 | refines the table's unsubscribe; the result is true exactly if the filter can be scanned and has a leaf |
| TopicTrie.Trie.RangeTopics | trie/trie.go:71-73 | enumerates the foliage filters, each once |
| TopicTrie.Trie.Subscribers | trie/trie.go:75-106 | lists the table's answers: each pair that answers the topic exactly once, with its connection, and no other |
| TopicTrie.Trie.AddRetain | trie/trie.go:108-117 | refines setting the topic's retained message; the result says whether it had one |
| TopicTrie.Trie.RemoveRetain | trie/trie.go:119-133 | clears the message of one topic filed on these levels, true exactly if there is one; every other message and pair stays |
| TopicTrie.Trie.SearchRetain | trie/trie.go:135-148 | lists exactly the retained messages whose branch the filter's levels match, each once, whatever subscriptions share the tree |
| History.RunMeans | trie/trie.go:21-69 | after any history, a pair is live if and only if its last effective call was a subscribe, with the connection of that call; its copy stands if it was ever subscribed |
| History.HistoryAnswers | trie/trie.go:75-106 | over every history, a topic finds exactly the standing subscriptions that match it if and only if no taken-back `#` subscription has a copy that answers it |
| History.TopicsMean | trie/trie.go:60-73 | over every history, RangeTopics enumerates a wildcard filter if and only if it was ever subscribed, and any other filter if and only if some client's subscription to it stands |
| History.RetainedMeans | trie/trie.go:108-133 | over every history in which no call about another topic reaches this topic's leaf and none about it another's, the topic is retained exactly if the last call about it was a non-clearing one, with that call's message |
| History.RetainedLast | trie/trie.go:108-133 | over every history whatever, aliased topics included, a retained message is the one that the last call setting its topic brought, and it is retained unless a later clearing call led to where the topic is filed |
| History.HistoryRetains | trie/trie.go:135-148 | over the histories in which the topic has its levels to itself, a filter is sent its message exactly if it is so retained and retained search matches it |
| History.NoHashNoStale | trie/branch.go:92-109 | histories that never unsubscribe a `#` filter are exact for every topic |
| History.AnswererAnswers | trie/trie.go:75-106 | over every history, exactly which connection each pair answers a topic with: the one its standing subscription was made with if that matches, otherwise that of the last subscribe call if its `#` copy is found, otherwise none |
| History.HistoryServed | broker/processor.go:79-87 | over every history, the connection with which a matching subscription stands is sure to be written to if and only if no other connection of its id answers: none whose own matching subscription stands, and none whose `#` subscription was taken back and left a copy that answers |
| NodeHistory.RunHistory | broker/processor.go:102-219 | in every state of every run of the cluster, the table of a node's clients is one that the history of its calls makes |
| NodeHistory.RunServed | broker/processor.go:79-87 | over every run, read off the calls that the node has made: a publish cannot miss the connection with which a matching subscription stands if and only if no other connection of its id answers |
| Fanout.FirstsOneEach | broker/processor.go:79-87 | keeping the first client of each id among the subscribers found leaves no id twice, no stranger, and forgets nobody; their number is the number of distinct ids |
| Fanout.AlwaysWritten | broker/processor.go:79-87 | a connection is written to in whatever order the index answers if and only if it answers and no answer of its id is another connection |
| Servers.Server.FanOut | broker/processor.go:80-87 | the history loop writes once to the first client of each id, in order, and counts exactly those |
| Servers.Server.Resend | broker/processor.go:185-188 | every retained message found is written to the subscriber, in order |
| Servers.Server.Broadcast | broker/processor.go:189-192 | the packet is written once to every connected peer |
| Servers.ResendsExactly | broker/processor.go:181-188 | what answers a SUBSCRIBE is, topic by topic in order, a list of all messages retained for the topic, each once, and nothing else |
| Servers.Session.AddTopic | broker/clients.go:102-108 | the session's topic set gains the topic; the result says whether it was there |
| Servers.Session.RemoveTopic | broker/clients.go:110-116 | the session's topic set loses the topic; the result says whether it was there |
| BrokerProcessor.Processor.IsQos2MsgFull | broker/processor.go:65-73 | full exactly if a capacity other than 0 is set and at least as many handshakes are open |
| BrokerProcessor.Processor.SaveQos2Msg | broker/processor.go:40-51 | accepted exactly if the id is not open and either no capacity is set or fewer are open; refines saving a handshake with its timer |
| BrokerProcessor.Processor.CheckQos2Msg | broker/processor.go:31-38 | refines closing a handshake; the result says whether it was open |
| BrokerProcessor.Processor.ExpireQos2Msg | broker/processor.go:53-63 | the sweep removes exactly the handshakes whose whole-second age has reached the timeout |
| BrokerProcessor.Processor.DoPublish | broker/processor.go:75-100 | one write to each distinct local id found, then one to each interested peer; PubSent grows by the number of distinct local ids, PubRecv by one |
| BrokerProcessor.Processor.ProcessPublish | broker/processor.go:102-146 | at QoS 0 the wire gains the two fan-outs; at QoS 1 a PUBACK with the packet's id, then the fan-outs if it could be written; at QoS 2 a PUBREC exactly if the id was not open and there was room, then the fan-outs exactly if the traces of `Qos2` forward it; a routed retained payload is kept, an empty one clears, nothing else changes the index or the gauge's drift |
| BrokerProcessor.Processor.KeepRetained | broker/processor.go:133-145 | a payload sets the message and counts it if it is new, an empty one clears what the levels lead to and counts it off if there was one |
| BrokerProcessor.Processor.ProcessSubscribe | broker/processor.go:168-193 | acknowledges; all pairs live, topic set grown, gauge in step; then every retained message that matches each topic once; then the packet to every peer |
| BrokerProcessor.Processor.Leave | broker/processor.go:156-159 | SubCount goes down if the filter has a leaf that the scan reaches, one too low exactly if this client was not on it |
| BrokerProcessor.Processor.ProcessUnSubscribe | broker/processor.go:148-166 | acknowledges; removable pairs gone, topic set shrunk, packet to every peer; the gauge falls behind by exactly the number of topics whose filter, in its turn, had a leaf without this client |
| BrokerProcessor.Processor.ProcessDisconnect | broker/processor.go:202-219 | the loop that shrinks the topic set visits each topic once and leaves none; the gauge falls behind by exactly the strays, one connection is counted off and one disconnect counted; no peer is told |
| BrokerProcessor.Processor.ProcessPubrel | broker/processor.go:221-230 | closes the handshake and answers PUBCOMP |
| Ledgers.Ledger.EnterAllCounts | broker/processor.go:174-179 | the SUBSCRIBE loop over the index and its gauge leaves SubCount as far from the number of live pairs as it was, for every list of topics |
| Ledgers.Ledger.LeaveAllCounts | broker/processor.go:154-160 | the UNSUBSCRIBE loop takes SubCount below the number of live pairs by exactly the number of strays, for every list of topics |
| Ledgers.Ledger.NoStrays | broker/processor.go:156-159 | there is no stray if and only if no topic, when its turn comes, has a reachable leaf that the client is not on |
| Ledgers.Ledger.HeldNoStrays | broker/processor.go:207-215 | there is none if the client holds all the topics and none is named twice |
| Ledgers.Ledger.PublishCounts | broker/processor.go:133-145 | the retained part of a publish moves the gauge by exactly the change in the number of retained messages, whichever leaf an empty payload clears |
| Ledgers.Ledger.ForgetCounts | cluster/processor.go:43-45 | a peer's publish leaves the gauge one too high exactly if it finds a message to clear |
| Ledgers.OthersStay | broker/processor.go:154-160 | unsubscribing some filters leaves the client's other filters live, and every filter of other clients |
| Gauges.RunCounts | broker/processor.go:133-219 | in every run of client and peer packets, SubCount is the number of live pairs less the strays of all UNSUBSCRIBE packets, and Retain is the number of retained messages plus those that peers' publishes took away |
| Gauges.CountIsRight | broker/processor.go:156-159 | SubCount is the number of live pairs if and only if no UNSUBSCRIBE so far named a filter with a leaf that its client was not on; sessions that end never miscount |
| Gauges.OrderlyIsRight | broker/processor.go:154-160 | in particular in every run in which clients unsubscribe only filters that they hold, each once |
| Gauges.StrayHappens | broker/processor.go:156-159 | a run that ends with one live pair and SubCount 0 |
| Gauges.Serve | broker/processor.go:285-315 | each request calls its handler: which event of those runs it gives, with its client and topics or message, and what becomes of the handshakes |
| Gauges.ServeAll | broker/processor.go:285-315 | after a broker's handlers have served any list of requests in any order, event by event as the requests say, the same equations hold |
| ClusterProcessor.Processor.DoPublish | cluster/processor.go:21-35 | a peer's publish is written once to each distinct local id found and to no peer |
| ClusterProcessor.Processor.ProcessPublish | cluster/processor.go:37-46 | local fan-out, then a retained publish clears the message here; the Retain gauge is off by one more exactly if there was one |
| ClusterProcessor.Processor.ProcessSubscribe | cluster/processor.go:60-75 | the peer's interest gains the topics, and each matching retained message is sent back once per topic |
| ClusterProcessor.Processor.ProcessUnSubscribe | cluster/processor.go:48-58 | the peer's interest loses the topics |
| ClusterProcessor.Processor.ProcessDisconnect | cluster/processor.go:86-97 | the peer is forgotten together with every topic it asked for |
| ClusterProcessor.Processor.SyncTopics | cluster/cluster.go:187-215 | one round for each configuration entry equal to the name as received, none otherwise; in each, the connection of the trimmed name, if there is one, is sent one SUBSCRIBE for every foliage filter |
| ClusterProcessor.Processor.Admit | cluster/cluster.go:57-59 | the connection is stored under the peer's name and then synchronised |
| NodeSteps.OneEachHits | broker/processor.go:79-87 | the connections that a fan-out writes to are named by the index, none of an id twice, and their ids are exactly those found |
| NodeSteps.PublishOnPeers | broker/processor.go:90-99 | of all that a publish writes, a peer's current connection gets the packet once if the fan-out picked it and nothing otherwise, also when the index names a connection that the peer left |
| NodeSteps.PublishCopies | broker/processor.go:75-100 | the publishes written number one for each connection picked, own clients' from one index and peers' from the other, and none for any other connection |
| NodeSteps.SubscribeStep | broker/processor.go:168-193 | from what the handler of a client's SUBSCRIBE writes: each peer's channel gains exactly that packet (acknowledgement and resends go to the client), and this is the step of that name |
| NodeSteps.UnsubscribeStep | broker/processor.go:148-166 | from what the handler of a client's UNSUBSCRIBE writes: each peer's channel gains exactly that packet, and this is the step of that name |
| NodeSteps.PublishStep | broker/processor.go:75-146 | from what the handler of a routed publish writes: channels gain what is written to current connections, and the step's sent and written counts grow, connection by connection, by the publishes written to peers and to own clients |
| NodeSteps.NoteStep | cluster/processor.go:60-75 | from what the handler of a peer's SUBSCRIBE writes, this is the receive step: the retained messages go onto the channel back to that peer and onto no other |
| NodeSteps.PeerPublishStep | cluster/processor.go:21-46 | from what the handler of a peer's publish writes, this is the receive step: nothing goes onto any channel, and each own connection written to is counted once |
| NodeSteps.LinkUpStep | cluster/cluster.go:187-215 | from what the replay to a new peer writes, this is the link-up step: its channel gains one SUBSCRIBE for each foliage filter, and no other channel anything |
| NodeRuns.HandleSubscribe | broker/processor.go:168-193 | the handler called on a server that is a node of a state of the cluster: the call is a step, the channels gain what it wrote, and the connections stay in order |
| NodeRuns.HandleUnsubscribe | broker/processor.go:148-166 | so is the handler of an UNSUBSCRIBE: a step, the channels gain what it wrote, the connections stay in order |
| NodeRuns.HandleDisconnect | broker/processor.go:202-219 | the end of a session is a step without a single packet |
| NodeRuns.HandlePublish | broker/processor.go:102-146 | on any server, stale connections included, a publish is a step with channels and counts as written if its QoS is 0, or 1 and acknowledged, or 2 and forwarded by the traces of `Qos2`; else it writes at most an acknowledgement |
| NodeRuns.HandlePeerSubscribe | cluster/processor.go:60-75 | handling the SUBSCRIBE at the head of a peer's channel is the receive step, with the answer on the channel back; the session's topic set keeps track of what is noted |
| NodeRuns.HandlePeerUnsubscribe | cluster/processor.go:48-58 | handling the UNSUBSCRIBE at the head of a peer's channel is the receive step, with nothing on any channel; the session's topic set keeps track of what is noted |
| NodeRuns.HandlePeerPublish | cluster/processor.go:37-46 | handling the publish at the head of a peer's channel is the receive step, counted once for each own connection written to |
| NodeRuns.HandleAdmit | cluster/cluster.go:57-59 | storing and synchronising a peer's new connection, configured once, is the link-up step, whatever connections of it the index still names |
| NodeRuns.HandleLinkDown | cluster/processor.go:86-97 | the two ends of a dead link together are a step, given that each session's topic set has what is noted for its peer |
| NodeRuns.UnlinkedTracks | cluster/processor.go:91-96 | over every run, nothing that an unsubscribe could take away is noted for a peer that is not connected, so that a new session's empty topic set has all of it |
| NodeRuns.TotalsAreCounts | broker/processor.go:75-100 | over every run of handler calls, the number of WritePacket calls that write an event to a connection of an own client, or to one of a peer, is what the step system counts |
| NodeRuns.WrittenAtMostOnce | broker/processor.go:79-99 | in every run of handler calls, however stale the tables and however often links came and went, WritePacket is called at most once for an event and a client id of a node over all its connections, and at most once for an event and a peer, which only the publishing node does |
| Coverage.StepSane | cluster/processor.go:37-97 | every step keeps the tables of all nodes well formed |
| Coverage.UnsubscribeKeeps | broker/processor.go:148-166 | a client's UNSUBSCRIBE keeps coverage if and only if the node has no peer or no other local client holds a filter it takes away |
| Coverage.SubscribeKeeps | broker/processor.go:168-193 | coverage survives a client's SUBSCRIBE |
| Coverage.ReceiveKeeps | cluster/processor.go:37-75 | coverage survives a peer's packet being taken: what the packet says moves from the channel into the interest table |
| Coverage.LinkUpKeeps | cluster/cluster.go:187-215 | after a new link's replay, every held filter is covered, whatever was pending before |
| Coverage.LinkDownKeeps | cluster/processor.go:86-97 | coverage of all other pairs survives the end of a link |
| Coverage.RunCovered | broker/processor.go:162-193 | over every run in which clients unsubscribe only filters that no other local client holds, every filter held at a node is covered at each of its peers |
| Coverage.RunLastWord | cluster/processor.go:48-75 | read off the channel: the last pending word on a held filter is a SUBSCRIBE, or none is pending and the peer has noted it |
| Delivery.StepKeepsInv | broker/processor.go:75-100 | every step keeps: an event waits only on channels from its origin, once on each, and not for a client that has it |
| Delivery.AtMostOnce | broker/processor.go:79-99 | in every run, however stale the interest tables, an event is written at most once to a connection, to at most one connection of each client id of a node and of each peer, and to peers only by the node it was published at |
| Delivery.MatchAnswers | broker/processor.go:75-87 | the connection that holds a live matching filter is always among the answers |
| Delivery.AlwaysServed | broker/processor.go:79-87 | it is written to in whatever order the index answers if and only if no answer of its client id names another connection |
| Delivery.SessionServed | broker/processor.go:79-87 | if the client's live filters are all of one connection: if and only if no outlived `#` copy with another connection answers the topic |
| Delivery.PublishServes | broker/processor.go:75-87 | in any state of a run, no publish step can miss that connection if and only if no other connection of its id answers; otherwise there is a publish step that does |
| Delivery.DeliveredOnce | broker/processor.go:75-100 | over every run, links down and up included: once the channel from the publishing node has drained, a connection that kept a matching filter, with no other connection of its id answering, has been written the event exactly once and no other connection of its client has |
| Delivery.OnlyForwarded | broker/processor.go:90-99 | in every run, an event is on its way to another node or written there only if the publish was written to that node's current connection |
| Delivery.DeliveredExactly | broker/processor.go:90-99 | without any assumption on the interest tables: once the channel has drained, such a connection at another node has the event, once, if and only if the publish was written to its node's current connection |
| Scenes.MissingRun | broker/processor.go:162-165 | a run: two clients hold one filter, one takes it back, the peer forgets it and then publishes |
| Scenes.StillHeld | broker/processor.go:162-165 | at the publish of that run the other client holds the filter, it matches, and both links are up with nothing in flight |
| Scenes.NeverDelivered | broker/processor.go:162-165 | however that run goes on, the other client is never written the publish |
| Scenes.DisplacingRun | broker/processor.go:79-87 | a run: a client subscribes `a/#`, goes, comes back on another connection, subscribes `+`, and a publish to `a` is written to the connection that is gone |
| Scenes.NeverServed | broker/processor.go:79-87 | at that publish the new connection holds a matching filter, and however the run goes on it is never written the event |
| Renewal.RunRenewed | cluster/cluster.go:187-215 | in every state of every run, for every two nodes: a wildcard filter that one has noted for the other, or is about to, is in the other's foliage; what it has noted on a connection that the other, now linked, left is about to be announced again; and the only such live entries are of filters that no unsubscribe takes away |
| Renewal.NoneStale | cluster/cluster.go:187-215 | over every run, once a node has taken all that a linked peer sent it, nothing noted for the peer names a connection that the peer left, however often the link went down and came back |
| Renewal.AnswersAreCurrent | broker/processor.go:90-99 | so no answer of that peer's name is another connection than its current one |
| RetainedCopies.SentExactly | broker/processor.go:90-99 | over every run, a publish is written to a peer's connection, once, if and only if the fan-out picked it |
| RetainedCopies.ForwardedExactly | broker/processor.go:90-99 | a peer is forwarded to in whatever order the index answers if and only if its current connection answers and no connection that it left does |
| RetainedCopies.NotSentKeeps | cluster/processor.go:41-45 | a node that a retained publish is not forwarded to never handles it and keeps its copy, whatever else happens, until another publish bears on it |
| RetainedCopies.TakenExactly | cluster/processor.go:37-46 | once the channel has drained without a cut, another node has handled the publish if and only if it was written to that node's current connection |
| RetainedCopies.TakingDrops | cluster/processor.go:43-45 | handling a retained publish clears one message filed on the topic's levels, the node's own copy for sure if nothing else retained there has them |
| RetainedCopies.CopyLeftExactly | cluster/processor.go:41-45 | over every run in which no other publish or replay bears on the topic at the node: after a retained publish has drained, the node still retains a message of the topic if and only if it did before and was not forwarded to |
| RetainedCopies.LastCopyExactly | cluster/processor.go:41-45 | when one node alone retains a message of a topic, a step leaves none in the cluster if and only if that node handles a clearing publish of an own client or a retained publish of a peer, replays included, on the topic's levels |
| Scenes.RetainingRun | cluster/processor.go:41-45 | a run: two linked nodes each retain a message of one topic, then a client of each subscribes it and each node replays its message to the other |
| Scenes.TwoCopies | cluster/processor.go:41-45 | in the middle of that run both nodes retain a message of the topic, linked and with drained channels |
| Scenes.NoneLeft | cluster/processor.go:66-75 | at its end no node retains one, though no client cleared the topic |
| Replay.RunTopics | cluster/cluster.go:187-215 | in every state of every run, a node's foliage has a wildcard filter if and only if a client of it ever subscribed it, and any other filter if and only if one holds it |
| Replay.ReplayNames | cluster/cluster.go:187-215 | over every run, a new link's replay names exactly those filters |
| Qos2.ForwardedOnce | broker/processor.go:117-127 | in every trace, between two forwards of one client's id lies its own PUBREL, or another client's PUBREL of that id, or 20 in whole seconds and more than 19 seconds have passed |
| Qos2.ForwardedExactly | broker/processor.go:40-73 | in every trace, a publish is forwarded if and only if it could be acknowledged, its id is not open, and no capacity is set or fewer handshakes are open; always, then, if none is set |
| Qos2.ForwardedAgainExactly | broker/processor.go:40-51 | in every trace, a publish of an id that was saved before, by whichever client, is forwarded if and only if the table has room and a PUBREL of any client or a timer has closed the id since it was last saved; otherwise the table is unchanged |
| Qos2.RepeatedExactly | broker/processor.go:31-51 | a client that repeats its publish within the timeout and has not released the id has it forwarded twice if and only if the table has room and another client has released that id since |
| Qos2.ForwardedTwice | broker/processor.go:221-223 | a trace in which that happens |
| Qos2.OtherDropped | broker/processor.go:45-47 | a publish whose id another client has open is not forwarded and changes nothing |
| Qos2.EarlyExactly | broker/processor.go:59 | a handshake expires before 20 full seconds exactly if the whole seconds differ by 20 and the sub-second part went down |
| Qos2.EarlyExactlyWhen | broker/processor.go:48-63 | for every table: some firing of a pending timer can remove an open handshake before 20 full seconds if and only if it was not saved on a whole second and a timer is pending that is due before its own |
| Qos2.EarlyExpiry | broker/processor.go:53-63 | a trace in which an id is forwarded twice within 20 seconds without a PUBREL of anybody |
| Qos2.RunTimed | broker/processor.go:48-50 | in every trace each open handshake has a pending timer due 20 seconds after it was saved |
| Qos2.NeverLeaks | broker/processor.go:48-63 | once no pending timer is overdue, every open handshake is younger than 20 seconds |
| Qos2.FireIsExact | broker/processor.go:53-63 | a firing timer removes every handshake of 20 seconds or more and none of 19 or less |
| Qos2.RunBounded | broker/processor.go:65-73 | in every state of every trace the table holds no more than a non-zero capacity |
| Wire.Buffer.Read | packets/packets.go:282-290 | a short read fills up with zeros, and the end is an error only for a non-empty request |
| Wire.GetPutField | packets/packets.go:316-335 | a field is read back, without what follows it, if and only if its length fits 16 bits |
| Wire.PutGetField | packets/packets.go:316-335 | a field read without running into the end is what those bytes are the encoding of |
| Wire.WordRoundTrip | packets/packets.go:292-305 | a 16-bit number comes back from its two bytes, the more significant first |
| Wire.BytesRoundTrip | packets/packets.go:292-305 | two bytes come back from the 16-bit number they spell |
| Wire.DecodeBytes | packets/packets.go:316-329 | the reader takes exactly the length prefix and the field, as specified, and fails exactly there |
| Wire.LengthRoundTrip | packets/packets.go:337-375 | a length below 128^k is read back from its encoding followed by any suffix, in at most k bytes |
| Wire.LengthExact | packets/packets.go:337-375 | any number is read back from its encoding if and only if the bytes allowed can spell it: up to 268,435,455 with four |
| Wire.LengthSize | packets/packets.go:337-353 | 1 to 4 bytes at the thresholds of section 2.2.3 |
| Wire.LengthBytes | packets/packets.go:337-353 | every byte of every length: digits to the base 128, lowest first, and 128 more on all but the last |
| Wire.LengthShortest | packets/packets.go:337-353 | no other bytes that decode to the number are fewer |
| Wire.GetLengthBound | packets/packets.go:355-375 | on any input at most k bytes are read and the result is below 128^k |
| Wire.LengthReads | packets/packets.go:355-375 | off any bytes: those up to the first below 128 are read, at most k, and the number is what their digits spell, whatever the top bit of the last says |
| Wire.LengthFails | packets/packets.go:355-375 | it fails if and only if the bytes end before that |
| Wire.EncodeLength | packets/packets.go:337-353 | the loop writes the specified digits, lowest first |
| Wire.OrIsSum | packets/packets.go:368 | the 32-bit shift-and-or of a digit is the sum with that digit's power of 128 |
| Wire.DecodeLength | packets/packets.go:355-375 | the loop computes the specified number from at most 4 bytes, reports how many it took, and fails exactly at the end of the bytes |
| Packets.HeaderRoundTrip | packets/packets.go:258-280 | a fixed header survives its byte if and only if type and QoS fit their bits |
| Packets.HeaderBits | packets/packets.go:258-267 | the first byte is 16 times the type plus 8 for DUP, twice the QoS and 1 for RETAIN |
| Packets.HeaderByteRoundTrip | packets/packets.go:258-280 | every byte is the packing of the header it unpacks to |
| Packets.PublishInverse | packets/publish.go:41-65 | on a body of RemainingLength bytes, parsing succeeds if and only if topic and id fit, and the result is written as that very body |
| Packets.PublishRoundTrip | packets/publish.go:22-65 | what was written is read back |
| Packets.EntriesInverse | packets/subscribe.go:48-60 | the length-driven loop accepts only bytes that are the encoding of the topics it returns, to the last byte |
| Packets.SubscribeInverse | packets/subscribe.go:41-63 | a body of two or more bytes is accepted if and only if it is the encoding of some topics with QoS, and it is read as those |
| Packets.SubscribeRoundTrip | packets/subscribe.go:22-63 | topics of at most 65535 bytes and their QoS come back |
| Packets.FieldsRoundTrip | packets/unsubscribe.go:21-50 | the topics come back if and only if none is empty and each fits its length prefix |
| Packets.FieldsInverse | packets/unsubscribe.go:45-48 | the bytes are what the topics read from them are written as if and only if they are whole non-empty fields, one after the other |
| Packets.UnsubscribeInverse | packets/unsubscribe.go:38-50 | an accepted body is what it is read as is written as, if and only if it is a whole message id and whole non-empty fields |
| Packets.UnsubscribePads | packets/unsubscribe.go:45-47 | a body cut off inside its last topic is accepted with zeros for the missing bytes |
| Packets.FlagsRoundTrip | packets/connect.go:45 | the connect flags survive their byte if and only if the will QoS is at most 3 and the reserved bit is 0 |
| Packets.FlagBits | packets/connect.go:45 | the flags byte bit by bit, as section 3.1.2.3 has it |
| Packets.FlagsByteRoundTrip | packets/connect.go:82-88 | every byte is what its flags are written as, save that the reserved bit is written as 0 |
| Packets.ConnectReads | packets/connect.go:68-121 | whatever the flags byte says, the reserved bit included, a body laid out as a CONNECT is read as one |
| Packets.ConnectRoundTrip | packets/connect.go:39-121 | for every combination of flags all fields come back and nothing that follows is touched |
| Packets.BodyRoundTrip | packets/packets.go:188-222 | every well-formed body of every packet type comes back from its bytes |
| Packets.ReadEncoded | packets/packets.go:112-145 | one packet off a stream: the packet comes back, exactly its bytes are consumed |
| Packets.StreamRoundTrip | packets/packets.go:112-145 | reading repeatedly from the concatenated encodings of any list of packets of the fourteen types, with bodies of their type within bounds, returns them in order with nothing left over |
| Packets.ReadIsWritten | packets/packets.go:112-145 | a PUBLISH or SUBSCRIBE read off any stream is written as the same first byte and body, with a length field no longer than the one read |
| Packets.ReadsExactly | packets/packets.go:112-145 | behind a fixed header, a packet is read if and only if its type is 1 to 14, all of its body has arrived and the body can be read; then it is that header and body and the rest is untouched |
| Packets.BodiesRead | packets/packets.go:188-222 | for each type, exactly which bodies can be read, CONNECT excepted |
| Samples.ConnectSample | packets/connect.go:39-64 | a CONNECT with every field, byte for byte, written and read |
| Samples.PublishSample | packets/publish.go:22-37 | a PUBLISH with DUP, QoS 1 and RETAIN, byte for byte |
| Samples.PlainPublishSample | packets/publish.go:22-37 | a PUBLISH at QoS 0 has no id |
| Samples.SubscribeSample | packets/subscribe.go:22-37 | the SUBSCRIBE of section 3.8, byte for byte |
| Samples.UnsubscribeSample | packets/unsubscribe.go:21-34 | the UNSUBSCRIBE of section 3.10, byte for byte |
| Samples.ShortSamples | packets/packets.go:258-267 | CONNACK, PUBREL, SUBACK and DISCONNECT, byte for byte |
| Samples.LengthSample | packets/packets.go:337-353 | 321 is written as 193 and 2 |
| PacketCodec.FixedHeader.Pack | packets/packets.go:258-267 | first byte and length as specified; PacketSize is the size of the whole packet |
| PacketCodec.FixedHeader.Unpack | packets/packets.go:269-280 | header fields and RemainingLength as specified; PacketSize grows by the bytes of the length field |
| PacketCodec.PublishPacket.Write | packets/publish.go:22-37 | appends the packet's encoding and sets both lengths to it |
| PacketCodec.PublishPacket.Unpack | packets/publish.go:41-65 | refines PUBLISH parsing, failing exactly where it does |
| PacketCodec.SubscribePacket.Write | packets/subscribe.go:22-37 | the loop appends the packet's encoding and sets both lengths to it |
| PacketCodec.SubscribePacket.Unpack | packets/subscribe.go:41-63 | the loop refines SUBSCRIBE parsing, appending to the lists and failing exactly where it does |
| PacketCodec.UnsubscribePacket.Write | packets/unsubscribe.go:21-34 | the loop appends the packet's encoding and sets both lengths to it |
| PacketCodec.UnsubscribePacket.Unpack | packets/unsubscribe.go:38-50 | the loop refines UNSUBSCRIBE parsing, down to the bytes left unread; only a missing message id is an error |
| PacketCodec.ConnectPacket.Write | packets/connect.go:39-64 | appends the packet's encoding and sets both lengths to it |
| PacketCodec.ConnectPacket.Unpack | packets/connect.go:68-121 | refines CONNECT parsing; fields that the flags leave out keep their values |
| PacketCodec.ConnackPacket.Unpack | packets/connack.go:37-46 | refines CONNACK parsing |
| PacketCodec.SubackPacket.Unpack | packets/suback.go:36-51 | the message id, then all that is left as return codes |
| PacketCodec.IdPacket.Unpack | packets/puback.go:31-36 | the message id |
| PacketCodec.EmptyPacket.Write | packets/pingreq.go:17-22 | the header with its length as it stands; the packet's encoding if that length is 0 |
| PacketCodec.NewControlPacketWithHeader | packets/packets.go:188-222 | the struct for the type, with empty fields and its own copy of the header |
| PacketCodec.ReadPacket | packets/packets.go:112-145 | refines reading one packet off a stream, which fails exactly as `Packets.ReadsExactly` says; the returned header's PacketSize plus RemainingLength is what was consumed |

## Left out

- Sockets, TLS, websockets, tickers, HTTP, configuration and logging: I/O around the cores.
- Goroutine interleavings inside one call: each trie call and each handled packet is one step. The leaf update at
  trie/trie.go:39 runs outside the lock.
- `ProcessConnect`, wills, `ClientsTotal` and `ClientsMax`. What reconnecting does to the tables is in the runs: a step
  may bring any connection of any client id, and a session's end is a step of its own. A node that connects again while
  its old connection is still stored (cluster/cluster.go:49-53) is taken to have its old link ended first.
- Topics with a single blank level, such as the empty topic, in search and retained calls: the start index is then past
  the levels and the code panics (trie/trie.go:91-95); section 4.7.3 of MQTT 3.1.1 rules the empty topic out.
- Failing writes, except the acknowledgement of a publish (`ackOk`): a `WritePacket` call is counted as made. A closed
  connection swallows what is written to it.
- Strings of the trie are sequences of characters and strings on the wire sequences of bytes; UTF-8 is not modelled, and
  the two are not joined.
- Asynchronous link ends in the step system: both nodes notice the end of a link in one step, and what was in flight is
  lost. Links come up one side at a time. In the step system every peer is in the configuration, once; the rounds of
  `SyncTopics` run one after the other.
- The simple acknowledgements, pings and DISCONNECT have no theorems of their own; they take part in the stream theorem.
- Map-merging loops are one step (`+` on maps), and `NewBranch` with the field assignments that follow it is a constructor.
- `Size()`, `BytesRecv`, `MsgRecv`, `MsgSent`, `String`, `Details` and `Copy`.
- NodeRuns.HandleAdmit: is stated for a peer that the configuration names once; the other cases are those of
  `ClusterProcessor.Processor.SyncTopics`.
- NodeRuns.HandleLinkDown: takes it that each session's topic set has what is noted for its peer. Every handler of a
  peer's packets keeps that, and a new session starts with it (`NodeRuns.UnlinkedTracks`); it is not carried along whole
  runs of calls.
- Gauges.ServeAll: the sessions it is given are the only ones of their ids, and their packets are handled one at a time.
