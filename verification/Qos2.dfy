/** The QoS 2 handshake table over whole traces: publishes and PUBRELs of all clients, which share one table
    keyed by the packet identifier alone, and expiry timers. */
module Qos2 {

  const TIMEOUT := 20
  const SECOND := 1_000_000_000

  type MessageId = nat

  /** time.Now().Unix() at a time given in nanoseconds: whole seconds, rounded down. */
  function Unix(now: nat): nat {
    now / SECOND
  }

  /** When each open handshake was saved, the deadlines of the pending timers, the capacity (0: none). */
  datatype Handshakes = Handshakes(saved: map<MessageId, nat>, timers: multiset<nat>, max: int)
  {
    predicate Full() {
      max != 0 && |saved| >= max
    }

    predicate Accepts(id: MessageId) {
      !Full() && id !in saved
    }

    function Save(id: MessageId, now: nat): Handshakes {
      if Accepts(id) then this.(saved := saved[id := now], timers := timers + multiset{now + TIMEOUT * SECOND})
      else this
    }

    function Release(id: MessageId): Handshakes {
      this.(saved := saved - {id})
    }

    predicate Expired(id: MessageId, now: nat)
      requires id in saved
    {
      Unix(now) - Unix(saved[id]) >= TIMEOUT
    }

    function Expire(now: nat): Handshakes {
      this.(saved := map id | id in saved && !Expired(id, now) :: saved[id])
    }
  }

  /** A publish may fail to be acknowledged, and is then saved but not forwarded. */
  datatype Event =
    | Publish(client: string, id: MessageId, at: nat, acked: bool)
    | Pubrel(client: string, id: MessageId, at: nat)
    | Fire(deadline: nat, at: nat)

  /** A timer fires once, and never before its deadline. */
  predicate Enabled(h: Handshakes, e: Event) {
    e.Fire? ==> e.deadline in h.timers && e.deadline <= e.at
  }

  function Step(h: Handshakes, e: Event): Handshakes {
    match e
    case Publish(_, id, at, _) => h.Save(id, at)
    case Pubrel(_, id, _) => h.Release(id)
    case Fire(d, at) => h.(timers := h.timers - multiset{d}).Expire(at)
  }

  predicate Forwards(h: Handshakes, e: Event) {
    e.Publish? && e.acked && h.Accepts(e.id)
  }

  /** The states of a run from an empty table; the clock never goes back. */
  ghost predicate Run(es: seq<Event>, hs: seq<Handshakes>) {
    && |hs| == |es| + 1
    && hs[0].saved == map[] && hs[0].timers == multiset{}
    && (forall i | 0 <= i < |es| :: Enabled(hs[i], es[i]) && hs[i + 1] == Step(hs[i], es[i]))
    && (forall i, j | 0 <= i < j < |es| :: es[i].at <= es[j].at)
  }

  // ---------------------------------------------------------------- when an id is forwarded again

  predicate Saves(h: Handshakes, e: Event, id: MessageId) {
    e.Publish? && e.id == id && h.Accepts(id)
  }

  /** A PUBREL of any client closes the handshake, and so does a timer that finds it expired. */
  predicate Closes(h: Handshakes, e: Event, id: MessageId) {
    match e
    case Publish(_, _, _, _) => false
    case Pubrel(_, released, _) => released == id
    case Fire(_, at) => id in h.saved && h.Expired(id, at)
  }

  /** Event m closes the handshake, and no publish before event k opens it again. */
  ghost predicate ClosedAt(es: seq<Event>, hs: seq<Handshakes>, id: MessageId, m: nat, k: nat)
    requires k <= |es| < |hs|
  {
    m < k && Closes(hs[m], es[m], id) && forall n | m < n < k :: !Saves(hs[n], es[n], id)
  }

  ghost predicate ClosedSince(es: seq<Event>, hs: seq<Handshakes>, id: MessageId, i: nat, k: nat)
    requires k <= |es| < |hs|
  {
    exists m :: i < m && ClosedAt(es, hs, id, m, k)
  }

  /** A handshake that was saved once is closed exactly when something has closed it since it was last saved. */
  lemma {:induction false} OpenOrClosed(es: seq<Event>, hs: seq<Handshakes>, i: nat, k: nat, id: MessageId)
    requires Run(es, hs) && i < k <= |es| && Saves(hs[i], es[i], id)
    ensures id !in hs[k].saved <==> ClosedSince(es, hs, id, i, k)
    ensures id in hs[k].saved ==> hs[k].saved[id] >= es[i].at
    decreases k
  {
    hide Step, Closes, Saves, ClosedSince;
    assert hs[k] == Step(hs[k - 1], es[k - 1]) && es[i].at <= es[k - 1].at;
    StepOpens(hs[k - 1], es[k - 1], id);
    ClosedNext(es, hs, i, k - 1, id);
    SavesOnly(hs[k - 1], es[k - 1], id);
    if k > i + 1 {
      OpenOrClosed(es, hs, i, k - 1, id);
    } else {
      NotYetClosed(es, hs, id, i);
    }
  }

  lemma StepOpens(h: Handshakes, e: Event, id: MessageId)
    ensures id in Step(h, e).saved <==> Saves(h, e, id) || (id in h.saved && !Closes(h, e, id))
    ensures id in Step(h, e).saved ==> Step(h, e).saved[id] == if Saves(h, e, id) then e.at else h.saved[id]
  {
    hide Handshakes.Expired, Unix;
    if e.Fire? && id in h.saved {
      SameExpiry(h, h.timers - multiset{e.deadline}, id, e.at);
    }
  }

  lemma SavesOnly(h: Handshakes, e: Event, id: MessageId)
    ensures Saves(h, e, id) ==> !Closes(h, e, id)
  {
  }

  lemma NotYetClosed(es: seq<Event>, hs: seq<Handshakes>, id: MessageId, i: nat)
    requires i < |es| < |hs|
    ensures !ClosedSince(es, hs, id, i, i)
  {
  }

  lemma ClosedNext(es: seq<Event>, hs: seq<Handshakes>, i: nat, k: nat, id: MessageId)
    requires k < |es| < |hs| && i <= k
    ensures ClosedSince(es, hs, id, i, k + 1) <==>
            (i < k && Closes(hs[k], es[k], id)) || (ClosedSince(es, hs, id, i, k) && !Saves(hs[k], es[k], id))
  {
    hide Closes, Saves;
    if i < k && Closes(hs[k], es[k], id) {
      assert ClosedAt(es, hs, id, k, k + 1);
    }
    if !Saves(hs[k], es[k], id) {
      if m :| i < m && ClosedAt(es, hs, id, m, k) {
        assert ClosedAt(es, hs, id, m, k + 1);
      }
    }
    var next := k + 1;
    if m :| i < m && ClosedAt(es, hs, id, m, next) {
      assert m != k ==> ClosedAt(es, hs, id, m, k);
    }
  }

  /** Over every run, exactly when a publish is forwarded: it could be acknowledged, no handshake with its id is
      open, and there is room; always if no capacity is set. */
  lemma ForwardedExactly(es: seq<Event>, hs: seq<Handshakes>, k: nat)
    requires Run(es, hs) && k < |es| && es[k].Publish?
    ensures Forwards(hs[k], es[k]) <==>
            es[k].acked && es[k].id !in hs[k].saved && (hs[0].max == 0 || |hs[k].saved| < hs[0].max)
    ensures es[k].id !in hs[k].saved && (hs[0].max == 0 || |hs[k].saved| < hs[0].max) ==>
              hs[k + 1].saved == hs[k].saved[es[k].id := es[k].at]
    ensures hs[0].max == 0 && es[k].acked && es[k].id !in hs[k].saved ==> Forwards(hs[k], es[k])
  {
    hide Run;
    RunBounded(es, hs, k);
    RunStep(es, hs, k);
  }

  lemma RunStep(es: seq<Event>, hs: seq<Handshakes>, k: nat)
    requires Run(es, hs) && k < |es|
    ensures hs[k + 1] == Step(hs[k], es[k])
  {
    hide Step;
  }

  /** Exactly when a publish whose id was saved before, by the same client or by another, is forwarded: the table
      has room, and somebody's PUBREL or a timer has closed the id since. Otherwise it is dropped. */
  lemma ForwardedAgainExactly(es: seq<Event>, hs: seq<Handshakes>, i: nat, j: nat)
    requires Run(es, hs) && i < j < |es| && es[i].Publish? && Saves(hs[i], es[i], es[i].id)
    requires es[j].Publish? && es[j].acked && es[j].id == es[i].id
    ensures Forwards(hs[j], es[j]) <==>
            (hs[0].max == 0 || |hs[j].saved| < hs[0].max) && ClosedSince(es, hs, es[i].id, i, j)
    ensures !Forwards(hs[j], es[j]) ==> hs[j + 1] == hs[j]
  {
    hide ClosedSince;
    OpenOrClosed(es, hs, i, j, es[i].id);
    ForwardedExactly(es, hs, j);
    assert hs[j + 1] == Step(hs[j], es[j]);
  }

  predicate ReleasedByOther(e: Event, client: string, id: MessageId) {
    e.Pubrel? && e.id == id && e.client != client
  }

  ghost predicate Unreleased(es: seq<Event>, i: nat, j: nat, client: string, id: MessageId)
    requires j <= |es|
  {
    forall m | i < m < j && es[m].Pubrel? && es[m].id == id :: es[m].client != client
  }

  ghost predicate OtherClosedSince(es: seq<Event>, hs: seq<Handshakes>, client: string, id: MessageId, i: nat, k: nat)
    requires k <= |es| < |hs|
  {
    exists m :: i < m && ClosedAt(es, hs, id, m, k) && ReleasedByOther(es[m], client, id)
  }

  /** Who closed it, for a client that has not sent its PUBREL: another client, or a timer after the timeout. */
  lemma WhoCloses(es: seq<Event>, hs: seq<Handshakes>, i: nat, j: nat, client: string, id: MessageId)
    requires Run(es, hs) && i < j < |es| && Saves(hs[i], es[i], id) && Unreleased(es, i, j, client, id)
    requires Unix(es[j].at) - Unix(es[i].at) < TIMEOUT
    ensures ClosedSince(es, hs, id, i, j) <==> OtherClosedSince(es, hs, client, id, i, j)
  {
    hide Step, Handshakes.Accepts;
    if m :| i < m && ClosedAt(es, hs, id, m, j) {
      if es[m].Fire? {
        OpenOrClosed(es, hs, i, m, id);
        LaterSeconds(es[i].at, hs[m].saved[id], es[m].at, es[j].at);
        assert false;
      }
      assert ReleasedByOther(es[m], client, id);
    }
  }

  lemma LaterSeconds(a: nat, b: nat, c: nat, d: nat)
    requires a <= b && c <= d
    ensures Unix(d) - Unix(a) >= Unix(c) - Unix(b)
  {
  }

  /** Exactly when a client that repeats a publish within the timeout, without having released its id, has it
      forwarded a second time: the table has room, and another client has released that id. */
  lemma RepeatedExactly(es: seq<Event>, hs: seq<Handshakes>, i: nat, j: nat)
    requires Run(es, hs) && i < j < |es| && Forwards(hs[i], es[i])
    requires es[j].Publish? && es[j].acked && es[j].id == es[i].id && es[j].client == es[i].client
    requires Unreleased(es, i, j, es[i].client, es[i].id) && Unix(es[j].at) - Unix(es[i].at) < TIMEOUT
    ensures Forwards(hs[j], es[j]) <==>
            (hs[0].max == 0 || |hs[j].saved| < hs[0].max) && OtherClosedSince(es, hs, es[i].client, es[i].id, i, j)
  {
    hide ClosedSince, OtherClosedSince, Unreleased, Step, Run;
    ForwardedAgainExactly(es, hs, i, j);
    WhoCloses(es, hs, i, j, es[i].client, es[i].id);
  }

  /** At most one forward per handshake of a client: between two forwards of its id the client has sent its
      PUBREL, or another client one for the same id, or the clock in whole seconds has moved on by the timeout. */
  lemma ForwardedOnce(es: seq<Event>, hs: seq<Handshakes>, i: nat, j: nat)
    requires Run(es, hs) && i < j < |es| && Forwards(hs[i], es[i])
    requires Forwards(hs[j], es[j]) && es[i].id == es[j].id && es[i].client == es[j].client
    ensures || !Unreleased(es, i, j, es[i].client, es[i].id)
            || OtherClosedSince(es, hs, es[i].client, es[i].id, i, j)
            || (Unix(es[j].at) - Unix(es[i].at) >= TIMEOUT && es[j].at - es[i].at > (TIMEOUT - 1) * SECOND)
  {
    hide OtherClosedSince, Unreleased, Step, Run;
    if Unix(es[j].at) - Unix(es[i].at) >= TIMEOUT {
      WholeSeconds(es[i].at, es[j].at);
    } else if Unreleased(es, i, j, es[i].client, es[i].id) {
      RepeatedExactly(es, hs, i, j);
    }
  }

  function TwiceEvents(): seq<Event> {
    [Publish("1", 7, 0, true), Pubrel("2", 7, 0), Publish("1", 7, 0, true)]
  }

  function TwiceStates(): seq<Handshakes> {
    var h0 := Handshakes(map[], multiset{}, 0);
    var h1 := h0.Save(7, 0);
    [h0, h1, h1.Release(7), h1.Release(7).Save(7, 0)]
  }

  /** Client "2" releases an id that it never used, and the publish of client "1" is forwarded twice. */
  lemma ForwardedTwice()
    ensures var es, hs := TwiceEvents(), TwiceStates();
            && Run(es, hs) && Forwards(hs[0], es[0]) && Forwards(hs[2], es[2])
            && es[0].client == es[2].client && Unreleased(es, 0, 2, es[0].client, es[0].id)
  {
    assert forall i | 0 <= i < 3 :: TwiceStates()[i + 1] == Step(TwiceStates()[i], TwiceEvents()[i]);
  }

  /** While one client's handshake is open, a publish of another client that happens to use the id is dropped. */
  lemma OtherDropped(es: seq<Event>, hs: seq<Handshakes>, i: nat, j: nat)
    requires Run(es, hs) && i < j < |es| && es[i].Publish? && Saves(hs[i], es[i], es[i].id)
    requires es[j].Publish? && es[j].id == es[i].id && es[j].client != es[i].client
    requires forall m | i < m < j :: !Closes(hs[m], es[m], es[i].id)
    ensures !Forwards(hs[j], es[j]) && hs[j + 1] == hs[j]
  {
    OpenOrClosed(es, hs, i, j, es[i].id);
    assert hs[j + 1] == Step(hs[j], es[j]);
  }

  lemma WholeSeconds(a: nat, b: nat)
    requires Unix(b) - Unix(a) >= TIMEOUT
    ensures b - a > (TIMEOUT - 1) * SECOND
  {
  }

  /** Exactly when that happens: the whole seconds differ by 20 and the sub-second part went down. */
  lemma EarlyExactly(saved: nat, now: nat)
    requires Unix(now) - Unix(saved) >= TIMEOUT
    ensures now - saved < TIMEOUT * SECOND <==>
            Unix(now) - Unix(saved) == TIMEOUT && now % SECOND < saved % SECOND
  {
    assert now == SECOND * Unix(now) + now % SECOND;
    assert saved == SECOND * Unix(saved) + saved % SECOND;
  }

  /** A pending timer may yet fire so that the handshake goes before its 20 full seconds are over. */
  ghost predicate MayGoEarly(h: Handshakes, id: MessageId)
    requires id in h.saved
  {
    exists d, at :: GoesEarly(h, id, d, at)
  }

  ghost predicate GoesEarly(h: Handshakes, id: MessageId, d: nat, at: nat)
    requires id in h.saved
  {
    Enabled(h, Fire(d, at)) && at < h.saved[id] + TIMEOUT * SECOND && id !in Step(h, Fire(d, at)).saved
  }

  /** Exactly when that can happen, in any table: the handshake was not saved on a whole second, and a
      timer is pending that is due before its own. */
  lemma EarlyExactlyWhen(h: Handshakes, id: MessageId)
    requires id in h.saved
    ensures MayGoEarly(h, id) <==>
            h.saved[id] % SECOND != 0 && exists d :: d in h.timers && d < h.saved[id] + TIMEOUT * SECOND
  {
    var saved := h.saved[id];
    if d, at :| GoesEarly(h, id, d, at) {
      EarlyExactly(saved, at);
    }
    if saved % SECOND != 0 {
      if d :| d in h.timers && d < saved + TIMEOUT * SECOND {
        var at := saved + TIMEOUT * SECOND - 1;
        LastMoment(saved);
        assert GoesEarly(h, id, d, at);
      }
    }
  }

  lemma LastMoment(saved: nat)
    requires saved % SECOND != 0
    ensures Unix(saved + TIMEOUT * SECOND - 1) - Unix(saved) == TIMEOUT
  {
    var q, r := saved / SECOND, saved % SECOND;
    assert saved == q * SECOND + r;
    assert saved + TIMEOUT * SECOND - 1 == (q + TIMEOUT) * SECOND + (r - 1);
  }

  function EarlyEvents(): seq<Event> {
    [Publish("1", 1, 0, true), Publish("1", 2, 900_000_000, true), Fire(20 * SECOND, 20 * SECOND),
     Publish("1", 2, 20 * SECOND, true)]
  }

  function EarlyStates(): seq<Handshakes> {
    var h3 := Handshakes(map[], multiset{900_000_000 + 20 * SECOND}, 0);
    [Handshakes(map[], multiset{}, 0),
     Handshakes(map[1 := 0], multiset{20 * SECOND}, 0),
     Handshakes(map[1 := 0, 2 := 900_000_000], multiset{20 * SECOND, 900_000_000 + 20 * SECOND}, 0),
     h3, h3.Save(2, 20 * SECOND)]
  }

  lemma EarlySteps(i: nat)
    requires i < 4
    ensures Enabled(EarlyStates()[i], EarlyEvents()[i])
    ensures EarlyStates()[i + 1] == Step(EarlyStates()[i], EarlyEvents()[i])
  {
    hide Handshakes.Expire;
    if i == 2 {
      EarlyFire();
    }
  }

  lemma EarlyFire()
    ensures Enabled(EarlyStates()[2], EarlyEvents()[2])
    ensures EarlyStates()[3] == Step(EarlyStates()[2], EarlyEvents()[2])
  {
    var h2 := EarlyStates()[2];
    assert Unix(20 * SECOND) == 20 && Unix(0) == 0 && Unix(900_000_000) == 0;
    assert h2.timers - multiset{20 * SECOND} == EarlyStates()[3].timers;
    assert h2.Expire(20 * SECOND).saved == map[];
  }

  /** The bound is not 20 elapsed seconds: a timer of an older handshake may expire a younger one
      that is 19.1 seconds old, and its id is forwarded again. */
  lemma EarlyExpiry()
    ensures var es, hs := EarlyEvents(), EarlyStates();
            && Run(es, hs)
            && Forwards(hs[1], es[1]) && Forwards(hs[3], es[3]) && es[1].id == es[3].id
            && es[3].at - es[1].at < TIMEOUT * SECOND
  {
    hide Step;
    forall i | 0 <= i < 4
      ensures Enabled(EarlyStates()[i], EarlyEvents()[i])
          && EarlyStates()[i + 1] == Step(EarlyStates()[i], EarlyEvents()[i])
    {
      EarlySteps(i);
    }
  }

  /** Every open handshake has a pending timer, due 20 seconds after it was saved. */
  ghost predicate Timed(h: Handshakes) {
    forall id | id in h.saved :: h.saved[id] + TIMEOUT * SECOND in h.timers
  }

  lemma StepTimed(h: Handshakes, e: Event)
    requires Timed(h) && Enabled(h, e)
    ensures Timed(Step(h, e))
  {
    hide Timed, Handshakes.Save, Handshakes.Release, Handshakes.Expire;
    match e
    case Publish(_, id, at, _) => SaveTimed(h, id, at);
    case Pubrel(_, id, _) => ReleaseTimed(h, id);
    case Fire(d, at) => FireTimed(h, d, at);
  }

  lemma SaveTimed(h: Handshakes, id: MessageId, at: nat)
    requires Timed(h)
    ensures Timed(h.Save(id, at))
  {
  }

  lemma ReleaseTimed(h: Handshakes, id: MessageId)
    requires Timed(h)
    ensures Timed(h.Release(id))
  {
  }

  lemma FireTimed(h: Handshakes, d: nat, at: nat)
    requires Timed(h) && d <= at
    ensures Timed(h.(timers := h.timers - multiset{d}).Expire(at))
  {
    hide Handshakes.Expired, Unix;
    var fewer := h.timers - multiset{d};
    forall id | id in h.saved && !h.Expired(id, at) ensures h.saved[id] + TIMEOUT * SECOND in fewer {
      StillPending(h, id, d, at);
    }
    forall id | id in h.saved ensures h.(timers := fewer).Expired(id, at) == h.Expired(id, at) {
      SameExpiry(h, fewer, id, at);
    }
  }

  lemma SameExpiry(h: Handshakes, timers: multiset<nat>, id: MessageId, at: nat)
    requires id in h.saved
    ensures h.(timers := timers).Expired(id, at) == h.Expired(id, at)
  {
  }

  lemma StillPending(h: Handshakes, id: MessageId, d: nat, at: nat)
    requires id in h.saved && h.saved[id] + TIMEOUT * SECOND in h.timers && d <= at && !h.Expired(id, at)
    ensures h.saved[id] + TIMEOUT * SECOND in h.timers - multiset{d}
  {
    if h.saved[id] + TIMEOUT * SECOND == d {
      FiresExpired(h, id, at);
    }
  }

  /** The timer of a handshake, whenever it fires, finds it expired. */
  lemma FiresExpired(h: Handshakes, id: MessageId, now: nat)
    requires id in h.saved && h.saved[id] + TIMEOUT * SECOND <= now
    ensures h.Expired(id, now)
  {
  }

  lemma {:induction false} RunTimed(es: seq<Event>, hs: seq<Handshakes>, k: nat)
    requires Run(es, hs) && k <= |es|
    ensures Timed(hs[k])
  {
    if k > 0 {
      RunTimed(es, hs, k - 1);
      StepTimed(hs[k - 1], es[k - 1]);
      assert hs[k] == Step(hs[k - 1], es[k - 1]);
    }
  }

  /** No handshake leaks: in every run, once no pending timer is overdue, every open handshake is
      younger than the timeout; and a firing timer removes all the older ones and no younger one. */
  lemma NeverLeaks(es: seq<Event>, hs: seq<Handshakes>, k: nat, now: nat)
    requires Run(es, hs) && k <= |es|
    requires forall d | d in hs[k].timers :: d > now
    ensures forall id | id in hs[k].saved :: now < hs[k].saved[id] + TIMEOUT * SECOND
  {
    RunTimed(es, hs, k);
  }

  lemma FireIsExact(es: seq<Event>, hs: seq<Handshakes>, k: nat, id: MessageId)
    requires Run(es, hs) && k < |es| && es[k].Fire? && id in hs[k].saved
    ensures es[k].at >= hs[k].saved[id] + TIMEOUT * SECOND ==> id !in hs[k + 1].saved
    ensures es[k].at <= hs[k].saved[id] + (TIMEOUT - 1) * SECOND ==> id in hs[k + 1].saved
  {
    assert hs[k + 1] == Step(hs[k], es[k]);
  }

  ghost predicate WithinCapacity(h: Handshakes) {
    (h.max > 0 ==> |h.saved| <= h.max) && (h.max < 0 ==> h.saved == map[])
  }

  lemma StepWithin(h: Handshakes, e: Event)
    requires WithinCapacity(h)
    ensures Step(h, e).max == h.max && WithinCapacity(Step(h, e))
  {
    if !e.Publish? {
      var h' := Step(h, e);
      NoMore(h'.saved.Keys, h.saved.Keys);
      assert |h'.saved| == |h'.saved.Keys| && |h.saved| == |h.saved.Keys|;
    }
  }

  /** The capacity holds in every state of every run. */
  lemma {:induction false} RunBounded(es: seq<Event>, hs: seq<Handshakes>, k: nat)
    requires Run(es, hs) && k <= |es|
    ensures hs[k].max == hs[0].max && WithinCapacity(hs[k])
  {
    hide Step;
    if k > 0 {
      RunBounded(es, hs, k - 1);
      StepWithin(hs[k - 1], es[k - 1]);
      assert hs[k] == Step(hs[k - 1], es[k - 1]);
    }
  }

  lemma NoMore<T>(a: set<T>, b: set<T>)
    requires a <= b
    ensures |a| <= |b|
  {
    assert b == a + (b - a);
  }
}
