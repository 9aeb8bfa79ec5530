/** Choice of message queues for a send: TopicPublishInfo.cpp and the queue choice of ProducerImpl::send. */
module PublishInfo {
  import opened Base
  import opened Modular
  import opened Ordering
  import opened RouteData

  /** Number of values of the 32-bit round-robin counter. */
  const COUNTER_MODULUS: nat := UINT32_MODULUS

  const MASTER_BROKER_ID: int := 0

  // ---- The round-robin scan ----

  /** Position visited in step `i` of a scan over `n` partitions that starts with counter value `start`. */
  function Visited(start: nat, i: nat, n: nat): (p: nat)
    requires n > 0
    ensures p < n
  {
    ((start + i) % COUNTER_MODULUS) % n
  }

  ghost predicate Reaches(start: nat, n: nat, p: nat)
    requires n > 0
  {
    exists i: nat :: i < n && Visited(start, i, n) == p
  }

  ghost predicate Covers(start: nat, n: nat)
    requires n > 0
  {
    forall p: nat :: p < n ==> Reaches(start, n, p)
  }

  /** Every residue is reached within `n` steps. */
  lemma StepsTo(start: nat, n: nat, p: nat) returns (i: nat)
    requires p < n
    ensures i < n && (start + i) % n == p
  {
    var q, s := start / n, start % n;
    if s <= p {
      i := p - s;
      ModUnique(start + i, q, n, p);
    } else {
      i := p + n - s;
      assert n * (q + 1) == n * q + n;
      ModUnique(start + i, q + 1, n, p);
    }
  }

  lemma NoWrapCovers(start: nat, n: nat)
    requires n > 0 && start < COUNTER_MODULUS
    requires start + n <= COUNTER_MODULUS || COUNTER_MODULUS % n == 0
    ensures Covers(start, n)
  {
    forall p: nat | p < n ensures Reaches(start, n, p) {
      var i := StepsTo(start, n, p);
      if COUNTER_MODULUS % n == 0 {
        ModOfMultiple(start + i, n, COUNTER_MODULUS);
      }
      assert Visited(start, i, n) == p;
    }
  }

  /** The position a wrapping scan passes over. */
  function Missed(start: nat, n: nat): nat
    requires n > 0 && start < COUNTER_MODULUS && start + n > COUNTER_MODULUS
  {
    var r, beyond := COUNTER_MODULUS % n, start + n - COUNTER_MODULUS;
    if n > COUNTER_MODULUS || beyond + r > n then n - 1 else beyond + r - 1
  }

  lemma HighResidue(w: nat, n: nat, d: nat)
    requires 0 < n <= w && d <= n
    ensures (w - d) % n == if d <= w % n then w % n - d else n + w % n - d
  {
    var q, r := w / n, w % n;
    if d <= r {
      ModUnique(w - d, q, n, r - d);
    } else {
      assert n * (q - 1) == n * q - n;
      ModUnique(w - d, q - 1, n, n + r - d);
    }
  }

  lemma VisitedAroundWrap(start: nat, n: nat, i: nat)
    requires start < COUNTER_MODULUS && 0 < n <= COUNTER_MODULUS && i < n
    ensures start + i < COUNTER_MODULUS ==> Visited(start, i, n) == (start + i) % n
    ensures start + i >= COUNTER_MODULUS ==> Visited(start, i, n) == start + i - COUNTER_MODULUS
  {
    if start + i >= COUNTER_MODULUS {
      ModUnique(start + i, 1, COUNTER_MODULUS, start + i - COUNTER_MODULUS);
      ModUnique(start + i - COUNTER_MODULUS, 0, n, start + i - COUNTER_MODULUS);
    }
  }

  lemma WrapMisses(start: nat, n: nat, i: nat)
    requires n > 0 && start < COUNTER_MODULUS
    requires start + n > COUNTER_MODULUS && COUNTER_MODULUS % n != 0
    requires i < n
    ensures Missed(start, n) < n && Visited(start, i, n) != Missed(start, n)
  {
    if n <= COUNTER_MODULUS {
      VisitedAroundWrap(start, n, i);
      if start + i < COUNTER_MODULUS {
        HighResidue(COUNTER_MODULUS, n, COUNTER_MODULUS - start - i);
      }
    } else {
      var v := (start + i) % COUNTER_MODULUS;
      ModUnique(v, 0, n, v);
    }
  }

  /** A scan visits every partition exactly if the counter does not wrap inside it, or the wrap falls on a multiple. */
  lemma CoverageIff(start: nat, n: nat)
    requires n > 0 && start < COUNTER_MODULUS
    ensures Covers(start, n) <==> start + n <= COUNTER_MODULUS || COUNTER_MODULUS % n == 0
  {
    if start + n <= COUNTER_MODULUS || COUNTER_MODULUS % n == 0 {
      NoWrapCovers(start, n);
    } else {
      forall i: nat | i < n ensures Visited(start, i, n) != Missed(start, n) {
        WrapMisses(start, n, i);
      }
      WrapMisses(start, n, 0);
      assert !Reaches(start, n, Missed(start, n));
    }
  }

  // ---- takeMessageQueues ----

  predicate HasBroker(queues: seq<MessageQueue>, broker: string) {
    exists i :: 0 <= i < |queues| && queues[i].broker == broker
  }

  ghost predicate DistinctBrokers(queues: seq<MessageQueue>) {
    forall i, j :: 0 <= i < j < |queues| ==> queues[i].broker != queues[j].broker
  }

  /** One step of the scan: the new candidates, and whether there are enough of them. */
  function Consider(candidates: seq<MessageQueue>, q: MessageQueue, isolated: set<string>, count: nat)
    : (seq<MessageQueue>, bool)
  {
    if q.serviceAddress in isolated then (candidates, false)
    else
      var after := if HasBroker(candidates, q.broker) then candidates else candidates + [q];
      (after, |after| >= count)
  }

  /** Candidates after the first `steps` steps of the scan, and whether it has stopped. */
  function Taken(list: seq<Partition>, start: nat, isolated: set<string>, candidates: seq<MessageQueue>, count: nat,
                 steps: nat): (seq<MessageQueue>, bool)
    requires list != []
    decreases steps
  {
    if steps == 0 then (candidates, false)
    else
      var before := Taken(list, start, isolated, candidates, count, steps - 1);
      if before.1 then before
      else Consider(before.0, list[Visited(start, steps - 1, |list|)].AsMessageQueue(), isolated, count)
  }

  /** A queue of a partition whose endpoint is not isolated. */
  ghost predicate ActiveQueue(list: seq<Partition>, isolated: set<string>, q: MessageQueue) {
    q.serviceAddress !in isolated && exists k :: 0 <= k < |list| && list[k].AsMessageQueue() == q
  }

  /** Distinct brokers, all active, and no more queues than asked for. */
  ghost predicate Selection(list: seq<Partition>, isolated: set<string>, count: nat, r: seq<MessageQueue>) {
    && |r| <= count && DistinctBrokers(r)
    && forall q :: q in r ==> ActiveQueue(list, isolated, q)
  }

  lemma ConsiderSound(list: seq<Partition>, isolated: set<string>, count: nat, r: seq<MessageQueue>, k: nat)
    requires k < |list| && Selection(list, isolated, count, r) && |r| < count
    ensures var q := list[k].AsMessageQueue();
            var (after, full) := Consider(r, q, isolated, count);
            && Selection(list, isolated, count, after) && (full <==> |after| == count)
            && (forall b :: HasBroker(r, b) ==> HasBroker(after, b))
            && (q.serviceAddress !in isolated ==> HasBroker(after, q.broker))
  {
    var q := list[k].AsMessageQueue();
    var after := Consider(r, q, isolated, count).0;
    if q.serviceAddress !in isolated && !HasBroker(r, q.broker) {
      assert after[|r|].broker == q.broker;
      assert ActiveQueue(list, isolated, q);
    }
    forall b | HasBroker(r, b) ensures HasBroker(after, b) {
      var j :| 0 <= j < |r| && r[j].broker == b;
      assert after[j].broker == b;
    }
  }

  /** Every active partition visited in the first `steps` steps has its broker among the candidates. */
  ghost predicate SeenTaken(list: seq<Partition>, start: nat, isolated: set<string>, steps: nat, r: seq<MessageQueue>)
    requires list != []
  {
    forall i: nat :: i < steps ==>
      var q := list[Visited(start, i, |list|)].AsMessageQueue();
      q.serviceAddress !in isolated ==> HasBroker(r, q.broker)
  }

  lemma SeenGrows(list: seq<Partition>, start: nat, isolated: set<string>, steps: nat, r: seq<MessageQueue>,
                  after: seq<MessageQueue>)
    requires list != [] && SeenTaken(list, start, isolated, steps, r)
    requires forall b :: HasBroker(r, b) ==> HasBroker(after, b)
    requires var q := list[Visited(start, steps, |list|)].AsMessageQueue();
             q.serviceAddress !in isolated ==> HasBroker(after, q.broker)
    ensures SeenTaken(list, start, isolated, steps + 1, after)
  {}

  /** What a selection from an empty candidate list guarantees after any number of steps. */
  ghost predicate SoundAfter(list: seq<Partition>, start: nat, isolated: set<string>, count: nat, steps: nat,
                             r: seq<MessageQueue>, full: bool)
    requires list != []
  {
    && Selection(list, isolated, count, r) && (full <==> |r| == count)
    && (!full ==> SeenTaken(list, start, isolated, steps, r))
  }

  lemma SoundStep(list: seq<Partition>, start: nat, isolated: set<string>, count: nat, steps: nat, r: seq<MessageQueue>)
    requires list != [] && SoundAfter(list, start, isolated, count, steps, r, false)
    ensures var (after, full) := Consider(r, QueueAt(list, start, steps), isolated, count);
            SoundAfter(list, start, isolated, count, steps + 1, after, full)
  {
    var k := Visited(start, steps, |list|);
    ConsiderSound(list, isolated, count, r, k);
    SeenGrows(list, start, isolated, steps, r, Consider(r, list[k].AsMessageQueue(), isolated, count).0);
  }

  lemma {:induction false} TakenSound(list: seq<Partition>, start: nat, isolated: set<string>, count: nat, steps: nat)
    requires list != [] && count >= 1
    ensures var (r, full) := Taken(list, start, isolated, [], count, steps);
            SoundAfter(list, start, isolated, count, steps, r, full)
  {
    if steps > 0 {
      TakenSound(list, start, isolated, count, steps - 1);
      var (before, full) := Taken(list, start, isolated, [], count, steps - 1);
      if !full {
        SoundStep(list, start, isolated, count, steps - 1, before);
      }
    }
  }

  /** The queue visited in step `i` of a scan. */
  function QueueAt(list: seq<Partition>, start: nat, i: nat): MessageQueue
    requires list != []
  {
    list[Visited(start, i, |list|)].AsMessageQueue()
  }

  /** Step `i` is the first to visit an active queue of its broker, and `q` is that queue. */
  ghost predicate TakenAt(list: seq<Partition>, start: nat, isolated: set<string>, i: nat, q: MessageQueue)
    requires list != []
  {
    && q == QueueAt(list, start, i) && q.serviceAddress !in isolated
    && forall j: nat :: j < i && QueueAt(list, start, j).serviceAddress !in isolated ==>
         QueueAt(list, start, j).broker != q.broker
  }

  /** The queues taken are those of the given steps, in that order. */
  ghost predicate TakenIn(list: seq<Partition>, start: nat, isolated: set<string>, steps: nat, r: seq<MessageQueue>,
                          at: seq<nat>)
    requires list != []
  {
    && |at| == |r|
    && (forall k :: 0 <= k < |r| ==> at[k] < steps && TakenAt(list, start, isolated, at[k], r[k]))
    && (forall k, l :: 0 <= k < l < |at| ==> at[k] < at[l])
  }

  lemma TakenInGrows(list: seq<Partition>, start: nat, isolated: set<string>, steps: nat, r: seq<MessageQueue>,
                     at: seq<nat>)
    requires list != [] && TakenIn(list, start, isolated, steps, r, at) && SeenTaken(list, start, isolated, steps, r)
    requires var q := QueueAt(list, start, steps); q.serviceAddress !in isolated && !HasBroker(r, q.broker)
    ensures TakenIn(list, start, isolated, steps + 1, r + [QueueAt(list, start, steps)], at + [steps])
  {
    var q := QueueAt(list, start, steps);
    assert TakenAt(list, start, isolated, steps, q);
  }

  /**
   * A selection takes, of each broker, the active queue that the scan meets first, and the brokers in the order in
   * which the scan meets them.
   */
  lemma {:induction false} TakenEarliest(list: seq<Partition>, start: nat, isolated: set<string>, count: nat,
                                         steps: nat)
    returns (at: seq<nat>)
    requires list != [] && count >= 1
    ensures TakenIn(list, start, isolated, steps, Taken(list, start, isolated, [], count, steps).0, at)
  {
    if steps == 0 {
      at := [];
    } else {
      at := TakenEarliest(list, start, isolated, count, steps - 1);
      TakenSound(list, start, isolated, count, steps - 1);
      var (before, full) := Taken(list, start, isolated, [], count, steps - 1);
      var q := QueueAt(list, start, steps - 1);
      if !full && q.serviceAddress !in isolated && !HasBroker(before, q.broker) {
        TakenInGrows(list, start, isolated, steps - 1, before, at);
        at := at + [steps - 1];
      }
    }
  }

  /** A short selection already holds every broker that owns an active partition. */
  ghost predicate Complete(list: seq<Partition>, isolated: set<string>, count: nat, r: seq<MessageQueue>) {
    |r| < count ==>
      forall p :: p in list && p.broker.serviceAddress !in isolated ==> HasBroker(r, p.broker.name)
  }

  /** Every selection over every list of length `n` is complete. */
  ghost predicate AlwaysComplete(start: nat, n: nat)
    requires n > 0
  {
    forall list: seq<Partition>, isolated: set<string>, count: nat :: |list| == n && count >= 1 ==>
      Complete(list, isolated, count, Taken(list, start, isolated, [], count, n).0)
  }

  lemma CoveredIsComplete(start: nat, list: seq<Partition>, isolated: set<string>, count: nat)
    requires list != [] && count >= 1 && Covers(start, |list|)
    ensures Complete(list, isolated, count, Taken(list, start, isolated, [], count, |list|).0)
  {
    TakenSound(list, start, isolated, count, |list|);
    var r := Taken(list, start, isolated, [], count, |list|).0;
    if |r| < count {
      forall p | p in list && p.broker.serviceAddress !in isolated ensures HasBroker(r, p.broker.name) {
        var k :| 0 <= k < |list| && list[k] == p;
        assert Reaches(start, |list|, k);
        var i: nat :| i < |list| && Visited(start, i, |list|) == k;
      }
    }
  }

  /** A list whose only active partition sits where the scan does not look. */
  function OneActive(n: nat, where: nat): (list: seq<Partition>)
    requires where < n
    ensures |list| == n
  {
    seq(n, i => Partition(Topic("", "t"), if i == where then Broker("up", 0, "up") else Broker("down", 0, "down"),
                          0, ReadWrite))
  }

  lemma {:induction false} NothingTaken(start: nat, n: nat, where: nat, steps: nat)
    requires where < n && steps <= n
    requires forall i: nat :: i < n ==> Visited(start, i, n) != where
    ensures Taken(OneActive(n, where), start, {"down"}, [], 1, steps) == ([], false)
  {
    if steps > 0 {
      NothingTaken(start, n, where, steps - 1);
    }
  }

  /** takeMessageQueues is complete on lists of length `n` exactly when its scan neither wraps nor wraps unevenly. */
  lemma CompleteIff(start: nat, n: nat)
    requires n > 0 && start < COUNTER_MODULUS
    ensures AlwaysComplete(start, n) <==> start + n <= COUNTER_MODULUS || COUNTER_MODULUS % n == 0
  {
    CoverageIff(start, n);
    if Covers(start, n) {
      forall list: seq<Partition>, isolated: set<string>, count: nat | |list| == n && count >= 1
        ensures Complete(list, isolated, count, Taken(list, start, isolated, [], count, n).0)
      {
        CoveredIsComplete(start, list, isolated, count);
      }
    } else {
      var where: nat :| where < n && !Reaches(start, n, where);
      NothingTaken(start, n, where, n);
      var list := OneActive(n, where);
      assert list[where] in list;
      assert !Complete(list, {"down"}, 1, Taken(list, start, {"down"}, [], 1, n).0);
    }
  }

  // ---- Writable partitions and the sorted queue list ----

  predicate Writable(p: Partition) {
    p.permission != Read && p.permission != NoAccess && p.broker.id == MASTER_BROKER_ID
  }

  function WritablePartitions(ps: seq<Partition>): (r: seq<Partition>)
    ensures forall p :: p in r <==> p in ps && Writable(p)
  {
    if ps == [] then []
    else
      var rest := WritablePartitions(ps[..|ps| - 1]);
      if Writable(ps[|ps| - 1]) then rest + [ps[|ps| - 1]] else rest
  }

  /** Queues offered to a keyed send, before sorting: writable ones with a resolved address. */
  function OfferedQueues(ps: seq<Partition>): (r: seq<MessageQueue>)
    ensures forall q :: q in r ==> exists p :: p in ps && q == p.AsMessageQueue()
  {
    if ps == [] then []
    else
      var rest, p := OfferedQueues(ps[..|ps| - 1]), ps[|ps| - 1];
      if p.permission == Read || p.permission == NoAccess || p.broker.serviceAddress == "" then rest
      else rest + [p.AsMessageQueue()]
  }

  /** The published list after a route update: an update without writable partitions is skipped. */
  function Published(previous: seq<Partition>, route: seq<Partition>): (r: seq<Partition>)
    ensures forall p :: p in r ==> p in previous || (p in route && Writable(p))
  {
    if WritablePartitions(route) == [] then previous else WritablePartitions(route)
  }

  /** What a producer may write to: a master's partition with the permission Write or ReadWrite. */
  predicate MayWrite(p: Partition) {
    (p.permission == Write || p.permission == ReadWrite) && p.broker.id == 0
  }

  /** The writable partitions are published, all of them and in the route's order, unless there is none. */
  lemma PublishedIs(previous: seq<Partition>, route: seq<Partition>)
    ensures if exists p :: p in route && MayWrite(p)
            then forall p :: p in Published(previous, route) <==> p in route && MayWrite(p)
            else Published(previous, route) == previous
  {
    assert forall p :: MayWrite(p) == Writable(p);
    var w := WritablePartitions(route);
    if w != [] {
      assert w[0] in w;
    }
  }

  lemma {:induction false} WritableInOrder(ps: seq<Partition>, more: seq<Partition>)
    ensures WritablePartitions(ps + more) == WritablePartitions(ps) + WritablePartitions(more)
    decreases |more|
  {
    if more == [] {
      assert ps + more == ps;
    } else {
      var front, all := more[..|more| - 1], ps + more;
      WritableInOrder(ps, front);
      assert all[..|all| - 1] == ps + front && all[|all| - 1] == more[|more| - 1];
    }
  }

  /** A keyed send is offered, in list order, the queues with permission Write or ReadWrite and an address. */
  lemma {:induction false} OfferedInOrder(ps: seq<Partition>, more: seq<Partition>)
    ensures OfferedQueues(ps + more) == OfferedQueues(ps) + OfferedQueues(more)
    decreases |more|
  {
    if more == [] {
      assert ps + more == ps;
    } else {
      var front, all := more[..|more| - 1], ps + more;
      OfferedInOrder(ps, front);
      assert all[..|all| - 1] == ps + front && all[|all| - 1] == more[|more| - 1];
    }
  }

  /** What the two lists make of a single partition. */
  lemma OnePartition(p: Partition)
    ensures WritablePartitions([p]) == if MayWrite(p) then [p] else []
    ensures OfferedQueues([p]) ==
            if (p.permission == Write || p.permission == ReadWrite) && p.broker.serviceAddress != ""
            then [MessageQueue(p.topic.name, p.broker.name, p.id, p.broker.serviceAddress)] else []
  {
    assert [p][..0] == [];
  }

  /** Which queues a keyed send is offered. */
  lemma {:induction false} OfferedIff(ps: seq<Partition>, q: MessageQueue)
    ensures q in OfferedQueues(ps) <==>
            exists p :: p in ps && (p.permission == Write || p.permission == ReadWrite)
                        && p.broker.serviceAddress != "" && q == p.AsMessageQueue()
  {
    if ps != [] {
      var front, last := ps[..|ps| - 1], ps[|ps| - 1];
      OfferedIff(front, q);
      assert ps == front + [last];
      assert forall p :: p in ps <==> p in front || p == last;
    }
  }

  lemma OfferedQueuesCanonical(ps: seq<Partition>, l1: seq<MessageQueue>, l2: seq<MessageQueue>)
    requires KeysIdentify(ps)
    requires SortOf(l1, OfferedQueues(ps), QueueLess) && SortOf(l2, OfferedQueues(ps), QueueLess)
    ensures l1 == l2
  {
    SameMembers(l1, OfferedQueues(ps));
    forall x, y | x in l1 && y in l1 && Incomparable(QueueLess, x, y) ensures x == y {
      QueueIncomparable(x, y);
      assert x in OfferedQueues(ps) && y in OfferedQueues(ps);
      var px :| px in ps && x == px.AsMessageQueue();
      var py :| py in ps && y == py.AsMessageQueue();
    }
    SortIsCanonical(l1, l2, QueueLess);
  }

  /** The queue of a message group: its hash modulo the length of the sorted list. */
  function GroupQueue(hash: nat, list: seq<MessageQueue>): (q: MessageQueue)
    requires list != []
    ensures q in list
  {
    list[hash % |list|]
  }

  /** Hashes run through the list in order, over and over. */
  lemma GroupQueueCycles(hash: nat, list: seq<MessageQueue>)
    requires list != []
    ensures hash < |list| ==> GroupQueue(hash, list) == list[hash]
    ensures GroupQueue(hash + |list|, list) == GroupQueue(hash, list)
  {
    ModShift(hash, 1, |list|);
    if hash < |list| {
      ModUnique(hash, 0, |list|, hash);
    }
  }

  /**
   * Message-group stickiness. Two name-server replies with the same partitions in any order publish the same list,
   * whatever std::sort does with them, and a message group is sent to the same queue under both.
   */
  lemma GroupIsSticky(p1: seq<Partition>, p2: seq<Partition>, r1: seq<Partition>, r2: seq<Partition>,
                      previous: seq<Partition>, l1: seq<MessageQueue>, l2: seq<MessageQueue>, hash: nat)
    requires multiset(p1) == multiset(p2) && KeysIdentify(p1) && KeysIdentify(previous)
    requires SortOf(r1, p1, PartitionLess) && SortOf(r2, p2, PartitionLess)
    requires SortOf(l1, OfferedQueues(Published(previous, r1)), QueueLess)
    requires SortOf(l2, OfferedQueues(Published(previous, r2)), QueueLess)
    ensures r1 == r2 && l1 == l2
    ensures l1 != [] ==> GroupQueue(hash, l1) == GroupQueue(hash, l2)
  {
    RouteIsIdentical(p1, p2, r1, r2);
    assert KeysIdentify(Published(previous, r1));
    OfferedQueuesCanonical(Published(previous, r1), l1, l2);
  }

  class TopicPublishInfo {
    const topic: string
    var partitionList: seq<Partition>
    /** thread_local in the source: the counter of the calling thread. */
    var sendWhichQueue: nat

    ghost predicate Valid()
      reads this
    {
      sendWhichQueue < COUNTER_MODULUS
    }

    method UpdatePublishInfo(route: seq<Partition>)
      requires Valid()
      requires forall p :: p in route ==> p.topic.name == topic
      modifies this`partitionList
      ensures Valid()
      ensures partitionList == Published(old(partitionList), route)
    {
      var writable := [];
      for i := 0 to |route|
        invariant writable == WritablePartitions(route[..i])
      {
        var p := route[i];
        assert route[..i + 1][..i] == route[..i];
        if p.permission == Read || p.permission == NoAccess || p.broker.id != MASTER_BROKER_ID {
          continue;
        }
        writable := writable + [p];
      }
      assert route[..|route|] == route;
      if writable == [] {
        return;
      }
      partitionList := writable;
    }

    method GetMessageQueueList() returns (list: seq<MessageQueue>)
      ensures SortOf(list, OfferedQueues(partitionList), QueueLess)
    {
      var offered := [];
      for i := 0 to |partitionList|
        invariant offered == OfferedQueues(partitionList[..i])
      {
        var p := partitionList[i];
        assert partitionList[..i + 1][..i] == partitionList[..i];
        if p.permission == Read || p.permission == NoAccess || p.AsMessageQueue().serviceAddress == "" {
          continue;
        }
        offered := offered + [p.AsMessageQueue()];
      }
      assert partitionList[..|partitionList|] == partitionList;
      QueueOrder();
      list := Sort(offered, QueueLess);
    }

    method TakeMessageQueues(isolated: set<string>, candidates: seq<MessageQueue>, count: nat)
      returns (ok: bool, r: seq<MessageQueue>)
      requires Valid()
      modifies this`sendWhichQueue
      ensures Valid() && sendWhichQueue == (old(sendWhichQueue) + 1) % COUNTER_MODULUS
      ensures partitionList == [] ==> !ok && r == candidates
      ensures partitionList != [] ==>
                && ok == (r != [])
                && r == Taken(partitionList, sendWhichQueue, isolated, candidates, count, |partitionList|).0
    {
      sendWhichQueue := (sendWhichQueue + 1) % COUNTER_MODULUS;
      r := candidates;
      if partitionList == [] {
        return false, r;
      }
      r := Scan(partitionList, sendWhichQueue, isolated, candidates, count);
      ok := r != [];
    }
  }

  /** The counter is advanced modulo its width in every step, as `index++` on an unsigned int is. */
  method Advance(index: nat, ghost start: nat, ghost i: nat) returns (next: nat)
    requires index == (start + i) % COUNTER_MODULUS
    ensures next == (start + i + 1) % COUNTER_MODULUS
  {
    ModAdd(start + i, 1, COUNTER_MODULUS);
    next := (index + 1) % COUNTER_MODULUS;
  }

  method Scan(list: seq<Partition>, start: nat, isolated: set<string>, candidates: seq<MessageQueue>, count: nat)
    returns (r: seq<MessageQueue>)
    requires list != [] && start < COUNTER_MODULUS
    ensures r == Taken(list, start, isolated, candidates, count, |list|).0
  {
    var index := start;
    r := candidates;
    for i := 0 to |list|
      invariant index == (start + i) % COUNTER_MODULUS
      invariant (r, false) == Taken(list, start, isolated, candidates, count, i)
    {
      var q := list[index % |list|].AsMessageQueue();
      if q.serviceAddress !in isolated {
        if !HasBroker(r, q.broker) {
          r := r + [q];
        }
        if |r| >= count {
          TakenStays(list, start, isolated, candidates, count, i + 1, |list|);
          return;
        }
      }
      index := Advance(index, start, i);
    }
  }

  lemma {:induction false} TakenStays(list: seq<Partition>, start: nat, isolated: set<string>,
                                      candidates: seq<MessageQueue>, count: nat, i: nat, j: nat)
    requires list != [] && i <= j
    requires Taken(list, start, isolated, candidates, count, i).1
    ensures Taken(list, start, isolated, candidates, count, j) == Taken(list, start, isolated, candidates, count, i)
    decreases j
  {
    if i < j {
      TakenStays(list, start, isolated, candidates, count, i, j - 1);
    }
  }
}
