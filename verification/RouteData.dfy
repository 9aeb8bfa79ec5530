/** Routes of a topic: Topic.h, Broker.h, Partition.h, MQMessageQueue.h and TopicRouteData.h. */
module RouteData {
  import opened Ordering

  datatype Topic = Topic(resourceNamespace: string, name: string)

  datatype Broker = Broker(name: string, id: int, serviceAddress: string)

  datatype Permission = NoAccess | Read | Write | ReadWrite

  datatype Partition = Partition(topic: Topic, broker: Broker, id: int, permission: Permission) {
    function AsMessageQueue(): MessageQueue {
      MessageQueue(topic.name, broker.name, id, broker.serviceAddress)
    }
  }

  /** Only (topic, broker, id) take part in comparison and hashing; the address is carried along. */
  datatype MessageQueue = MessageQueue(topic: string, broker: string, id: int, serviceAddress: string) {
    function Key(): QueueKey {
      QueueKey(topic, broker, id)
    }
  }

  datatype QueueKey = QueueKey(topic: string, broker: string, id: int)

  predicate TopicLess(a: Topic, b: Topic) {
    if StrLess(a.resourceNamespace, b.resourceNamespace) then true
    else if StrLess(b.resourceNamespace, a.resourceNamespace) then false
    else StrLess(a.name, b.name)
  }

  predicate PartitionLess(a: Partition, b: Partition) {
    if TopicLess(a.topic, b.topic) then true
    else if TopicLess(b.topic, a.topic) then false
    else if StrLess(a.broker.name, b.broker.name) then true
    else if StrLess(b.broker.name, a.broker.name) then false
    else a.id < b.id
  }

  predicate PartitionEq(a: Partition, b: Partition) {
    a.topic == b.topic && a.id == b.id && a.broker.name == b.broker.name && a.permission == b.permission
  }

  predicate QueueLess(a: MessageQueue, b: MessageQueue) {
    if a.topic != b.topic then StrLess(a.topic, b.topic)
    else if a.broker != b.broker then StrLess(a.broker, b.broker)
    else a.id < b.id
  }

  /** TopicRouteData::operator== compares the sorted partitions with Partition::operator==. */
  predicate RouteEq(a: seq<Partition>, b: seq<Partition>) {
    |a| == |b| && forall i :: 0 <= i < |a| ==> PartitionEq(a[i], b[i])
  }

  // ---- Both orders are strict weak orders whose equivalence is equality of keys ----

  lemma TopicLessTotal(a: Topic, b: Topic)
    ensures !(TopicLess(a, b) && TopicLess(b, a))
    ensures !TopicLess(a, b) && !TopicLess(b, a) <==> a == b
  {
    StrLessTotal(a.resourceNamespace, b.resourceNamespace);
    StrLessTotal(a.name, b.name);
  }

  lemma TopicLessTransitive(a: Topic, b: Topic, c: Topic)
    requires TopicLess(a, b) && TopicLess(b, c)
    ensures TopicLess(a, c)
  {
    StrLessTotal(a.resourceNamespace, b.resourceNamespace);
    StrLessTotal(b.resourceNamespace, c.resourceNamespace);
    StrLessTotal(a.resourceNamespace, c.resourceNamespace);
    if StrLess(a.resourceNamespace, b.resourceNamespace) && StrLess(b.resourceNamespace, c.resourceNamespace) {
      StrLessTransitive(a.resourceNamespace, b.resourceNamespace, c.resourceNamespace);
    }
    if StrLess(a.name, b.name) && StrLess(b.name, c.name) {
      StrLessTransitive(a.name, b.name, c.name);
    }
  }

  lemma PartitionIncomparable(a: Partition, b: Partition)
    ensures Incomparable(PartitionLess, a, b) <==> a.topic == b.topic && a.broker.name == b.broker.name && a.id == b.id
    ensures !(PartitionLess(a, b) && PartitionLess(b, a))
  {
    TopicLessTotal(a.topic, b.topic);
    StrLessTotal(a.broker.name, b.broker.name);
  }

  lemma PartitionLessTransitive(a: Partition, b: Partition, c: Partition)
    requires PartitionLess(a, b) && PartitionLess(b, c)
    ensures PartitionLess(a, c)
  {
    TopicLessTotal(a.topic, b.topic);
    TopicLessTotal(b.topic, c.topic);
    TopicLessTotal(a.topic, c.topic);
    if TopicLess(a.topic, b.topic) && TopicLess(b.topic, c.topic) {
      TopicLessTransitive(a.topic, b.topic, c.topic);
    }
    StrLessTotal(a.broker.name, b.broker.name);
    StrLessTotal(b.broker.name, c.broker.name);
    if StrLess(a.broker.name, b.broker.name) && StrLess(b.broker.name, c.broker.name) {
      StrLessTransitive(a.broker.name, b.broker.name, c.broker.name);
    }
    StrLessTotal(a.broker.name, c.broker.name);
  }

  lemma PartitionOrder()
    ensures StrictWeakOrder(PartitionLess)
  {
    forall x, y
      ensures Incomparable(PartitionLess, x, y) <==>
              x.topic == y.topic && x.broker.name == y.broker.name && x.id == y.id
    {
      PartitionIncomparable(x, y);
    }
    forall x ensures !PartitionLess(x, x) {
      PartitionIncomparable(x, x);
    }
    forall x, y, z | PartitionLess(x, y) && PartitionLess(y, z) ensures PartitionLess(x, z) {
      PartitionLessTransitive(x, y, z);
    }
  }

  lemma QueueIncomparable(a: MessageQueue, b: MessageQueue)
    ensures Incomparable(QueueLess, a, b) <==> a.Key() == b.Key()
  {
    StrLessTotal(a.topic, b.topic);
    StrLessTotal(a.broker, b.broker);
  }

  lemma QueueLessTransitive(a: MessageQueue, b: MessageQueue, c: MessageQueue)
    requires QueueLess(a, b) && QueueLess(b, c)
    ensures QueueLess(a, c)
  {
    StrLessTotal(a.topic, b.topic);
    StrLessTotal(a.broker, b.broker);
    if StrLess(a.topic, b.topic) && StrLess(b.topic, c.topic) {
      StrLessTransitive(a.topic, b.topic, c.topic);
      StrLessTotal(a.topic, c.topic);
    }
    if StrLess(a.broker, b.broker) && StrLess(b.broker, c.broker) {
      StrLessTransitive(a.broker, b.broker, c.broker);
      StrLessTotal(a.broker, c.broker);
    }
  }

  lemma QueueOrder()
    ensures StrictWeakOrder(QueueLess)
  {
    forall x, y ensures Incomparable(QueueLess, x, y) <==> x.Key() == y.Key() {
      QueueIncomparable(x, y);
    }
    forall x ensures !QueueLess(x, x) {
      QueueIncomparable(x, x);
    }
    forall x, y, z | QueueLess(x, y) && QueueLess(y, z) ensures QueueLess(x, z) {
      QueueLessTransitive(x, y, z);
    }
  }

  /** Partitions ascend by namespace, then topic, then broker name, then id. */
  lemma PartitionLessIff(a: Partition, b: Partition)
    ensures PartitionLess(a, b) <==>
            || StrLess(a.topic.resourceNamespace, b.topic.resourceNamespace)
            || (a.topic.resourceNamespace == b.topic.resourceNamespace && StrLess(a.topic.name, b.topic.name))
            || (a.topic == b.topic && StrLess(a.broker.name, b.broker.name))
            || (a.topic == b.topic && a.broker.name == b.broker.name && a.id < b.id)
  {
    TopicLessTotal(a.topic, b.topic);
    StrLessTotal(a.topic.resourceNamespace, b.topic.resourceNamespace);
    StrLessTotal(a.topic.name, b.topic.name);
    StrLessTotal(a.broker.name, b.broker.name);
  }

  /** Queues ascend by topic, then broker, then id. */
  lemma QueueLessIff(a: MessageQueue, b: MessageQueue)
    ensures QueueLess(a, b) <==>
            || StrLess(a.topic, b.topic)
            || (a.topic == b.topic && StrLess(a.broker, b.broker))
            || (a.topic == b.topic && a.broker == b.broker && a.id < b.id)
  {
    StrLessTotal(a.topic, b.topic);
    StrLessTotal(a.broker, b.broker);
  }

  /** No two different partitions of a route share (topic name, broker name, id). */
  ghost predicate KeysIdentify(ps: seq<Partition>) {
    forall x, y :: x in ps && y in ps && x.AsMessageQueue().Key() == y.AsMessageQueue().Key() ==> x == y
  }

  lemma KeysIdentifyOrder(ps: seq<Partition>)
    requires KeysIdentify(ps)
    ensures OrderIdentifies(ps, PartitionLess)
  {
    forall x, y | x in ps && y in ps && Incomparable(PartitionLess, x, y) ensures x == y {
      PartitionIncomparable(x, y);
    }
  }

  /** Name servers may list the partitions in any order: the route built from them is the same, addresses included. */
  lemma RouteIsIdentical(p1: seq<Partition>, p2: seq<Partition>, r1: seq<Partition>, r2: seq<Partition>)
    requires multiset(p1) == multiset(p2) && KeysIdentify(p1)
    requires SortOf(r1, p1, PartitionLess) && SortOf(r2, p2, PartitionLess)
    ensures r1 == r2 && KeysIdentify(r1)
  {
    SameMembers(p1, r1);
    assert KeysIdentify(r1);
    KeysIdentifyOrder(r1);
    SortIsCanonical(r1, r2, PartitionLess);
  }

  // ---- When routes are equal by the client's own equality ----

  /** Same topic, broker name and id: the order cannot tell the two apart. */
  predicate SameKey(a: Partition, b: Partition) {
    a.topic == b.topic && a.broker.name == b.broker.name && a.id == b.id
  }

  /** Partitions that the order cannot tell apart have the same permission. */
  ghost predicate KeysFixPermission(ps: seq<Partition>) {
    forall x, y :: x in ps && y in ps && SameKey(x, y) ==> x.permission == y.permission
  }

  /** The part of a partition that the order looks at. */
  function Bare(p: Partition): Partition {
    Partition(p.topic, Broker(p.broker.name, 0, ""), p.id, NoAccess)
  }

  lemma BareSorted(p: seq<Partition>)
    requires Sorted(p, PartitionLess)
    ensures Sorted(Mapped(p, Bare), PartitionLess) && OrderIdentifies(Mapped(p, Bare), PartitionLess)
  {
    var m := Mapped(p, Bare);
    forall i, j | 0 <= i < j < |m| ensures !PartitionLess(m[j], m[i]) {
      assert PartitionLess(m[j], m[i]) == PartitionLess(p[j], p[i]);
    }
    forall x, y | x in m && y in m && Incomparable(PartitionLess, x, y) ensures x == y {
      PartitionIncomparable(x, y);
    }
  }

  /** Any two sorts of the same partitions have the same keys in the same places. */
  lemma SortsAlign(p: seq<Partition>, q: seq<Partition>)
    requires multiset(p) == multiset(q) && Sorted(p, PartitionLess) && Sorted(q, PartitionLess)
    ensures |p| == |q| && forall i :: 0 <= i < |p| ==> SameKey(p[i], q[i])
  {
    MappedPermutes(p, q, Bare);
    BareSorted(p);
    BareSorted(q);
    SortIsCanonical(Mapped(p, Bare), Mapped(q, Bare), PartitionLess);
    assert |p| == |Mapped(p, Bare)| == |Mapped(q, Bare)| == |q|;
    forall i | 0 <= i < |p| ensures SameKey(p[i], q[i]) {
      assert Bare(p[i]) == Mapped(p, Bare)[i] == Mapped(q, Bare)[i] == Bare(q[i]);
    }
  }

  /** Routes built from permuted partitions are equal, whatever the addresses, if keys fix the permission. */
  lemma RouteIsCanonical(p1: seq<Partition>, p2: seq<Partition>, r1: seq<Partition>, r2: seq<Partition>)
    requires multiset(p1) == multiset(p2) && KeysFixPermission(p1)
    requires SortOf(r1, p1, PartitionLess) && SortOf(r2, p2, PartitionLess)
    ensures RouteEq(r1, r2)
  {
    SortsAlign(r1, r2);
    SameMembers(p1, r1);
    SameMembers(p1, r2);
    forall i | 0 <= i < |r1| ensures PartitionEq(r1[i], r2[i]) {
      assert r1[i] in p1 && r2[i] in p1;
    }
  }

  /** Two equivalent partitions with different permissions can change places, and the routes differ. */
  lemma OtherRoute(ps: seq<Partition>, p: seq<Partition>) returns (q: seq<Partition>)
    requires SortOf(p, ps, PartitionLess) && !KeysFixPermission(ps)
    ensures SortOf(q, ps, PartitionLess) && !RouteEq(p, q)
  {
    var x, y :| x in ps && y in ps && SameKey(x, y) && x.permission != y.permission;
    SameMembers(ps, p);
    var i :| 0 <= i < |p| && p[i] == x;
    var j :| 0 <= j < |p| && p[j] == y;
    var lo, hi := if i < j then i else j, if i < j then j else i;
    PartitionOrder();
    PartitionIncomparable(p[lo], p[hi]);
    SwapEquivalent(p, lo, hi, PartitionLess);
    q := p[lo := p[hi]][hi := p[lo]];
    assert !PartitionEq(p[lo], q[lo]);
  }

  /**
   * Every route that std::sort may build from these partitions equals the one it has built, by the client's own
   * equality, exactly if partitions with the same key have the same permission.
   */
  lemma RouteEqIff(ps: seq<Partition>, p: seq<Partition>)
    requires SortOf(p, ps, PartitionLess)
    ensures (forall q :: SortOf(q, ps, PartitionLess) ==> RouteEq(p, q)) <==> KeysFixPermission(ps)
  {
    if KeysFixPermission(ps) {
      forall q | SortOf(q, ps, PartitionLess) ensures RouteEq(p, q) {
        RouteIsCanonical(ps, ps, p, q);
      }
    } else {
      var q := OtherRoute(ps, p);
    }
  }

  /** The failing input: one key with two permissions. */
  lemma RouteOrderMatters(t: Topic, b: Broker, id: int)
    ensures var x, y := Partition(t, b, id, Read), Partition(t, b, id, Write);
            && multiset([x, y]) == multiset([y, x])
            && SortOf([x, y], [x, y], PartitionLess) && SortOf([y, x], [y, x], PartitionLess)
            && !RouteEq([x, y], [y, x])
  {
    var x, y := Partition(t, b, id, Read), Partition(t, b, id, Write);
    PartitionIncomparable(x, y);
    PartitionIncomparable(y, x);
    assert !PartitionEq([x, y][0], [y, x][0]);
  }

  class TopicRouteData {
    const partitions: seq<Partition>

    constructor (unordered: seq<Partition>)
      ensures SortOf(partitions, unordered, PartitionLess)
    {
      PartitionOrder();
      var sorted := Sort(unordered, PartitionLess);
      partitions := sorted;
    }
  }
}
