/** Reconciling the process-queue table with the load balancer's assignment: PushConsumerImpl::syncProcessQueue. */
module AssignmentSync {
  import opened Base
  import opened RouteData
  import opened ProcessQueues

  /** A process-queue object: its identity, and when its idle clock was last set. */
  datatype QueueObject = QueueObject(id: nat, idleSince: nat)

  /**
   * process_queue_table_, object identities used so far, the receives started, in order, and the identities of the
   * process-queue objects they were started for.
   */
  datatype Tables = Tables(table: map<QueueKey, Option<QueueObject>>, nextId: nat, received: seq<MessageQueue>,
                           objects: seq<nat>)

  predicate Assigned(list: seq<MessageQueue>, k: QueueKey) {
    exists i :: 0 <= i < |list| && list[i].Key() == k
  }

  /** The entry survives the first pass and its queue is not started again. */
  predicate Keeps(t: Tables, topic: string, list: seq<MessageQueue>, now: nat, k: QueueKey) {
    && k in t.table && k.topic == topic && Assigned(list, k)
    && t.table[k].Some? && !Expired(now, t.table[k].value.idleSince)
  }

  function Kept(t: Tables, topic: string, list: seq<MessageQueue>, now: nat): set<QueueKey> {
    set k | k in t.table && Keeps(t, topic, list, now, k)
  }

  /** First pass: entries of the topic that are not kept are erased. */
  function Purged(t: Tables, topic: string, list: seq<MessageQueue>, now: nat): Tables {
    t.(table := map k | k in t.table && (k.topic != topic || Keeps(t, topic, list, now, k)) :: t.table[k])
  }

  /** receiveMessage of an active consumer: find or create the process queue, then receive if the address is known. */
  function Begun(t: Tables, q: MessageQueue, now: nat): Tables {
    var t' := if q.Key() in t.table then t
              else t.(table := t.table[q.Key() := Some(QueueObject(t.nextId, now))], nextId := t.nextId + 1);
    if t'.table[q.Key()].None? || q.serviceAddress == "" then t'
    else t'.(received := t'.received + [q], objects := t'.objects + [t'.table[q.Key()].value.id])
  }

  /** Second pass over the first `n` assigned queues. */
  function BegunAll(t: Tables, list: seq<MessageQueue>, n: nat, kept: set<QueueKey>, now: nat): Tables
    requires n <= |list|
  {
    if n == 0 then t
    else
      var before := BegunAll(t, list, n - 1, kept, now);
      if list[n - 1].Key() in kept then before else Begun(before, list[n - 1], now)
  }

  /** syncProcessQueue as a whole. */
  function Synced(t: Tables, active: bool, topic: string, list: seq<MessageQueue>, now: nat): Tables {
    var purged := Purged(t, topic, list, now);
    if active then BegunAll(purged, list, |list|, Kept(t, topic, list, now), now) else purged
  }

  // ---- What a call achieves ----

  function Started(list: seq<MessageQueue>, n: nat, kept: set<QueueKey>): (r: seq<MessageQueue>)
    requires n <= |list|
  {
    if n == 0 then []
    else if list[n - 1].Key() in kept || list[n - 1].serviceAddress == "" then Started(list, n - 1, kept)
    else Started(list, n - 1, kept) + [list[n - 1]]
  }

  ghost predicate NoNull(t: Tables) {
    forall k :: k in t.table ==> t.table[k].Some? && t.table[k].value.id < t.nextId
  }

  /** `t'` has every entry of `t`, and otherwise only new objects, one for each key of `added`. */
  ghost predicate Extends(t: Tables, t': Tables, added: seq<MessageQueue>, now: nat) {
    && NoNull(t') && t.nextId <= t'.nextId
    && (forall k :: k in t'.table <==> k in t.table || Assigned(added, k))
    && (forall k :: k in t.table ==> t'.table[k] == t.table[k])
    && (forall k :: k in t'.table && k !in t.table ==>
          t'.table[k].value.idleSince == now && t'.table[k].value.id >= t.nextId)
    && (forall j, k :: j in t'.table && k in t'.table && j !in t.table && j != k ==>
          t'.table[j].value.id != t'.table[k].value.id)
  }

  lemma AssignedGrows(list: seq<MessageQueue>, q: MessageQueue, k: QueueKey)
    ensures Assigned(list + [q], k) <==> Assigned(list, k) || k == q.Key()
  {
    if Assigned(list, k) {
      var i :| 0 <= i < |list| && list[i].Key() == k;
      assert (list + [q])[i].Key() == k;
    }
    assert (list + [q])[|list|].Key() == q.Key();
  }

  lemma ExtendsKept(t: Tables, mid: Tables, added: seq<MessageQueue>, q: MessageQueue, now: nat)
    requires Extends(t, mid, added, now) && q.Key() in mid.table
    ensures Extends(t, mid, added + [q], now)
  {
    forall k ensures Assigned(added + [q], k) <==> Assigned(added, k) || k == q.Key() {
      AssignedGrows(added, q, k);
    }
  }

  lemma ExtendsNew(t: Tables, mid: Tables, t': Tables, added: seq<MessageQueue>, q: MessageQueue, now: nat)
    requires Extends(t, mid, added, now) && q.Key() !in mid.table
    requires t'.table == mid.table[q.Key() := Some(QueueObject(mid.nextId, now))] && t'.nextId == mid.nextId + 1
    ensures Extends(t, t', added + [q], now)
  {
    forall k ensures Assigned(added + [q], k) <==> Assigned(added, k) || k == q.Key() {
      AssignedGrows(added, q, k);
    }
  }

  lemma ExtendsGrows(t: Tables, mid: Tables, added: seq<MessageQueue>, q: MessageQueue, now: nat)
    requires Extends(t, mid, added, now)
    ensures Extends(t, Begun(mid, q, now), added + [q], now)
  {
    if q.Key() in mid.table {
      ExtendsKept(t, mid, added, q, now);
    } else {
      ExtendsNew(t, mid, Begun(mid, q, now), added, q, now);
    }
  }

  lemma ExtendsItself(t: Tables, now: nat)
    requires NoNull(t)
    ensures Extends(t, t, [], now)
  {}

  /** The second pass adds the assigned queues, keeps every entry it finds, and makes new objects only. */
  lemma {:induction false} BegunAllExtends(t: Tables, list: seq<MessageQueue>, n: nat, kept: set<QueueKey>, now: nat)
    requires n <= |list| && NoNull(t) && kept <= t.table.Keys
    ensures Extends(t, BegunAll(t, list, n, kept, now), list[..n], now)
  {
    if n == 0 {
      ExtendsItself(t, now);
    } else {
      BegunAllExtends(t, list, n - 1, kept, now);
      assert list[..n] == list[..n - 1] + [list[n - 1]];
      ExtendsOne(t, BegunAll(t, list, n - 1, kept, now), list[..n - 1], list[n - 1], kept, now);
    }
  }

  lemma ExtendsOne(t: Tables, mid: Tables, added: seq<MessageQueue>, q: MessageQueue, kept: set<QueueKey>, now: nat)
    requires Extends(t, mid, added, now) && kept <= t.table.Keys
    ensures Extends(t, if q.Key() in kept then mid else Begun(mid, q, now), added + [q], now)
  {
    if q.Key() in kept {
      ExtendsKept(t, mid, added, q, now);
    } else {
      ExtendsGrows(t, mid, added, q, now);
    }
  }

  lemma BegunReceives(t: Tables, q: MessageQueue, now: nat)
    requires NoNull(t)
    ensures NoNull(Begun(t, q, now))
    ensures Begun(t, q, now).received == t.received + if q.serviceAddress == "" then [] else [q]
  {}

  lemma {:induction false} BegunAllReceives(t: Tables, list: seq<MessageQueue>, n: nat, kept: set<QueueKey>, now: nat)
    requires n <= |list| && NoNull(t)
    ensures NoNull(BegunAll(t, list, n, kept, now))
    ensures BegunAll(t, list, n, kept, now).received == t.received + Started(list, n, kept)
  {
    if n > 0 {
      BegunAllReceives(t, list, n - 1, kept, now);
      BegunReceives(BegunAll(t, list, n - 1, kept, now), list[n - 1], now);
    }
  }

  /**
   * Reconciliation. After a call the queues of the topic in the table are exactly the assigned ones, other topics keep
   * their entries, kept queues keep their objects, the others get new ones, and a receive is started, in the order of
   * the assignment, for exactly the assigned queues that were not kept and have an address.
   */
  lemma SyncReconciles(t: Tables, topic: string, list: seq<MessageQueue>, now: nat)
    requires NoNull(t)
    ensures var t' := Synced(t, true, topic, list, now);
            && NoNull(t')
            && (forall k :: k in t'.table <==> Assigned(list, k) || (k in t.table && k.topic != topic))
            && (forall k :: k in t.table && k.topic != topic ==> t'.table[k] == t.table[k])
            && (forall k :: Keeps(t, topic, list, now, k) <==>
                  k in t.table && k.topic == topic && Assigned(list, k)
                  && now - t.table[k].value.idleSince <= 120_000)
            && (forall k :: Keeps(t, topic, list, now, k) ==> t'.table[k] == t.table[k])
            && (forall k :: k in t'.table && !Keeps(t, topic, list, now, k) && !(k in t.table && k.topic != topic) ==>
                  t'.table[k].value.idleSince == now && t'.table[k].value.id >= t.nextId)
            && t'.received == t.received + Started(list, |list|, Kept(t, topic, list, now))
  {
    var purged, kept := Purged(t, topic, list, now), Kept(t, topic, list, now);
    BegunAllExtends(purged, list, |list|, kept, now);
    BegunAllReceives(purged, list, |list|, kept, now);
    assert list[..|list|] == list;
  }

  predicate DuplicateFree(list: seq<MessageQueue>) {
    forall i, j :: 0 <= i < j < |list| ==> list[i].Key() != list[j].Key()
  }

  lemma {:induction false} StartedOnce(list: seq<MessageQueue>, n: nat, kept: set<QueueKey>)
    requires n <= |list|
    ensures forall q :: q in Started(list, n, kept) <==> q in list[..n] && q.Key() !in kept && q.serviceAddress != ""
    ensures DuplicateFree(list) ==> DuplicateFree(Started(list, n, kept))
  {
    if n > 0 {
      StartedOnce(list, n - 1, kept);
      assert list[..n] == list[..n - 1] + [list[n - 1]];
      if DuplicateFree(list) {
        var s := Started(list, n - 1, kept);
        forall i | 0 <= i < |s| ensures s[i].Key() != list[n - 1].Key() {
          assert s[i] in s;
          var j :| 0 <= j < n - 1 && list[j] == s[i];
        }
      }
    }
  }

  /** Queues are started in the order in which they are assigned: one more assigned queue comes last. */
  lemma StartedInOrder(list: seq<MessageQueue>, q: MessageQueue, kept: set<QueueKey>)
    ensures Started(list + [q], |list| + 1, kept) ==
            Started(list, |list|, kept) + if q.Key() in kept || q.serviceAddress == "" then [] else [q]
    ensures Started([], 0, kept) == []
  {
    SamePrefix(list + [q], list, |list|, kept);
  }

  lemma {:induction false} SamePrefix(list: seq<MessageQueue>, front: seq<MessageQueue>, n: nat, kept: set<QueueKey>)
    requires front <= list && n <= |front|
    ensures Started(list, n, kept) == Started(front, n, kept)
  {
    if n > 0 {
      SamePrefix(list, front, n - 1, kept);
    }
  }

  /**
   * The idle clock decides what becomes of an assigned queue of the topic: idle for more than two minutes, it gets a
   * new object and is started again if it has an address; otherwise it keeps its object and is not started.
   */
  lemma SyncByClock(t: Tables, topic: string, list: seq<MessageQueue>, now: nat, k: QueueKey)
    requires NoNull(t) && k in t.table && k.topic == topic && Assigned(list, k)
    ensures var t' := Synced(t, true, topic, list, now);
            && k in t'.table && t'.table[k].Some? && t.received <= t'.received
            && if now - t.table[k].value.idleSince > 120_000 then
                 && t'.table[k].value.id >= t.nextId && t'.table[k].value.idleSince == now
                 && forall q :: q in list && q.Key() == k && q.serviceAddress != "" ==> q in t'.received[|t.received|..]
               else
                 && t'.table[k] == t.table[k]
                 && forall q :: q in t'.received[|t.received|..] ==> q.Key() != k
  {
    SyncReconciles(t, topic, list, now);
    var t', started := Synced(t, true, topic, list, now), Started(list, |list|, Kept(t, topic, list, now));
    assert t'.received[|t.received|..] == started;
    StartedOnce(list, |list|, Kept(t, topic, list, now));
    assert list[..|list|] == list;
  }

  /** A consumer that is shutting down only lets go of what a call would let go of, and starts nothing. */
  lemma InactiveOnlyErases(t: Tables, topic: string, list: seq<MessageQueue>, now: nat)
    requires NoNull(t)
    ensures var t' := Synced(t, false, topic, list, now);
            && t'.received == t.received && t'.objects == t.objects && t'.nextId == t.nextId
            && (forall k :: k in t'.table <==>
                  k in t.table && (k.topic != topic ||
                                   (Assigned(list, k) && now - t.table[k].value.idleSince <= 120_000)))
            && (forall k :: k in t'.table ==> t'.table[k] == t.table[k])
  {
    var t' := Synced(t, false, topic, list, now);
    forall k ensures k in t'.table <==>
                     k in t.table && (k.topic != topic ||
                                      (Assigned(list, k) && now - t.table[k].value.idleSince <= 120_000))
    {
      assert k in t.table && k.topic == topic && Assigned(list, k) ==>
          (Keeps(t, topic, list, now, k) <==> now - t.table[k].value.idleSince <= 120_000);
    }
  }

  /** On a duplicate-free assignment each queue that was not kept is started once, and no other. */
  lemma SyncStartsEachOnce(t: Tables, topic: string, list: seq<MessageQueue>, now: nat)
    requires NoNull(t) && DuplicateFree(list)
    requires forall q :: q in list ==> q.serviceAddress != ""
    ensures exists started ::
              && Synced(t, true, topic, list, now).received == t.received + started
              && DuplicateFree(started)
              && (forall q :: q in started <==> q in list && !Keeps(t, topic, list, now, q.Key()))
  {
    SyncReconciles(t, topic, list, now);
    StartedOnce(list, |list|, Kept(t, topic, list, now));
    assert list[..|list|] == list;
    var started := Started(list, |list|, Kept(t, topic, list, now));
    assert Synced(t, true, topic, list, now).received == t.received + started;
  }

  lemma SecondKeeps(t: Tables, topic: string, list: seq<MessageQueue>, now: nat, k: QueueKey)
    requires NoNull(t)
    ensures Keeps(Synced(t, true, topic, list, now), topic, list, now, k) <==> Assigned(list, k) && k.topic == topic
  {
    SyncReconciles(t, topic, list, now);
    var t' := Synced(t, true, topic, list, now);
    if Assigned(list, k) && k.topic == topic && !Keeps(t, topic, list, now, k) {
      assert t'.table[k].value.idleSince == now;
    }
  }

  /**
   * An immediate second call leaves the table as it is; it starts nothing, and so changes nothing at all, exactly if
   * the assignment names no queue of another topic that has an address.
   */
  lemma SecondSyncIff(t: Tables, topic: string, list: seq<MessageQueue>, now: nat)
    requires NoNull(t)
    ensures var t' := Synced(t, true, topic, list, now);
            var t'' := Synced(t', true, topic, list, now);
            && t''.table == t'.table
            && (t''.received == t'.received <==> forall q :: q in list && q.serviceAddress != "" ==> q.topic == topic)
  {
    var t' := Synced(t, true, topic, list, now);
    var kept := Kept(t', topic, list, now);
    SyncReconciles(t, topic, list, now);
    SyncReconciles(t', topic, list, now);
    forall k ensures Keeps(t', topic, list, now, k) <==> Assigned(list, k) && k.topic == topic {
      SecondKeeps(t, topic, list, now, k);
    }
    StartedOnce(list, |list|, kept);
    assert list[..|list|] == list;
    forall q | q in list ensures q.Key() in kept <==> q.topic == topic {
      var i :| 0 <= i < |list| && list[i] == q;
      assert Assigned(list, q.Key());
    }
    SecondSyncKeepsTable(t', topic, list, now);
    var started := Started(list, |list|, kept);
    if started != [] {
      assert started[0] in started;
    }
  }

  lemma SecondSyncKeepsTable(t': Tables, topic: string, list: seq<MessageQueue>, now: nat)
    requires NoNull(t')
    requires forall k :: Assigned(list, k) ==> k in t'.table
    requires forall k :: k in t'.table ==> k.topic != topic || Keeps(t', topic, list, now, k)
    ensures Synced(t', true, topic, list, now).table == t'.table
  {
    var purged, kept := Purged(t', topic, list, now), Kept(t', topic, list, now);
    assert purged.table == t'.table;
    BegunAllExtends(purged, list, |list|, kept, now);
    assert list[..|list|] == list;
  }

  // ---- The consumer ----

  class PushConsumer {
    var processQueueTable: map<QueueKey, Option<QueueObject>>
    var nextId: nat
    var received: seq<MessageQueue>
    var objects: seq<nat>
    var active: bool

    function Value(): Tables
      reads this
    {
      Tables(processQueueTable, nextId, received, objects)
    }

    method GetOrCreateProcessQueue(q: MessageQueue, now: nat) returns (found: Option<QueueObject>)
      modifies this`processQueueTable, this`nextId
      ensures !active ==> found.None? && Value() == old(Value())
      ensures active ==>
                && processQueueTable == Begun(old(Value()), q, now).table
                && nextId == Begun(old(Value()), q, now).nextId
                && q.Key() in processQueueTable && found == processQueueTable[q.Key()]
    {
      if !active {
        return None;
      }
      if q.Key() !in processQueueTable {
        processQueueTable := processQueueTable[q.Key() := Some(QueueObject(nextId, now))];
        nextId := nextId + 1;
      }
      found := processQueueTable[q.Key()];
    }

    method ReceiveMessage(q: MessageQueue, now: nat) returns (ok: bool)
      modifies this`processQueueTable, this`nextId, this`received, this`objects
      ensures Value() == if active then Begun(old(Value()), q, now) else old(Value())
      ensures ok <==> received != old(received)
    {
      if !active {
        return false;
      }
      var found := GetOrCreateProcessQueue(q, now);
      if found.None? {
        return false;
      }
      if q.serviceAddress == "" {
        return false;
      }
      received, objects := received + [q], objects + [found.value.id];
      ok := true;
    }

    /** First pass: erases what is not assigned or has expired, and reports what is kept. */
    method EraseStale(topic: string, list: seq<MessageQueue>, now: nat) returns (current: set<QueueKey>)
      modifies this`processQueueTable
      ensures Value() == Purged(old(Value()), topic, list, now)
      ensures current == Kept(old(Value()), topic, list, now)
      ensures forall k :: k in current <==>
                k in old(processQueueTable) && k.topic == topic && Assigned(list, k) && old(processQueueTable)[k].Some?
                && now - old(processQueueTable)[k].value.idleSince <= 120_000
      ensures forall k :: k in processQueueTable <==>
                k in old(processQueueTable) && (k.topic != topic || k in current)
    {
      ghost var t := Value();
      current := {};
      var todo := processQueueTable.Keys;
      while todo != {}
        invariant todo <= t.table.Keys
        invariant processQueueTable ==
                  map k | k in t.table && (k in todo || k.topic != topic || Keeps(t, topic, list, now, k)) :: t.table[k]
        invariant current == set k | k in t.table && k !in todo && Keeps(t, topic, list, now, k)
        decreases |todo|
      {
        var k :| k in todo;
        todo := todo - {k};
        if k.topic != topic {
          continue;
        }
        if !Assigned(list, k) {
          processQueueTable := processQueueTable - {k};
        } else if processQueueTable[k].None? || Expired(now, processQueueTable[k].value.idleSince) {
          processQueueTable := processQueueTable - {k};
        } else {
          current := current + {k};
        }
      }
    }

    method SyncProcessQueue(topic: string, list: seq<MessageQueue>, now: nat)
      modifies this`processQueueTable, this`nextId, this`received, this`objects
      ensures Value() == Synced(old(Value()), active, topic, list, now)
    {
      var current := EraseStale(topic, list, now);
      ghost var purged := Value();
      for i := 0 to |list|
        invariant Value() == if active then BegunAll(purged, list, i, current, now) else purged
      {
        if list[i].Key() !in current {
          var ok := ReceiveMessage(list[i], now);
        }
      }
    }
  }
}
