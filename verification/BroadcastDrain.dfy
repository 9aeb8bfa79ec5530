/** The broadcast drainer: mutual exclusion by compare-exchange, and first-in-first-out consumption. */
module BroadcastDrain {
  import opened Modular
  import opened ProcessQueues
  import opened Pipeline

  /** The thread has won the first compare-exchange of BroadcastTask::process and not yet done the second. */
  predicate Active(d: Drainer) {
    !d.pc.Submitted? && !d.pc.Gone?
  }

  /** At most one thread is inside each broadcast task, and its flag is set while one is. */
  ghost predicate Exclusive(s: State) {
    && (forall d :: 0 <= d < |s.drainers| ==> s.drainers[d].task < |s.runnable|)
    && (forall d :: 0 <= d < |s.drainers| && Active(s.drainers[d]) ==> s.runnable[s.drainers[d].task])
    && (forall d, e :: 0 <= d < e < |s.drainers| && Active(s.drainers[d]) && Active(s.drainers[e]) ==>
          s.drainers[d].task != s.drainers[e].task)
  }

  lemma DrainerExclusive(s: State, d: nat)
    requires Exclusive(s) && d < |s.drainers| && !s.drainers[d].pc.Gone?
    ensures Exclusive(DrainerApply(s, d))
  {
    var s' := DrainerApply(s, d);
    assert s'.drainers == s.drainers[d := s'.drainers[d]];
  }

  lemma CycleExclusive(cfg: Config, s: State, i: nat, what: CycleAction)
    requires Exclusive(s) && i < |s.cycles| && CycleEnabled(cfg, s, s.cycles[i].phase, what)
    ensures Exclusive(CycleApply(cfg, s, i, what))
  {
    var s' := CycleApply(cfg, s, i, what);
    if !what.MakeTask? && !what.WakeUp? {
      assert s'.drainers == s.drainers && s'.runnable == s.runnable;
    }
  }

  lemma ExclusiveStep(cfg: Config, s: State, a: Action)
    requires Exclusive(s) && Enabled(cfg, s, a)
    ensures Exclusive(Apply(cfg, s, a))
  {
    match a {
      case OnCycle(i, what) => CycleExclusive(cfg, s, i, what);
      case OnDrainer(d) => DrainerExclusive(s, d);
      case _ => assert Apply(cfg, s, a).drainers == s.drainers && Apply(cfg, s, a).runnable == s.runnable;
    }
  }

  lemma {:induction false} ExclusiveAlways(cfg: Config, states: seq<State>, actions: seq<Action>, k: nat)
    requires Execution(cfg, states, actions) && k < |states|
    ensures Exclusive(states[k])
  {
    if k > 0 {
      ExclusiveAlways(cfg, states, actions, k - 1);
      ExclusiveStep(cfg, states[k - 1], actions[k - 1]);
    }
  }

  /**
   * With any number of pool threads, no two are inside the same broadcast task, and the compare-exchange that ends a
   * drain always finds the flag set.
   */
  lemma OneDrainerPerTask(cfg: Config, states: seq<State>, actions: seq<Action>, k: nat)
    requires Execution(cfg, states, actions) && k < |states|
    ensures forall d, e ::
              0 <= d < e < |states[k].drainers| && states[k].drainers[d].task == states[k].drainers[e].task ==>
                !(Active(states[k].drainers[d]) && Active(states[k].drainers[e]))
    ensures forall d :: 0 <= d < |states[k].drainers| && states[k].drainers[d].pc.Leaving? ==>
              states[k].drainers[d].task < |states[k].runnable| && states[k].runnable[states[k].drainers[d].task]
  {
    ExclusiveAlways(cfg, states, actions, k);
  }

  // ---- Order ----

  /** Everything enqueued has been passed to the listener, is in the hand of the drainer, or waits, in this order. */
  ghost predicate InOrder(s: State) {
    && (forall d :: 0 <= d < |s.drainers| && s.drainers[d].pc.Taken? ==>
          s.enqueued == s.consumed + [s.drainers[d].pc.message] + s.deque)
    && ((forall d :: 0 <= d < |s.drainers| ==> !s.drainers[d].pc.Taken?) ==> s.enqueued == s.consumed + s.deque)
  }

  /** With one broadcast task, the active thread is alone. */
  lemma AloneActive(s: State, d: nat)
    requires Exclusive(s) && |s.runnable| <= 1 && d < |s.drainers| && Active(s.drainers[d])
    ensures forall e :: 0 <= e < |s.drainers| && e != d ==> !Active(s.drainers[e])
  {}

  /** No thread takes, passes on or enqueues anything. */
  ghost predicate SameHands(s: State, s': State) {
    && s'.enqueued == s.enqueued && s'.consumed == s.consumed && s'.deque == s.deque
    && |s.drainers| <= |s'.drainers|
    && (forall e :: 0 <= e < |s.drainers| && s'.drainers[e] != s.drainers[e] ==>
          !s.drainers[e].pc.Taken? && !s'.drainers[e].pc.Taken?)
    && (forall e :: |s.drainers| <= e < |s'.drainers| ==> !s'.drainers[e].pc.Taken?)
  }

  lemma SameInOrder(s: State, s': State)
    requires InOrder(s) && SameHands(s, s')
    ensures InOrder(s')
  {
    if forall e :: 0 <= e < |s'.drainers| ==> !s'.drainers[e].pc.Taken? {
      forall e | 0 <= e < |s.drainers| ensures !s.drainers[e].pc.Taken? {
        assert s'.drainers[e] == s.drainers[e] || !s.drainers[e].pc.Taken?;
      }
    }
  }

  lemma PassedInOrder(s: State, s': State, d: nat)
    requires InOrder(s) && d < |s.drainers| && s.drainers[d].pc.Taken?
    requires |s'.drainers| == |s.drainers| && s'.drainers == s.drainers[d := s'.drainers[d]]
    requires !s'.drainers[d].pc.Taken?
    requires forall e :: 0 <= e < |s.drainers| && e != d ==> !Active(s.drainers[e])
    requires s'.enqueued == s.enqueued && s'.deque == s.deque && s'.consumed == s.consumed + [s.drainers[d].pc.message]
    ensures InOrder(s')
  {
    assert forall e :: 0 <= e < |s'.drainers| ==> !s'.drainers[e].pc.Taken?;
  }

  lemma TakenInOrder(s: State, s': State, d: nat)
    requires InOrder(s) && d < |s.drainers| && s.drainers[d].pc.Draining? && s.deque != []
    requires |s'.drainers| == |s.drainers| && s'.drainers == s.drainers[d := s'.drainers[d]]
    requires s'.drainers[d].pc == Taken(s.deque[0])
    requires forall e :: 0 <= e < |s.drainers| && e != d ==> !Active(s.drainers[e])
    requires s'.enqueued == s.enqueued && s'.consumed == s.consumed && s'.deque == s.deque[1..]
    ensures InOrder(s')
  {
    assert forall e :: 0 <= e < |s.drainers| ==> !s.drainers[e].pc.Taken?;
    assert s.consumed + s.deque == s.consumed + [s.deque[0]] + s.deque[1..];
  }

  lemma DrainerInOrder(s: State, d: nat)
    requires Exclusive(s) && |s.runnable| <= 1 && InOrder(s)
    requires d < |s.drainers| && !s.drainers[d].pc.Gone?
    ensures InOrder(DrainerApply(s, d))
  {
    var s', pc := DrainerApply(s, d), s.drainers[d].pc;
    assert s'.drainers == s.drainers[d := s'.drainers[d]];
    if pc.Taken? {
      AloneActive(s, d);
      PassedInOrder(s, s', d);
    } else if pc.Draining? && s.deque != [] {
      AloneActive(s, d);
      TakenInOrder(s, s', d);
    } else {
      SameInOrder(s, s');
    }
  }

  lemma EnqueuedInOrder(s: State, s': State, messages: seq<Message>)
    requires InOrder(s) && s'.drainers == s.drainers && s'.consumed == s.consumed
    requires s'.deque == s.deque + messages && s'.enqueued == s.enqueued + messages
    ensures InOrder(s')
  {
    assert s.consumed + (s.deque + messages) == s.consumed + s.deque + messages;
    forall d | 0 <= d < |s.drainers| && s.drainers[d].pc.Taken?
      ensures s'.enqueued == s.consumed + [s.drainers[d].pc.message] + s'.deque
    {
      var handed := s.consumed + [s.drainers[d].pc.message];
      assert handed + (s.deque + messages) == handed + s.deque + messages;
    }
  }

  lemma CycleInOrder(cfg: Config, s: State, i: nat, what: CycleAction)
    requires InOrder(s) && i < |s.cycles| && CycleEnabled(cfg, s, s.cycles[i].phase, what)
    ensures InOrder(CycleApply(cfg, s, i, what))
  {
    var s' := CycleApply(cfg, s, i, what);
    if what.HandOver? && cfg.fifoListener && cfg.broadcasting {
      EnqueuedInOrder(s, s', s.cycles[i].phase.messages);
    } else {
      SameInOrder(s, s');
    }
  }

  lemma InOrderStep(cfg: Config, s: State, a: Action)
    requires Exclusive(s) && |s.runnable| <= 1 && InOrder(s) && Enabled(cfg, s, a)
    ensures InOrder(Apply(cfg, s, a))
  {
    match a {
      case OnCycle(i, what) => CycleInOrder(cfg, s, i, what);
      case OnDrainer(d) => DrainerInOrder(s, d);
      case _ =>
        var s' := Apply(cfg, s, a);
        assert s'.drainers == s.drainers && s'.enqueued == s.enqueued;
        assert s'.consumed == s.consumed && s'.deque == s.deque;
    }
  }

  lemma {:induction false} TasksOnlyGrow(cfg: Config, states: seq<State>, actions: seq<Action>, k: nat)
    requires Execution(cfg, states, actions) && k < |actions|
    ensures |states[k].runnable| <= |states[k + 1].runnable|
  {
    if actions[k].OnDrainer? {
      assert |DrainerApply(states[k], actions[k].d).runnable| == |states[k].runnable|;
    }
  }

  lemma {:induction false} InOrderAlways(cfg: Config, states: seq<State>, actions: seq<Action>, k: nat)
    requires Execution(cfg, states, actions) && k < |states| && |states[k].runnable| <= 1
    ensures InOrder(states[k])
  {
    if k > 0 {
      TasksOnlyGrow(cfg, states, actions, k - 1);
      InOrderAlways(cfg, states, actions, k - 1);
      ExclusiveAlways(cfg, states, actions, k - 1);
      InOrderStep(cfg, states[k - 1], actions[k - 1]);
    }
  }

  /**
   * Broadcast FIFO. With any number of pool threads running one broadcast task, the listener is passed the messages in
   * the order in which they were enqueued, none skipped and none twice, one call at a time.
   */
  lemma BroadcastFifo(cfg: Config, states: seq<State>, actions: seq<Action>, k: nat)
    requires Execution(cfg, states, actions) && k < |states| && |states[k].runnable| <= 1
    ensures states[k].consumed <= states[k].enqueued
    ensures forall d, e :: 0 <= d < e < |states[k].drainers| ==>
              !(Active(states[k].drainers[d]) && Active(states[k].drainers[e]))
  {
    ExclusiveAlways(cfg, states, actions, k);
    InOrderAlways(cfg, states, actions, k);
    var s := states[k];
    if exists d :: 0 <= d < |s.drainers| && s.drainers[d].pc.Taken? {
      var d :| 0 <= d < |s.drainers| && s.drainers[d].pc.Taken?;
      assert s.enqueued == s.consumed + ([s.drainers[d].pc.message] + s.deque);
    }
  }

  // ---- A queue fed by a single receive cycle has a single broadcast task ----

  ghost predicate SingleTask(s: State) {
    && |s.runnable| <= 1
    && (s.broadcastTask.None? <==> s.runnable == [])
    && (forall i :: 0 <= i < |s.cycles| && s.cycles[i].phase.Make? ==> s.broadcastTask.None?)
  }

  lemma CycleSingleTask(cfg: Config, s: State, what: CycleAction)
    requires SingleTask(s) && |s.cycles| == 1 && CycleEnabled(cfg, s, s.cycles[0].phase, what)
    ensures SingleTask(CycleApply(cfg, s, 0, what))
  {}

  lemma SingleTaskStep(cfg: Config, s: State, a: Action)
    requires SingleTask(s) && Enabled(cfg, s, a) && |s.cycles| <= 1
    ensures SingleTask(Apply(cfg, s, a))
  {
    match a {
      case OnCycle(_, what) => CycleSingleTask(cfg, s, what);
      case OnDrainer(d) => assert |DrainerApply(s, d).runnable| == |s.runnable|;
      case _ =>
    }
  }

  lemma {:induction false} OneCycleOneTask(cfg: Config, states: seq<State>, actions: seq<Action>, k: nat)
    requires Execution(cfg, states, actions) && k < |states| && |states[k].cycles| <= 1
    ensures SingleTask(states[k])
  {
    if k > 0 {
      CyclesOnlyGrow(cfg, states, actions, k - 1, k);
      OneCycleOneTask(cfg, states, actions, k - 1);
      SingleTaskStep(cfg, states[k - 1], actions[k - 1]);
    }
  }

  // ---- One thread by itself ----

  lemma LessAgain(x: nat, n: nat, d: nat)
    ensures Less32(Less32(x, n), d) == Less32(x, n + d) && Less64(Less64(x, n), d) == Less64(x, n + d)
  {
    ModAdd(x - n, 0 - d, QUANTITY_MODULUS);
    ModAdd(x - n, 0 - d, MEMORY_MODULUS);
  }

  lemma LessOneMore(quantity: nat, memory: nat, passed: seq<Message>, m: Message)
    ensures Less32(Less32(quantity, |passed|), 1) == Less32(quantity, |passed + [m]|)
    ensures Less64(Less64(memory, Bytes(passed)), m.bodySize) == Less64(memory, Bytes(passed + [m]))
  {
    LessAgain(quantity, |passed|, 1);
    LessAgain(memory, Bytes(passed), m.bodySize);
    assert (passed + [m])[..|passed|] == passed;
  }

  /** The state after up to `n` steps of drainer `d` alone. */
  function Undisturbed(s: State, d: nat, n: nat): State
    requires d < |s.drainers| && s.drainers[d].task < |s.runnable|
    decreases n
  {
    if n == 0 || s.drainers[d].pc.Gone? then s else Undisturbed(DrainerApply(s, d), d, n - 1)
  }

  predicate Counted(s: State) {
    s.quantity < QUANTITY_MODULUS && s.memory < MEMORY_MODULUS
  }

  /** What passing on the messages of the deque does. */
  function Passed(s: State): State {
    s.(deque := [], consumed := s.consumed + s.deque, quantity := Less32(s.quantity, |s.deque|),
       memory := Less64(s.memory, Bytes(s.deque)))
  }

  /** What passing on the first message does. */
  function PassedOne(s: State): State
    requires s.deque != []
  {
    s.(deque := s.deque[1..], consumed := s.consumed + [s.deque[0]], quantity := Less32(s.quantity, 1),
       memory := Less64(s.memory, s.deque[0].bodySize))
  }

  lemma OneRound(s: State, d: nat, n: nat)
    requires d < |s.drainers| && s.drainers[d].task < |s.runnable| && s.drainers[d].pc.Draining? && s.deque != []
    ensures Undisturbed(s, d, n + 5) == Undisturbed(PassedOne(s), d, n)
  {
    var m := s.deque[0];
    var s1 := DrainerApply(s, d);
    assert s1.drainers[d].pc == Taken(m);
    var s2 := DrainerApply(s1, d);
    assert s2.drainers[d].pc == Calling(m);
    var s3 := DrainerApply(s2, d);
    assert s3.drainers[d].pc == Called(m);
    var s4 := DrainerApply(s3, d);
    assert s4.drainers[d].pc == Halfway(m);
    var s5 := DrainerApply(s4, d);
    assert s5.drainers == s.drainers;
    assert Undisturbed(s, d, n + 5) == Undisturbed(s1, d, n + 4);
    assert Undisturbed(s1, d, n + 4) == Undisturbed(s2, d, n + 3);
    assert Undisturbed(s2, d, n + 3) == Undisturbed(s3, d, n + 2);
    assert Undisturbed(s3, d, n + 2) == Undisturbed(s4, d, n + 1);
  }

  lemma PassedAfterOne(s: State)
    requires s.deque != [] && Counted(s)
    ensures Counted(PassedOne(s)) && Passed(PassedOne(s)) == Passed(s)
  {
    LessAgain(s.quantity, 1, |s.deque| - 1);
    LessAgain(s.memory, s.deque[0].bodySize, Bytes(s.deque[1..]));
    BytesHead(s.deque);
    assert s.consumed + s.deque == s.consumed + [s.deque[0]] + s.deque[1..];
  }

  lemma NothingPassed(s: State)
    requires s.deque == [] && Counted(s)
    ensures Passed(s) == s
  {
    assert s.consumed + s.deque == s.consumed;
  }

  lemma {:induction false} Rounds(s: State, d: nat, n: nat)
    requires d < |s.drainers| && s.drainers[d].task < |s.runnable| && s.drainers[d].pc.Draining? && Counted(s)
    ensures Undisturbed(s, d, n + 5 * |s.deque|) == Undisturbed(Passed(s), d, n)
    decreases |s.deque|
  {
    if s.deque == [] {
      NothingPassed(s);
    } else {
      var left := 5 * |s.deque[1..]|;
      OneRound(s, d, n + left);
      PassedAfterOne(s);
      Rounds(PassedOne(s), d, n);
      assert n + 5 * |s.deque| == n + left + 5;
    }
  }

  /** Where a submitted drainer that nobody disturbs ends up. */
  function Drained(s: State, d: nat): (r: State)
    requires d < |s.drainers| && s.drainers[d].task < |s.runnable|
  {
    Undisturbed(s, d, 3 + 5 * |s.deque|)
  }

  /**
   * The steps of a submitted drainer, undisturbed: a set flag sends it away; otherwise it passes every message of the
   * deque to the listener, in order, releases exactly these, and leaves with the flag down again.
   */
  lemma DrainerEmptiesDeque(s: State, d: nat)
    requires d < |s.drainers| && s.drainers[d].task < |s.runnable| && s.drainers[d].pc.Submitted? && Counted(s)
    ensures var task := s.drainers[d].task;
            var gone := s.(drainers := s.drainers[d := Drainer(task, Gone)]);
            Drained(s, d) ==
            if s.runnable[task] then gone
            else gone.(deque := [], consumed := s.consumed + s.deque, quantity := Less32(s.quantity, |s.deque|),
                       memory := Less64(s.memory, Bytes(s.deque)))
  {
    var task, n := s.drainers[d].task, 5 * |s.deque|;
    var s1 := DrainerApply(s, d);
    assert Undisturbed(s, d, 3 + n) == Undisturbed(s1, d, 2 + n);
    if !s.runnable[task] {
      Rounds(s1, d, 2);
      var s2 := Passed(s1);
      var s3 := DrainerApply(s2, d);
      assert s3.drainers[d].pc.Leaving?;
      var s4 := DrainerApply(s3, d);
      assert Undisturbed(s2, d, 2) == Undisturbed(s3, d, 1);
      assert Undisturbed(s3, d, 1) == s4;
      assert s4.runnable == s.runnable;
      assert s4.drainers == s.drainers[d := Drainer(task, Gone)];
    }
  }

  class BroadcastTask {
    var runnable: bool

    constructor ()
      ensures !runnable
    {
      runnable := false;
    }

    /** The drain loop, run without interference. */
    method Drain(queue: ProcessQueue) returns (passed: seq<Message>)
      requires queue.Valid()
      modifies queue`cachedQuantity, queue`cachedMemory, queue`broadcastMessages
      ensures queue.Valid() && queue.broadcastMessages == [] && passed == old(queue.broadcastMessages)
      ensures queue.cachedQuantity == Less32(old(queue.cachedQuantity), |passed|)
      ensures queue.cachedMemory == Less64(old(queue.cachedMemory), Bytes(passed))
    {
      passed := [];
      while true
        invariant queue.Valid()
        invariant passed + queue.broadcastMessages == old(queue.broadcastMessages)
        invariant queue.cachedQuantity == Less32(old(queue.cachedQuantity), |passed|)
        invariant queue.cachedMemory == Less64(old(queue.cachedMemory), Bytes(passed))
        decreases |queue.broadcastMessages|
      {
        var message := queue.DequeBroadcastMessage();
        if message.None? {
          break;
        }
        LessOneMore(old(queue.cachedQuantity), old(queue.cachedMemory), passed, message.value);
        passed := passed + [message.value];
        queue.Release(BodyLength(message.value));
      }
    }

    /**
     * Run without interference, process() passes on the whole deque in order and releases exactly that: as the steps of
     * drainer `d` do in state `s`.
     */
    method Process(queue: ProcessQueue, ghost s: State, ghost d: nat) returns (passed: seq<Message>)
      requires queue.Valid()
      requires d < |s.drainers| && s.drainers[d].task < |s.runnable| && s.drainers[d].pc.Submitted?
      requires s.runnable[s.drainers[d].task] == runnable && s.deque == queue.broadcastMessages
      requires s.quantity == queue.cachedQuantity && s.memory == queue.cachedMemory
      modifies this, queue`cachedQuantity, queue`cachedMemory, queue`broadcastMessages
      ensures queue.Valid() && runnable == old(runnable)
      ensures passed == if old(runnable) then [] else old(queue.broadcastMessages)
      ensures queue.broadcastMessages == if old(runnable) then old(queue.broadcastMessages) else []
      ensures queue.cachedQuantity == Less32(old(queue.cachedQuantity), |passed|)
      ensures queue.cachedMemory == Less64(old(queue.cachedMemory), Bytes(passed))
      ensures var s' := Drained(s, d);
              && s'.deque == queue.broadcastMessages && s'.consumed == s.consumed + passed
              && s'.quantity == queue.cachedQuantity && s'.memory == queue.cachedMemory
              && |s'.runnable| == |s.runnable| && s'.runnable[s.drainers[d].task] == runnable
    {
      DrainerEmptiesDeque(s, d);
      if runnable {
        return [];
      }
      runnable := true;
      passed := Drain(queue);
      runnable := false;
    }
  }
}
