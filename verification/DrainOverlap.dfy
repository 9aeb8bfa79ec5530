/** How many receive cycles a broadcasting queue may have for its listener calls to stay apart and in order. */
module DrainOverlap {
  import opened Base
  import opened ProcessQueues
  import opened Pipeline
  import opened BroadcastDrain
  import CycleTiming

  /** Listener calls by drainers do not overlap, and pass on the messages in the order they were enqueued. */
  ghost predicate Ordered(s: State) {
    && (forall d, e :: 0 <= d < e < |s.drainers| ==> !(s.drainers[d].pc.Calling? && s.drainers[e].pc.Calling?))
    && s.consumed <= s.enqueued
  }

  /** In every run with at most `n` cycles. */
  ghost predicate AlwaysOrdered(cfg: Config, n: nat) {
    forall states: seq<State>, actions: seq<Action>, k: nat ::
      Execution(cfg, states, actions) && k < |states| && |states[k].cycles| <= n ==> Ordered(states[k])
  }

  // ---- Nothing to drain ----

  /** Drainers can get messages: a broadcasting consumer with a FIFO listener and batches that are not empty. */
  predicate Drains(cfg: Config) {
    cfg.broadcasting && cfg.fifoListener && cfg.batchSize > 0
  }

  predicate EmptyHanded(d: Drainer) {
    d.pc.Submitted? || d.pc.Draining? || d.pc.Leaving? || d.pc.Gone?
  }

  predicate NoMessages(cfg: Config, c: Cycle) {
    cfg.batchSize == 0 && (c.phase.Accounting? || c.phase.Handing?) ==> c.phase.messages == []
  }

  ghost predicate Idle(cfg: Config, s: State) {
    && s.deque == [] && s.enqueued == [] && s.consumed == []
    && (forall d :: 0 <= d < |s.drainers| ==> EmptyHanded(s.drainers[d]))
    && (forall i :: 0 <= i < |s.cycles| ==> NoMessages(cfg, s.cycles[i]))
  }

  lemma CycleIdle(cfg: Config, s: State, i: nat, what: CycleAction)
    requires Idle(cfg, s) && !Drains(cfg) && i < |s.cycles| && CycleEnabled(cfg, s, s.cycles[i].phase, what)
    ensures Idle(cfg, CycleApply(cfg, s, i, what))
  {}

  lemma IdleStep(cfg: Config, s: State, a: Action, s': State)
    requires Idle(cfg, s) && !Drains(cfg) && Enabled(cfg, s, a) && s' == Apply(cfg, s, a)
    ensures Idle(cfg, s')
  {
    match a {
      case OnCycle(i, what) => CycleIdle(cfg, s, i, what);
      case OnDrainer(d) => assert s'.cycles == s.cycles && s'.drainers == s.drainers[d := s'.drainers[d]];
      case _ =>
    }
  }

  lemma {:induction false} IdleAlways(cfg: Config, states: seq<State>, actions: seq<Action>, k: nat)
    requires Execution(cfg, states, actions) && k < |states| && !Drains(cfg)
    ensures Idle(cfg, states[k])
  {
    if k > 0 {
      IdleAlways(cfg, states, actions, k - 1);
      IdleStep(cfg, states[k - 1], actions[k - 1], states[k]);
    }
  }

  lemma OneCycleOrdered(cfg: Config, states: seq<State>, actions: seq<Action>, k: nat)
    requires Execution(cfg, states, actions) && k < |states| && |states[k].cycles| <= 1
    ensures Ordered(states[k])
  {
    OneCycleOneTask(cfg, states, actions, k);
    BroadcastFifo(cfg, states, actions, k);
    assert forall d :: 0 <= d < |states[k].drainers| && states[k].drainers[d].pc.Calling? ==>
             Active(states[k].drainers[d]);
  }

  // ---- Two cycles ----

  const MESSAGE: Message := Message(0, 0)

  /** Both cycles are in the given phases, and everything else is as in `s`. */
  function Both(cfg: Config, s: State, p0: Phase, p1: Phase): State {
    s.(cycles := [Cycle(p0, cfg.slack, Going), Cycle(p1, cfg.slack, Going)])
  }

  function Waiting(cfg: Config): State {
    Init(0).(offset := 0, cycles := [Cycle(Outstanding, ReceiveTimeout(cfg), Going),
                                     Cycle(Outstanding, ReceiveTimeout(cfg), Going)])
  }

  /** Both cycles have asked for messages. */
  lemma BothWaiting(cfg: Config) returns (states: seq<State>, actions: seq<Action>)
    requires cfg.broadcasting
    ensures Execution(cfg, states, actions) && states[|actions|] == Waiting(cfg)
  {
    states, actions := [Init(0)], [];
    states, actions := CycleTiming.Perform(cfg, states, actions, Start);
    states, actions := CycleTiming.Perform(cfg, states, actions, Start);
    states, actions := CycleTiming.Perform(cfg, states, actions, OnCycle(0, DoIssue));
    states, actions := CycleTiming.Perform(cfg, states, actions, OnCycle(0, Answer(Some(0))));
    states, actions := CycleTiming.Perform(cfg, states, actions, OnCycle(1, DoIssue));
  }

  /** A cycle that can receive a message at time 0, with few messages counted so far. */
  predicate Ready(s: State, i: nat) {
    && s.offset == 0 && s.now == 0 && s.memory == 0 && s.quantity < 2
    && i < |s.cycles| && s.cycles[i].phase.Outstanding?
  }

  lemma CountOne(cfg: Config, states: seq<State>, actions: seq<Action>, i: nat)
    returns (states': seq<State>, actions': seq<Action>)
    requires Drains(cfg) && Execution(cfg, states, actions) && Ready(states[|actions|], i)
    ensures Execution(cfg, states', actions')
    ensures var s := states[|actions|];
            states'[|actions'|] ==
            s.(quantity := s.quantity + 1,
               cycles := s.cycles[i := s.cycles[i].(phase := Accounting([MESSAGE], 1, false), due := cfg.slack)])
  {
    assert Bytes([MESSAGE]) == 0 by {
      BytesHead([MESSAGE]);
    }
    states', actions' := CycleTiming.Perform(cfg, states, actions, OnCycle(i, Receive([MESSAGE], 0)));
    states', actions' := CycleTiming.Perform(cfg, states', actions', OnCycle(i, AddQuantity));
    states', actions' := CycleTiming.Perform(cfg, states', actions', OnCycle(i, AddMemory));
  }

  /** A waiting cycle receives one message and puts it into the deque. */
  lemma ReceiveOne(cfg: Config, states: seq<State>, actions: seq<Action>, i: nat)
    returns (states': seq<State>, actions': seq<Action>)
    requires Drains(cfg) && Execution(cfg, states, actions) && Ready(states[|actions|], i)
    ensures Execution(cfg, states', actions')
    ensures var s := states[|actions|];
            states'[|actions'|] ==
            s.(quantity := s.quantity + 1, deque := s.deque + [MESSAGE], enqueued := s.enqueued + [MESSAGE],
               cycles := s.cycles[i := s.cycles[i].(phase := Choose, due := cfg.slack)])
  {
    states', actions' := CountOne(cfg, states, actions, i);
    states', actions' := CycleTiming.Perform(cfg, states', actions', OnCycle(i, HandOver));
  }

  function Enqueued(cfg: Config): State {
    Both(cfg, Init(0).(offset := 0, quantity := 2, deque := [MESSAGE, MESSAGE], enqueued := [MESSAGE, MESSAGE]),
         Choose, Choose)
  }

  lemma BothEnqueued(cfg: Config) returns (states: seq<State>, actions: seq<Action>)
    requires Drains(cfg)
    ensures Execution(cfg, states, actions) && states[|actions|] == Enqueued(cfg)
  {
    states, actions := BothWaiting(cfg);
    states, actions := ReceiveOne(cfg, states, actions, 0);
    states, actions := ReceiveOne(cfg, states, actions, 1);
    assert states[|actions|].deque == [MESSAGE, MESSAGE] && states[|actions|].enqueued == [MESSAGE, MESSAGE];
  }

  /** Both see that there is no broadcast task yet, and the first one makes its own and submits it. */
  lemma FirstTask(cfg: Config) returns (states: seq<State>, actions: seq<Action>)
    requires Drains(cfg)
    ensures Execution(cfg, states, actions)
    ensures states[|actions|] ==
            Both(cfg, Enqueued(cfg).(broadcastTask := Some(0), runnable := [false],
                                     drainers := [Drainer(0, Submitted)]),
                 Check, Make)
  {
    states, actions := BothEnqueued(cfg);
    states, actions := CycleTiming.Perform(cfg, states, actions, OnCycle(0, ChooseTask));
    states, actions := CycleTiming.Perform(cfg, states, actions, OnCycle(1, ChooseTask));
    states, actions := CycleTiming.Perform(cfg, states, actions, OnCycle(0, MakeTask));
    states, actions := CycleTiming.Perform(cfg, states, actions, OnCycle(0, ChooseTask));
    states, actions := CycleTiming.Perform(cfg, states, actions, OnCycle(0, WakeUp));
  }

  function TwoDrainers(cfg: Config, p0: DrainPc, p1: DrainPc): State {
    Both(cfg, Enqueued(cfg).(broadcastTask := Some(1), runnable := [false, false],
                             drainers := [Drainer(0, p0), Drainer(1, p1)]),
         Check, Check)
  }

  lemma SecondTask(cfg: Config) returns (states: seq<State>, actions: seq<Action>)
    requires Drains(cfg)
    ensures Execution(cfg, states, actions) && states[|actions|] == TwoDrainers(cfg, Submitted, Submitted)
  {
    states, actions := FirstTask(cfg);
    states, actions := CycleTiming.Perform(cfg, states, actions, OnCycle(1, MakeTask));
    states, actions := CycleTiming.Perform(cfg, states, actions, OnCycle(1, ChooseTask));
    states, actions := CycleTiming.Perform(cfg, states, actions, OnCycle(1, WakeUp));
  }

  /** A submitted drainer whose task is not running takes the first message and passes it to the listener. */
  lemma CallListener(cfg: Config, states: seq<State>, actions: seq<Action>, d: nat)
    returns (states': seq<State>, actions': seq<Action>)
    requires Execution(cfg, states, actions) && d < |states[|actions|].drainers| && states[|actions|].deque != []
    requires var s := states[|actions|];
             s.drainers[d] == Drainer(d, Submitted) && d < |s.runnable| && !s.runnable[d]
    ensures Execution(cfg, states', actions')
    ensures var s := states[|actions|];
            states'[|actions'|] ==
            s.(runnable := s.runnable[d := true], deque := s.deque[1..], consumed := s.consumed + [s.deque[0]],
               drainers := s.drainers[d := Drainer(d, Calling(s.deque[0]))])
  {
    states', actions' := CycleTiming.Perform(cfg, states, actions, OnDrainer(d));
    states', actions' := CycleTiming.Perform(cfg, states', actions', OnDrainer(d));
    states', actions' := CycleTiming.Perform(cfg, states', actions', OnDrainer(d));
  }

  /** The failing run: two cycles make a broadcast task each, and two threads are in the listener at once. */
  lemma TwoCyclesOverlap(cfg: Config) returns (states: seq<State>, actions: seq<Action>)
    requires Drains(cfg)
    ensures Execution(cfg, states, actions) && |states[|actions|].cycles| == 2
    ensures |states[|actions|].drainers| == 2
    ensures states[|actions|].drainers[0].pc.Calling? && states[|actions|].drainers[1].pc.Calling?
  {
    states, actions := SecondTask(cfg);
    states, actions := CallListener(cfg, states, actions, 0);
    states, actions := CallListener(cfg, states, actions, 1);
  }

  /**
   * Listener calls for a queue stay apart and in order, in every run with at most `n` receive cycles, exactly if there
   * is at most one cycle or nothing to drain.
   */
  lemma OrderedIff(cfg: Config, n: nat)
    ensures AlwaysOrdered(cfg, n) <==> n <= 1 || !Drains(cfg)
  {
    if n <= 1 {
      forall states: seq<State>, actions: seq<Action>, k: nat
        | Execution(cfg, states, actions) && k < |states| && |states[k].cycles| <= n
        ensures Ordered(states[k])
      {
        OneCycleOrdered(cfg, states, actions, k);
      }
    } else if !Drains(cfg) {
      forall states: seq<State>, actions: seq<Action>, k: nat
        | Execution(cfg, states, actions) && k < |states| && |states[k].cycles| <= n
        ensures Ordered(states[k])
      {
        IdleAlways(cfg, states, actions, k);
      }
    } else {
      var states, actions := TwoCyclesOverlap(cfg);
      assert !Ordered(states[|actions|]);
    }
  }
}
