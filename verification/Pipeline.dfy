/**
 * The push-consumer pipeline of one process queue: AsyncReceiveMessageCallback.cpp, ProcessQueueImpl.cpp,
 * ConsumeMessageServiceImpl.cpp, ConsumeTask.cpp and BroadcastTask.cpp running together.
 *
 * A receive cycle is started by PushConsumerImpl and then keeps itself going: receive, dispatch, check the throttle,
 * receive again now or one second later. Every atomic operation on the counters, every critical section, every RPC
 * completion and every timer is a step of its own, interleaved in any order with the steps of consume tasks and of pool
 * threads that drain the broadcast deque. The consumer and the process queue stay alive.
 */
module Pipeline {
  import opened Base
  import opened ProcessQueues
  import Tasks = ConsumeTasks

  /** Delay of a receive-later task, in milliseconds. */
  const RETRY_DELAY: nat := 1_000

  datatype Config = Config(
    quantityThreshold: nat,   // maxCachedMessageQuantity()
    memoryThreshold: nat,     // maxCachedMessageMemory(); 0 switches the check off
    batchSize: nat,           // receiveBatchSize(): brokers send no more messages in one reply
    batchBytes: nat,          // nor more bytes
    longPolling: nat,         // deadline of a receive: long polling plus io timeout
    ioTimeout: nat,           // deadline of an offset query
    slack: nat,               // processing time between two waits of a cycle
    broadcasting: bool,
    negativeOffsets: bool,    // brokers may send a negative next offset
    fifoListener: bool)

  function ReceiveTimeout(cfg: Config): nat {
    cfg.longPolling + cfg.ioTimeout
  }

  datatype Phase =
    | Issue                                              // about to receive, throttle passed or first receive
    | Query                                              // asking the broker for the latest offset
    | Outstanding                                        // receive outstanding
    | Accounting(messages: seq<Message>, done: nat, half: bool)  // in accountCache
    | Handing(messages: seq<Message>)                    // in dispatch, these not yet passed on
    | Choose                                             // in dispatch, deque extended
    | Make                                               // about to create the broadcast task
    | Wake(task: nat)                                    // about to read runnable()
    | Check                                              // about to read the quantity
    | CheckMemory                                        // about to read the memory
    | Later                                              // receive-later task pending
    | Dead

  /** Started together with the idle clock, started later, or past its first receive. */
  datatype Stage = Fresh | Late | Going

  /** One receive cycle: where it is, when it has to leave that place, and how far it has come. */
  datatype Cycle = Cycle(phase: Phase, due: nat, stage: Stage)

  datatype DrainPc =
    | Submitted
    | Draining
    | Taken(message: Message)      // dequeued
    | Calling(message: Message)    // in the listener
    | Called(message: Message)     // before the quantity is released
    | Halfway(message: Message)    // before the memory is released
    | Leaving                      // before the second compare-exchange
    | Gone

  /** A pool thread running a broadcast task. */
  datatype Drainer = Drainer(task: nat, pc: DrainPc)

  datatype State = State(
    now: nat,
    idleSince: nat,
    offset: int,                  // next_offset_
    quantity: nat,
    memory: nat,
    cycles: seq<Cycle>,
    tasks: seq<Tasks.Task>,
    deque: seq<Message>,
    broadcastTask: Option<nat>,
    runnable: seq<bool>,          // runnable_ of every broadcast task made so far
    drainers: seq<Drainer>,
    enqueued: seq<Message>,       // all messages ever put into the deque
    consumed: seq<Message>)       // all messages ever passed to the listener by drainers

  datatype CycleAction =
    | DoIssue
    | Answer(reply: Option<nat>)
    | Receive(messages: seq<Message>, next: int)
    | ReceiveError(next: int)
    | AddQuantity
    | AddMemory
    | HandOver
    | ChooseTask
    | MakeTask
    | WakeUp
    | ReadQuantity
    | ReadMemory
    | Fire
    | Die

  datatype Action =
    | Tick(delay: nat)
    | Start
    | OnCycle(i: nat, what: CycleAction)
    | OnTask(j: nat, step: Tasks.Action)
    | OnDrainer(d: nat)

  function Init(now: nat): State {
    State(now, now, -1, 0, 0, [], [], [], None, [], [], [], [])
  }

  predicate CycleEnabled(cfg: Config, s: State, phase: Phase, a: CycleAction) {
    match a
    case DoIssue => phase.Issue?
    case Answer(_) => phase.Query?
    case Receive(messages, next) =>
      && phase.Outstanding? && |messages| <= cfg.batchSize && Bytes(messages) <= cfg.batchBytes
      && (cfg.negativeOffsets || next >= 0)
    case ReceiveError(next) => phase.Outstanding? && (cfg.negativeOffsets || next >= 0)
    case AddQuantity => phase.Accounting? && phase.done < |phase.messages| && !phase.half
    case AddMemory => phase.Accounting? && phase.done < |phase.messages| && phase.half
    case HandOver => phase.Handing? || (phase.Accounting? && phase.done == |phase.messages|)
    case ChooseTask => phase.Choose?
    case MakeTask => phase.Make?
    case WakeUp => phase.Wake? && phase.task < |s.runnable|
    case ReadQuantity => phase.Check?
    case ReadMemory => phase.CheckMemory?
    case Fire => phase.Later?
    case Die => phase.Issue? || phase.Outstanding? || phase.Query? || phase.Check? || phase.Later?
  }

  predicate Enabled(cfg: Config, s: State, a: Action) {
    match a
    case Tick(delay) => forall i :: 0 <= i < |s.cycles| && !s.cycles[i].phase.Dead? ==> s.now + delay <= s.cycles[i].due
    case Start => true
    case OnCycle(i, what) => i < |s.cycles| && CycleEnabled(cfg, s, s.cycles[i].phase, what)
    case OnTask(j, step) => j < |s.tasks| && Tasks.Enabled(s.tasks[j], step)
    case OnDrainer(d) => d < |s.drainers| && !s.drainers[d].pc.Gone? && s.drainers[d].task < |s.runnable|
  }

  function Goto(s: State, i: nat, phase: Phase): State
    requires i < |s.cycles|
  {
    s.(cycles := s.cycles[i := s.cycles[i].(phase := phase)])
  }

  /** The cycle starts to wait, for at most `delay`. */
  function Await(s: State, i: nat, phase: Phase, delay: nat): State
    requires i < |s.cycles|
  {
    s.(cycles := s.cycles[i := s.cycles[i].(phase := phase, due := s.now + delay)])
  }

  /** popMessage() and pullMessage(): note the time, then send the request. */
  function SendReceive(cfg: Config, s: State, i: nat): State
    requires i < |s.cycles|
  {
    s.(idleSince := s.now, cycles := s.cycles[i := Cycle(Outstanding, s.now + ReceiveTimeout(cfg), Going)])
  }

  /** Only pullMessage() stores the next offset of a reply; a request that never got one reports 0. */
  function Noted(cfg: Config, s: State, next: int): State {
    if cfg.broadcasting then s.(offset := next) else s
  }

  /** Passing messages on: a task for the whole batch, a task for each message, or the broadcast deque. */
  function HandedOver(cfg: Config, s: State, i: nat, messages: seq<Message>): State
    requires i < |s.cycles|
  {
    if cfg.fifoListener && cfg.broadcasting then
      Goto(s, i, Choose).(deque := s.deque + messages, enqueued := s.enqueued + messages)
    else if cfg.fifoListener then
      Goto(s, i, Check).(tasks := s.tasks + [Tasks.NewTask(messages)])
    else if messages == [] then Goto(s, i, Check)
    else Goto(s, i, Handing(messages[1..])).(tasks := s.tasks + [Tasks.NewTask([messages[0]])])
  }

  function CycleApply(cfg: Config, s: State, i: nat, a: CycleAction): State
    requires i < |s.cycles| && CycleEnabled(cfg, s, s.cycles[i].phase, a)
  {
    var phase := s.cycles[i].phase;
    match a
    case DoIssue =>
      if cfg.broadcasting && s.offset < 0 then Await(s, i, Query, cfg.ioTimeout) else SendReceive(cfg, s, i)
    case Answer(reply) =>
      if reply.Some? then SendReceive(cfg, s, i).(offset := reply.value) else Goto(s, i, Dead)
    case Receive(messages, next) => Await(Noted(cfg, s, next), i, Accounting(messages, 0, false), cfg.slack)
    case ReceiveError(next) => Await(Noted(cfg, s, next), i, Later, RETRY_DELAY)
    case AddQuantity => Goto(s, i, phase.(half := true)).(quantity := More32(s.quantity, 1))
    case AddMemory =>
      Goto(s, i, phase.(half := false, done := phase.done + 1))
        .(memory := More64(s.memory, phase.messages[phase.done].bodySize))
    case HandOver => HandedOver(cfg, s, i, phase.messages)
    case ChooseTask => Goto(s, i, if s.broadcastTask.None? then Make else Wake(s.broadcastTask.value))
    case MakeTask =>
      Goto(s, i, Choose).(broadcastTask := Some(|s.runnable|), runnable := s.runnable + [false])
    case WakeUp =>
      Goto(s, i, Check)
        .(drainers := if s.runnable[phase.task] then s.drainers else s.drainers + [Drainer(phase.task, Submitted)])
    case ReadQuantity =>
      if s.quantity >= cfg.quantityThreshold then Await(s, i, Later, RETRY_DELAY).(idleSince := s.now)
      else Goto(s, i, if cfg.memoryThreshold == 0 then Issue else CheckMemory)
    case ReadMemory =>
      if s.memory >= cfg.memoryThreshold then Await(s, i, Later, RETRY_DELAY).(idleSince := s.now)
      else Goto(s, i, Issue)
    case Fire => Await(s, i, Check, cfg.slack)
    case Die => Goto(s, i, Dead)
  }

  function TaskApply(cfg: Config, s: State, j: nat, step: Tasks.Action): State
    requires j < |s.tasks| && Tasks.Enabled(s.tasks[j], step)
  {
    var t := s.tasks[j];
    var s' := s.(tasks := s.tasks[j := Tasks.Apply(t, cfg.broadcasting, step)]);
    if step.ReleaseQuantity? then s'.(quantity := Less32(s.quantity, 1))
    else if step.ReleaseMemory? && t.messages != [] then s'.(memory := Less64(s.memory, t.messages[0].bodySize))
    else s'
  }

  function DrainerApply(s: State, d: nat): State
    requires d < |s.drainers| && !s.drainers[d].pc.Gone? && s.drainers[d].task < |s.runnable|
  {
    var task := s.drainers[d].task;
    var To := (pc: DrainPc) => s.(drainers := s.drainers[d := Drainer(task, pc)]);
    match s.drainers[d].pc
    case Submitted =>
      if s.runnable[task] then To(Gone) else To(Draining).(runnable := s.runnable[task := true])
    case Draining =>
      if s.deque == [] then To(Leaving) else To(Taken(s.deque[0])).(deque := s.deque[1..])
    case Taken(m) => To(Calling(m)).(consumed := s.consumed + [m])
    case Calling(m) => To(Called(m))
    case Called(m) => To(Halfway(m)).(quantity := Less32(s.quantity, 1))
    case Halfway(m) => To(Draining).(memory := Less64(s.memory, BodyLength(m)))
    case Leaving => To(Gone).(runnable := s.runnable[task := false])
    case Gone => s
  }

  function NewCycle(cfg: Config, s: State): Cycle {
    Cycle(Issue, s.now + cfg.slack, if s.now == s.idleSince then Fresh else Late)
  }

  function Apply(cfg: Config, s: State, a: Action): State
    requires Enabled(cfg, s, a)
  {
    match a
    case Tick(delay) => s.(now := s.now + delay)
    case Start => s.(cycles := s.cycles + [NewCycle(cfg, s)])
    case OnCycle(i, what) => CycleApply(cfg, s, i, what)
    case OnTask(j, step) => TaskApply(cfg, s, j, step)
    case OnDrainer(d) => DrainerApply(s, d)
  }

  /** The two reads of the throttle check, uninterrupted, decide as shouldThrottle() does. */
  lemma CheckDecides(cfg: Config, s: State, i: nat)
    requires i < |s.cycles| && s.cycles[i].phase.Check?
    ensures var s1 := CycleApply(cfg, s, i, ReadQuantity);
            var s2 := if s1.cycles[i].phase.CheckMemory? then CycleApply(cfg, s1, i, ReadMemory) else s1;
            s2.cycles[i].phase ==
            if ShouldThrottle(s.quantity, s.memory, cfg.quantityThreshold, cfg.memoryThreshold) then Later else Issue
    ensures ShouldThrottle(s.quantity, s.memory, cfg.quantityThreshold, cfg.memoryThreshold) <==>
            s.quantity >= cfg.quantityThreshold || (cfg.memoryThreshold > 0 && s.memory >= cfg.memoryThreshold)
  {}

  /** A finite run from the creation of the process queue. */
  ghost predicate Execution(cfg: Config, states: seq<State>, actions: seq<Action>) {
    && |states| == |actions| + 1 && states[0] == Init(states[0].now)
    && forall k :: 0 <= k < |actions| ==>
         Enabled(cfg, states[k], actions[k]) && states[k + 1] == Apply(cfg, states[k], actions[k])
  }

  lemma {:induction false} CyclesOnlyGrow(cfg: Config, states: seq<State>, actions: seq<Action>, k: nat, m: nat)
    requires Execution(cfg, states, actions) && k <= m < |states|
    ensures |states[k].cycles| <= |states[m].cycles|
    decreases m
  {
    if k < m {
      CyclesOnlyGrow(cfg, states, actions, k, m - 1);
      assert states[m] == Apply(cfg, states[m - 1], actions[m - 1]);
    }
  }

  // ---- What single steps do, in any run ----

  /** The task is new: it holds these messages, none consumed yet, and is with the pool. */
  predicate FreshTask(t: Tasks.Task, messages: seq<Message>) {
    && t.messages == messages && t.fifo == (|messages| > 1)
    && t.nextStep.Consume? && t.retries == 0 && t.place.Pool? && t.log == []
  }

  /**
   * dispatch(), in any run. A FIFO listener gets the whole batch, in one task or, when broadcasting, at the end of the
   * deque; a standard listener gets one task for each message, in order. Tasks are made nowhere else, and change by
   * their own steps only.
   */
  lemma DispatchEffect(cfg: Config, states: seq<State>, actions: seq<Action>, k: nat)
    requires Execution(cfg, states, actions) && k < |actions|
    ensures var s, s', a := states[k], states[k + 1], actions[k];
            if a.OnCycle? && a.what.HandOver? then
              var messages := s.cycles[a.i].phase.messages;
              if cfg.fifoListener && cfg.broadcasting then
                && s'.deque == s.deque + messages && s'.enqueued == s.enqueued + messages && s'.tasks == s.tasks
                && s'.cycles[a.i].phase == Choose
              else
                && s'.deque == s.deque && s'.enqueued == s.enqueued
                && if cfg.fifoListener then
                     && |s'.tasks| == |s.tasks| + 1 && s'.tasks[..|s.tasks|] == s.tasks
                     && FreshTask(s'.tasks[|s.tasks|], messages) && s'.cycles[a.i].phase == Check
                   else if messages == [] then
                     s'.tasks == s.tasks && s'.cycles[a.i].phase == Check
                   else
                     && |s'.tasks| == |s.tasks| + 1 && s'.tasks[..|s.tasks|] == s.tasks
                     && FreshTask(s'.tasks[|s.tasks|], [messages[0]])
                     && s'.cycles[a.i].phase == Handing(messages[1..])
            else
              && s'.enqueued == s.enqueued
              && s'.tasks == if a.OnTask? then s.tasks[a.j := Tasks.Apply(s.tasks[a.j], cfg.broadcasting, a.step)]
                             else s.tasks
  {
    if actions[k].OnDrainer? {
      assert DrainerApply(states[k], actions[k].d).tasks == states[k].tasks;
    }
  }

  /** The batch that came in is the one that is counted, message by message, and then dispatched as a whole. */
  lemma ReceiveEffect(cfg: Config, states: seq<State>, actions: seq<Action>, k: nat)
    requires Execution(cfg, states, actions) && k < |actions| && actions[k].OnCycle?
    ensures var s, s', i := states[k], states[k + 1], actions[k].i;
            match actions[k].what
            case Receive(messages, _) => s'.cycles[i].phase == Accounting(messages, 0, false)
            case AddQuantity => s'.cycles[i].phase == s.cycles[i].phase.(half := true)
            case AddMemory =>
              s'.cycles[i].phase == Accounting(s.cycles[i].phase.messages, s.cycles[i].phase.done + 1, false)
            case HandOver =>
              s.cycles[i].phase.Accounting? ==> s.cycles[i].phase.done == |s.cycles[i].phase.messages|
            case Die => s'.cycles[i].phase == Dead
            case _ => true
  {
    assert Enabled(cfg, states[k], actions[k]);
  }

  /** The cycle's thread does `n` steps of dispatch() by itself. */
  function Dispatched(cfg: Config, s: State, i: nat, n: nat): (r: State)
    requires i < |s.cycles|
    ensures |r.cycles| == |s.cycles|
    decreases n
  {
    if n == 0 || !CycleEnabled(cfg, s, s.cycles[i].phase, HandOver) then s
    else Dispatched(cfg, CycleApply(cfg, s, i, HandOver), i, n - 1)
  }

  /** Run by itself, dispatch() for a standard listener makes one task for each message of the batch, in order. */
  lemma {:induction false} DispatchesAll(cfg: Config, s: State, i: nat, messages: seq<Message>)
    requires i < |s.cycles| && s.cycles[i].phase == Handing(messages) && !cfg.fifoListener
    ensures var r := Dispatched(cfg, s, i, |messages| + 1);
            && r.cycles[i].phase == Check && |r.tasks| == |s.tasks| + |messages| && r.tasks[..|s.tasks|] == s.tasks
            && forall j :: 0 <= j < |messages| ==> FreshTask(r.tasks[|s.tasks| + j], [messages[j]])
    decreases |messages|
  {
    var s1 := CycleApply(cfg, s, i, HandOver);
    if messages != [] {
      DispatchesAll(cfg, s1, i, messages[1..]);
      var r := Dispatched(cfg, s, i, |messages| + 1);
      assert r == Dispatched(cfg, s1, i, |messages|);
      assert r.tasks[..|s1.tasks|] == s1.tasks && r.tasks[|s.tasks|] == s1.tasks[|s.tasks|];
      assert r.tasks[..|s.tasks|] == s1.tasks[..|s.tasks|];
      forall j | 0 <= j < |messages| ensures FreshTask(r.tasks[|s.tasks| + j], [messages[j]]) {
        if j > 0 {
          assert FreshTask(r.tasks[|s1.tasks| + (j - 1)], [messages[1..][j - 1]]);
        }
      }
    }
  }

  /**
   * The broadcast task, in any run: the task of the queue is woken, or made first if there is none; a woken task is
   * submitted once more exactly if its flag is not set. No other step submits one.
   */
  lemma WakeEffect(cfg: Config, states: seq<State>, actions: seq<Action>, k: nat)
    requires Execution(cfg, states, actions) && k < |actions|
    ensures var s, s', a := states[k], states[k + 1], actions[k];
            && (a.OnCycle? && a.what.ChooseTask? ==>
                  s'.cycles[a.i].phase == if s.broadcastTask.None? then Make else Wake(s.broadcastTask.value))
            && (a.OnCycle? && a.what.MakeTask? ==>
                  && s'.broadcastTask == Some(|s.runnable|) && s'.runnable == s.runnable + [false]
                  && s'.cycles[a.i].phase == Choose)
            && if a.OnCycle? && a.what.WakeUp? then
                 var task := s.cycles[a.i].phase.task;
                 && s'.cycles[a.i].phase == Check
                 && s'.drainers == if s.runnable[task] then s.drainers else s.drainers + [Drainer(task, Submitted)]
               else |s'.drainers| == |s.drainers|
  {
    assert Enabled(cfg, states[k], actions[k]);
  }

  /**
   * The offset, in any run, is what the broker said last: in a reply to a broadcasting consumer or to an offset query.
   * No other step changes it.
   */
  lemma OffsetEffect(cfg: Config, states: seq<State>, actions: seq<Action>, k: nat)
    requires Execution(cfg, states, actions) && k < |actions|
    ensures var s, s', a := states[k], states[k + 1], actions[k];
            s'.offset ==
            if a.OnCycle? && (a.what.Receive? || a.what.ReceiveError?) && cfg.broadcasting then a.what.next
            else if a.OnCycle? && a.what.Answer? && a.what.reply.Some? then a.what.reply.value
            else s.offset
  {
    if actions[k].OnDrainer? {
      assert DrainerApply(states[k], actions[k].d).offset == states[k].offset;
    }
  }

  /** The step sends a receive: the throttle was passed, and the offset is known or has just been. */
  predicate Sends(cfg: Config, s: State, a: Action) {
    && a.OnCycle?
    && ((a.what.DoIssue? && (!cfg.broadcasting || s.offset >= 0)) || (a.what.Answer? && a.what.reply.Some?))
  }

  /** The step finds a counter at its threshold. */
  predicate Throttles(cfg: Config, s: State, a: Action) {
    && a.OnCycle?
    && ((a.what.ReadQuantity? && s.quantity >= cfg.quantityThreshold)
        || (a.what.ReadMemory? && s.memory >= cfg.memoryThreshold))
  }

  /** The idle clock, in any run, is set to the present by sending a receive and by throttling, and by nothing else. */
  lemma IdleClockEffect(cfg: Config, states: seq<State>, actions: seq<Action>, k: nat)
    requires Execution(cfg, states, actions) && k < |actions|
    ensures var s, s', a := states[k], states[k + 1], actions[k];
            && s'.idleSince == (if Sends(cfg, s, a) || Throttles(cfg, s, a) then s.now else s.idleSince)
            && (Sends(cfg, s, a) ==> s'.cycles[a.i].phase == Outstanding)
            && (Throttles(cfg, s, a) ==> s'.cycles[a.i].phase == Later && s'.cycles[a.i].due == s.now + 1_000)
  {
    if actions[k].OnDrainer? {
      assert DrainerApply(states[k], actions[k].d).idleSince == states[k].idleSince;
    }
  }
}
