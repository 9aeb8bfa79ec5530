/**
 * What the counters of a process queue mean, and how far they can grow: conservation of cached messages and bytes,
 * absence of underflow and overflow, and the back-pressure bound.
 */
module Conservation {
  import opened Modular
  import opened ProcessQueues
  import opened Sums
  import opened Pipeline
  import Tasks = ConsumeTasks

  // ---- Who holds a message that has been counted and not yet released ----

  function CycleQuantity(c: Cycle): int {
    match c.phase
    case Accounting(_, done, half) => done + if half then 1 else 0
    case Handing(messages) => |messages|
    case _ => 0
  }

  function CycleMemory(c: Cycle): int {
    match c.phase
    case Accounting(messages, done, _) => if done <= |messages| then Bytes(messages[..done]) else 0
    case Handing(messages) => Bytes(messages)
    case _ => 0
  }

  function TaskQuantity(t: Tasks.Task): int {
    |t.messages| - if t.place.PopMemory? then 1 else 0
  }

  function TaskMemory(t: Tasks.Task): int {
    Bytes(t.messages)
  }

  function DrainerQuantity(d: Drainer): int {
    if d.pc.Taken? || d.pc.Calling? || d.pc.Called? then 1 else 0
  }

  function DrainerMemory(d: Drainer): int {
    match d.pc
    case Taken(m) => m.bodySize
    case Calling(m) => m.bodySize
    case Called(m) => m.bodySize
    case Halfway(m) => m.bodySize
    case _ => 0
  }

  /** Messages counted and not yet released: with the dispatching cycles, in tasks, in the deque, with drainers. */
  ghost function HeldQuantity(s: State): int {
    Sum(s.cycles, CycleQuantity) + Sum(s.tasks, TaskQuantity) + |s.deque| + Sum(s.drainers, DrainerQuantity)
  }

  /** Their body bytes. */
  ghost function HeldMemory(s: State): int {
    Sum(s.cycles, CycleMemory) + Sum(s.tasks, TaskMemory) + Bytes(s.deque) + Sum(s.drainers, DrainerMemory)
  }

  // ---- Shape of reachable states ----

  ghost predicate PhaseInv(cfg: Config, s: State, phase: Phase) {
    match phase
    case Accounting(messages, done, half) =>
      && done + (if half then 1 else 0) <= |messages| <= cfg.batchSize
      && Bytes(messages) <= cfg.batchBytes
    case Wake(task) => task < |s.runnable|
    case _ => true
  }

  ghost predicate TasksInv(tasks: seq<Tasks.Task>) {
    forall j :: 0 <= j < |tasks| ==> Tasks.Inv(tasks[j])
  }

  ghost predicate Shape(cfg: Config, s: State) {
    && (forall i :: 0 <= i < |s.cycles| ==> PhaseInv(cfg, s, s.cycles[i].phase))
    && TasksInv(s.tasks)
    && (forall d :: 0 <= d < |s.drainers| ==> s.drainers[d].task < |s.runnable|)
    && (s.broadcastTask.Some? ==> s.broadcastTask.value < |s.runnable|)
  }

  lemma TasksAppendOne(tasks: seq<Tasks.Task>, task: Tasks.Task)
    requires TasksInv(tasks) && Tasks.Inv(task)
    ensures TasksInv(tasks + [task])
  {}

  lemma TasksAppend(tasks: seq<Tasks.Task>, messages: seq<Message>)
    requires TasksInv(tasks)
    ensures TasksInv(tasks + [Tasks.NewTask(messages)])
  {
    Tasks.NewTaskInv(messages);
    TasksAppendOne(tasks, Tasks.NewTask(messages));
  }

  lemma TasksUpdate(tasks: seq<Tasks.Task>, j: nat, broadcasting: bool, step: Tasks.Action)
    requires TasksInv(tasks) && j < |tasks| && Tasks.Enabled(tasks[j], step)
    ensures TasksInv(tasks[j := Tasks.Apply(tasks[j], broadcasting, step)])
  {
    Tasks.Step(tasks[j], broadcasting, step);
    var tasks' := tasks[j := Tasks.Apply(tasks[j], broadcasting, step)];
    forall k | 0 <= k < |tasks'| ensures Tasks.Inv(tasks'[k]) {
      assert k != j ==> tasks'[k] == tasks[k];
    }
  }

  lemma HandOverShape(cfg: Config, s: State, i: nat, messages: seq<Message>)
    requires Shape(cfg, s) && i < |s.cycles|
    ensures Shape(cfg, HandedOver(cfg, s, i, messages))
  {
    var s' := HandedOver(cfg, s, i, messages);
    assert TasksInv(s'.tasks) by {
      TasksAppend(s.tasks, messages);
      if messages != [] {
        TasksAppend(s.tasks, [messages[0]]);
      }
    }
  }

  lemma CycleShape(cfg: Config, s: State, i: nat, a: CycleAction)
    requires Shape(cfg, s) && i < |s.cycles| && CycleEnabled(cfg, s, s.cycles[i].phase, a)
    ensures Shape(cfg, CycleApply(cfg, s, i, a))
  {
    if a.HandOver? {
      HandOverShape(cfg, s, i, s.cycles[i].phase.messages);
    } else {
      var s' := CycleApply(cfg, s, i, a);
      assert s'.tasks == s.tasks && |s'.runnable| >= |s.runnable|;
    }
  }

  lemma DrainerShape(cfg: Config, s: State, d: nat)
    requires Shape(cfg, s) && d < |s.drainers| && !s.drainers[d].pc.Gone?
    ensures Shape(cfg, DrainerApply(s, d))
  {
    var s' := DrainerApply(s, d);
    assert s'.cycles == s.cycles && s'.tasks == s.tasks && |s'.runnable| == |s.runnable|;
  }

  lemma ShapeStep(cfg: Config, s: State, a: Action)
    requires Shape(cfg, s) && Enabled(cfg, s, a)
    ensures Shape(cfg, Apply(cfg, s, a))
  {
    match a {
      case OnCycle(i, what) => CycleShape(cfg, s, i, what);
      case OnTask(j, step) => TasksUpdate(s.tasks, j, cfg.broadcasting, step);
      case OnDrainer(d) => DrainerShape(cfg, s, d);
      case _ =>
    }
  }

  // ---- Every step changes the counters by what it changes in the holdings ----

  function QuantityChange(s: State, a: Action): int {
    match a
    case OnCycle(_, what) => if what.AddQuantity? then 1 else 0
    case OnTask(_, step) => if step.ReleaseQuantity? then -1 else 0
    case OnDrainer(d) => if d < |s.drainers| && s.drainers[d].pc.Called? then -1 else 0
    case _ => 0
  }

  function MemoryChange(s: State, a: Action): int {
    match a
    case OnCycle(i, what) =>
      if what.AddMemory? && i < |s.cycles| && s.cycles[i].phase.Accounting?
         && s.cycles[i].phase.done < |s.cycles[i].phase.messages|
      then s.cycles[i].phase.messages[s.cycles[i].phase.done].bodySize else 0
    case OnTask(j, step) =>
      if step.ReleaseMemory? && j < |s.tasks| && s.tasks[j].messages != []
      then 0 - s.tasks[j].messages[0].bodySize else 0
    case OnDrainer(d) =>
      if d < |s.drainers| && s.drainers[d].pc.Halfway? then 0 - s.drainers[d].pc.message.bodySize else 0
    case _ => 0
  }

  lemma HandOverCycle(cfg: Config, s: State, i: nat)
    requires Shape(cfg, s) && i < |s.cycles| && CycleEnabled(cfg, s, s.cycles[i].phase, HandOver)
    ensures CycleQuantity(s.cycles[i]) == |s.cycles[i].phase.messages|
    ensures CycleMemory(s.cycles[i]) == Bytes(s.cycles[i].phase.messages)
  {
    var messages := s.cycles[i].phase.messages;
    assert messages[..|messages|] == messages;
  }

  lemma PassToTask(s: State, s': State, i: nat, task: seq<Message>, rest: seq<Message>)
    requires i < |s.cycles| == |s'.cycles| && s'.cycles == s.cycles[i := s'.cycles[i]]
    requires s' == s.(cycles := s'.cycles, tasks := s.tasks + [Tasks.NewTask(task)])
    requires CycleQuantity(s.cycles[i]) == |task| + |rest| && CycleMemory(s.cycles[i]) == Bytes(task) + Bytes(rest)
    requires CycleQuantity(s'.cycles[i]) == |rest| && CycleMemory(s'.cycles[i]) == Bytes(rest)
    ensures HeldQuantity(s') == HeldQuantity(s) && HeldMemory(s') == HeldMemory(s)
  {
    SumUpdate(s.cycles, i, s'.cycles[i], CycleQuantity);
    SumUpdate(s.cycles, i, s'.cycles[i], CycleMemory);
    SumAppend(s.tasks, Tasks.NewTask(task), TaskQuantity);
    SumAppend(s.tasks, Tasks.NewTask(task), TaskMemory);
  }

  lemma PassToDeque(s: State, s': State, i: nat, messages: seq<Message>)
    requires i < |s.cycles| == |s'.cycles| && s'.cycles == s.cycles[i := s'.cycles[i]]
    requires s'.tasks == s.tasks && s'.drainers == s.drainers && s'.deque == s.deque + messages
    requires CycleQuantity(s.cycles[i]) == |messages| && CycleMemory(s.cycles[i]) == Bytes(messages)
    requires CycleQuantity(s'.cycles[i]) == 0 == CycleMemory(s'.cycles[i])
    ensures HeldQuantity(s') == HeldQuantity(s) && HeldMemory(s') == HeldMemory(s)
  {
    SumUpdate(s.cycles, i, s'.cycles[i], CycleQuantity);
    SumUpdate(s.cycles, i, s'.cycles[i], CycleMemory);
    BytesConcat(s.deque, messages);
  }

  lemma HandOverKeeps(cfg: Config, s: State, i: nat)
    requires Shape(cfg, s) && i < |s.cycles| && CycleEnabled(cfg, s, s.cycles[i].phase, HandOver)
    ensures var s' := HandedOver(cfg, s, i, s.cycles[i].phase.messages);
            HeldQuantity(s') == HeldQuantity(s) && HeldMemory(s') == HeldMemory(s)
  {
    var messages := s.cycles[i].phase.messages;
    var s' := HandedOver(cfg, s, i, messages);
    HandOverCycle(cfg, s, i);
    if cfg.fifoListener && !cfg.broadcasting {
      PassToTask(s, s', i, messages, []);
    } else if !cfg.fifoListener && messages != [] {
      BytesHead(messages);
      BytesHead([messages[0]]);
      PassToTask(s, s', i, [messages[0]], messages[1..]);
    } else {
      PassToDeque(s, s', i, messages);
    }
  }

  /** Only cycle `i` changes, apart from threads newly submitted. */
  ghost predicate OnlyCycle(s: State, s': State, i: nat) {
    && i < |s.cycles| && i < |s'.cycles| && s'.cycles == s.cycles[i := s'.cycles[i]]
    && s'.tasks == s.tasks && s'.deque == s.deque
    && (s'.drainers == s.drainers || exists b :: s'.drainers == s.drainers + [Drainer(b, Submitted)])
  }

  lemma CycleHoldings(s: State, s': State, i: nat)
    requires OnlyCycle(s, s', i)
    ensures HeldQuantity(s') == HeldQuantity(s) - CycleQuantity(s.cycles[i]) + CycleQuantity(s'.cycles[i])
    ensures HeldMemory(s') == HeldMemory(s) - CycleMemory(s.cycles[i]) + CycleMemory(s'.cycles[i])
  {
    SumUpdate(s.cycles, i, s'.cycles[i], CycleQuantity);
    SumUpdate(s.cycles, i, s'.cycles[i], CycleMemory);
    if s'.drainers != s.drainers {
      var b :| s'.drainers == s.drainers + [Drainer(b, Submitted)];
      SumAppend(s.drainers, Drainer(b, Submitted), DrainerQuantity);
      SumAppend(s.drainers, Drainer(b, Submitted), DrainerMemory);
    }
  }

  lemma CycleOnly(cfg: Config, s: State, i: nat, a: CycleAction)
    requires i < |s.cycles| && CycleEnabled(cfg, s, s.cycles[i].phase, a) && !a.HandOver?
    ensures OnlyCycle(s, CycleApply(cfg, s, i, a), i)
  {
    var s' := CycleApply(cfg, s, i, a);
    if a.WakeUp? && !s.runnable[s.cycles[i].phase.task] {
      assert s'.drainers == s.drainers + [Drainer(s.cycles[i].phase.task, Submitted)];
    }
  }

  lemma CycleMeasures(cfg: Config, s: State, i: nat, a: CycleAction)
    requires Shape(cfg, s) && i < |s.cycles| && CycleEnabled(cfg, s, s.cycles[i].phase, a) && !a.HandOver?
    ensures var c, c' := s.cycles[i], CycleApply(cfg, s, i, a).cycles[i];
            && CycleQuantity(c') == CycleQuantity(c) + QuantityChange(s, OnCycle(i, a))
            && CycleMemory(c') == CycleMemory(c) + MemoryChange(s, OnCycle(i, a))
  {
    var c := s.cycles[i];
    if a.AddMemory? {
      assert c.phase.messages[..c.phase.done + 1][..c.phase.done] == c.phase.messages[..c.phase.done];
    }
  }

  lemma CycleBalance(cfg: Config, s: State, i: nat, a: CycleAction)
    requires Shape(cfg, s) && i < |s.cycles| && CycleEnabled(cfg, s, s.cycles[i].phase, a) && !a.HandOver?
    ensures var s' := CycleApply(cfg, s, i, a);
            && HeldQuantity(s') == HeldQuantity(s) + QuantityChange(s, OnCycle(i, a))
            && HeldMemory(s') == HeldMemory(s) + MemoryChange(s, OnCycle(i, a))
  {
    CycleOnly(cfg, s, i, a);
    CycleHoldings(s, CycleApply(cfg, s, i, a), i);
    CycleMeasures(cfg, s, i, a);
  }

  lemma TaskMeasures(t: Tasks.Task, broadcasting: bool, step: Tasks.Action)
    requires Tasks.Inv(t) && Tasks.Enabled(t, step)
    ensures var t' := Tasks.Apply(t, broadcasting, step);
            && TaskQuantity(t') == TaskQuantity(t) - (if step.ReleaseQuantity? then 1 else 0)
            && TaskMemory(t') == TaskMemory(t) - (if step.ReleaseMemory? then t.messages[0].bodySize else 0)
    ensures step.ReleaseQuantity? || step.ReleaseMemory? ==> t.messages != []
  {
    if step.ReleaseMemory? {
      BytesHead(t.messages);
    }
  }

  lemma TaskHoldings(s: State, s': State, j: nat)
    requires j < |s.tasks| == |s'.tasks| && s'.tasks == s.tasks[j := s'.tasks[j]]
    requires s'.cycles == s.cycles && s'.deque == s.deque && s'.drainers == s.drainers
    ensures HeldQuantity(s') == HeldQuantity(s) - TaskQuantity(s.tasks[j]) + TaskQuantity(s'.tasks[j])
    ensures HeldMemory(s') == HeldMemory(s) - TaskMemory(s.tasks[j]) + TaskMemory(s'.tasks[j])
  {
    SumUpdate(s.tasks, j, s'.tasks[j], TaskQuantity);
    SumUpdate(s.tasks, j, s'.tasks[j], TaskMemory);
  }

  lemma TaskFrame(cfg: Config, s: State, j: nat, step: Tasks.Action)
    requires j < |s.tasks| && Tasks.Enabled(s.tasks[j], step)
    ensures var s' := TaskApply(cfg, s, j, step);
            && s'.tasks == s.tasks[j := Tasks.Apply(s.tasks[j], cfg.broadcasting, step)]
            && s'.cycles == s.cycles && s'.deque == s.deque && s'.drainers == s.drainers
  {}

  lemma TaskBalance(cfg: Config, s: State, j: nat, step: Tasks.Action)
    requires Shape(cfg, s) && j < |s.tasks| && Tasks.Enabled(s.tasks[j], step)
    ensures var s' := TaskApply(cfg, s, j, step);
            && HeldQuantity(s') == HeldQuantity(s) + QuantityChange(s, OnTask(j, step))
            && HeldMemory(s') == HeldMemory(s) + MemoryChange(s, OnTask(j, step))
  {
    TaskMeasures(s.tasks[j], cfg.broadcasting, step);
    TaskFrame(cfg, s, j, step);
    TaskHoldings(s, TaskApply(cfg, s, j, step), j);
  }

  lemma DrainerHoldings(s: State, s': State, d: nat)
    requires d < |s.drainers| == |s'.drainers| && s'.drainers == s.drainers[d := s'.drainers[d]]
    requires s'.cycles == s.cycles && s'.tasks == s.tasks
    ensures HeldQuantity(s') == HeldQuantity(s) - DrainerQuantity(s.drainers[d]) + DrainerQuantity(s'.drainers[d])
                                - |s.deque| + |s'.deque|
    ensures HeldMemory(s') == HeldMemory(s) - DrainerMemory(s.drainers[d]) + DrainerMemory(s'.drainers[d])
                              - Bytes(s.deque) + Bytes(s'.deque)
  {
    SumUpdate(s.drainers, d, s'.drainers[d], DrainerQuantity);
    SumUpdate(s.drainers, d, s'.drainers[d], DrainerMemory);
  }

  lemma DrainerBalance(s: State, d: nat)
    requires d < |s.drainers| && !s.drainers[d].pc.Gone? && s.drainers[d].task < |s.runnable|
    ensures var s' := DrainerApply(s, d);
            && HeldQuantity(s') == HeldQuantity(s) + QuantityChange(s, OnDrainer(d))
            && HeldMemory(s') == HeldMemory(s) + MemoryChange(s, OnDrainer(d))
  {
    DrainerHoldings(s, DrainerApply(s, d), d);
    if s.drainers[d].pc.Draining? && s.deque != [] {
      BytesHead(s.deque);
    }
  }

  lemma Balance(cfg: Config, s: State, a: Action)
    requires Shape(cfg, s) && Enabled(cfg, s, a)
    ensures HeldQuantity(Apply(cfg, s, a)) == HeldQuantity(s) + QuantityChange(s, a)
    ensures HeldMemory(Apply(cfg, s, a)) == HeldMemory(s) + MemoryChange(s, a)
  {
    match a {
      case Tick(_) =>
      case Start =>
        SumAppend(s.cycles, NewCycle(cfg, s), CycleQuantity);
        SumAppend(s.cycles, NewCycle(cfg, s), CycleMemory);
      case OnCycle(i, what) =>
        if what.HandOver? {
          HandOverKeeps(cfg, s, i);
        } else {
          CycleBalance(cfg, s, i, what);
        }
      case OnTask(j, step) => TaskBalance(cfg, s, j, step);
      case OnDrainer(d) => DrainerBalance(s, d);
    }
  }

  ghost predicate InRange(s: State) {
    s.quantity < QUANTITY_MODULUS && s.memory < MEMORY_MODULUS
  }

  ghost predicate Follows(s: State, s': State, a: Action) {
    && s'.quantity == (s.quantity + QuantityChange(s, a)) % QUANTITY_MODULUS
    && s'.memory == (s.memory + MemoryChange(s, a)) % MEMORY_MODULUS
  }

  lemma CycleFollows(cfg: Config, s: State, i: nat, a: CycleAction)
    requires InRange(s) && i < |s.cycles| && CycleEnabled(cfg, s, s.cycles[i].phase, a)
    ensures Follows(s, CycleApply(cfg, s, i, a), OnCycle(i, a))
  {
    var s' := CycleApply(cfg, s, i, a);
    if !a.AddQuantity? {
      assert s'.quantity == s.quantity;
    }
    if !a.AddMemory? {
      assert s'.memory == s.memory;
    }
  }

  /** The counters follow, in unsigned arithmetic. */
  lemma CountersFollow(cfg: Config, s: State, a: Action)
    requires InRange(s) && Enabled(cfg, s, a)
    ensures Follows(s, Apply(cfg, s, a), a)
  {
    match a {
      case OnCycle(i, what) => CycleFollows(cfg, s, i, what);
      case _ =>
    }
  }

  // ---- Conservation modulo the width of the counters: no assumption on the broker or the configuration ----

  ghost predicate Conserved(s: State) {
    && s.quantity == HeldQuantity(s) % QUANTITY_MODULUS
    && s.memory == HeldMemory(s) % MEMORY_MODULUS
  }

  lemma FollowsMod(counter: int, held: int, change: int, m: int)
    requires m > 0 && counter == held % m
    ensures (counter + change) % m == (held + change) % m
  {
    ModAdd(held, change, m);
  }

  lemma ConservedFollows(s: State, s': State, a: Action)
    requires Conserved(s) && Follows(s, s', a)
    requires HeldQuantity(s') == HeldQuantity(s) + QuantityChange(s, a)
    requires HeldMemory(s') == HeldMemory(s) + MemoryChange(s, a)
    ensures Conserved(s')
  {
    FollowsMod(s.quantity, HeldQuantity(s), QuantityChange(s, a), QUANTITY_MODULUS);
    FollowsMod(s.memory, HeldMemory(s), MemoryChange(s, a), MEMORY_MODULUS);
  }

  lemma ConservedStep(cfg: Config, s: State, a: Action)
    requires Shape(cfg, s) && Conserved(s) && Enabled(cfg, s, a)
    ensures Conserved(Apply(cfg, s, a))
  {
    Balance(cfg, s, a);
    CountersFollow(cfg, s, a);
    ConservedFollows(s, Apply(cfg, s, a), a);
  }

  // ---- The back-pressure bound ----

  /** Messages a cycle may still add before it next looks at the quantity. */
  function QuantityLeft(cfg: Config, c: Cycle): int {
    match c.phase
    case Issue => cfg.batchSize
    case Query => cfg.batchSize
    case Outstanding => cfg.batchSize
    case CheckMemory => cfg.batchSize
    case Accounting(_, done, half) => cfg.batchSize - done - if half then 1 else 0
    case _ => 0
  }

  /** Bytes a cycle may still add before it next looks at the memory. */
  function MemoryLeft(cfg: Config, c: Cycle): int {
    match c.phase
    case Issue => cfg.batchBytes
    case Query => cfg.batchBytes
    case Outstanding => cfg.batchBytes
    case Accounting(_, _, _) => cfg.batchBytes - CycleMemory(c)
    case _ => 0
  }

  function QuantityAllowance(cfg: Config): Cycle -> int {
    (c: Cycle) => QuantityLeft(cfg, c)
  }

  function MemoryAllowance(cfg: Config): Cycle -> int {
    (c: Cycle) => MemoryLeft(cfg, c)
  }

  /** The largest quantity that `n` receive cycles can leave in the queue; a first receive is not checked. */
  function QuantityBound(cfg: Config, n: nat): int {
    (if cfg.quantityThreshold == 0 then 0 else cfg.quantityThreshold - 1) + cfg.batchSize * n
  }

  function MemoryBound(cfg: Config, n: nat): int {
    cfg.memoryThreshold - 1 + cfg.batchBytes * n
  }

  ghost predicate QuantityBounded(cfg: Config, s: State) {
    HeldQuantity(s) + Sum(s.cycles, QuantityAllowance(cfg)) <= QuantityBound(cfg, |s.cycles|)
  }

  ghost predicate MemoryBounded(cfg: Config, s: State) {
    HeldMemory(s) + Sum(s.cycles, MemoryAllowance(cfg)) <= MemoryBound(cfg, |s.cycles|)
  }

  lemma {:induction false} BytesPrefix(messages: seq<Message>, i: nat)
    requires i <= |messages|
    ensures Bytes(messages[..i]) <= Bytes(messages)
  {
    BytesConcat(messages[..i], messages[i..]);
    assert messages[..i] + messages[i..] == messages;
  }

  lemma AllowancesInRange(cfg: Config, s: State)
    requires Shape(cfg, s)
    ensures forall c :: c in s.cycles ==> 0 <= QuantityAllowance(cfg)(c) <= cfg.batchSize
    ensures forall c :: c in s.cycles ==> 0 <= MemoryAllowance(cfg)(c) <= cfg.batchBytes
  {
    forall c | c in s.cycles ensures 0 <= QuantityAllowance(cfg)(c) <= cfg.batchSize
                                     && 0 <= MemoryAllowance(cfg)(c) <= cfg.batchBytes {
      var i :| 0 <= i < |s.cycles| && s.cycles[i] == c;
      if c.phase.Accounting? {
        BytesPrefix(c.phase.messages, c.phase.done);
      }
    }
  }

  lemma TaskIsNatural(t: Tasks.Task)
    requires Tasks.Inv(t)
    ensures TaskQuantity(t) >= 0
  {
    assert Tasks.PlaceInv(t);
  }

  lemma CyclesNatural(cycles: seq<Cycle>)
    ensures Sum(cycles, CycleQuantity) >= 0 && Sum(cycles, CycleMemory) >= 0
  {
    SumNonNegative(cycles, CycleQuantity);
    SumNonNegative(cycles, CycleMemory);
  }

  lemma TasksNatural(tasks: seq<Tasks.Task>)
    requires TasksInv(tasks)
    ensures Sum(tasks, TaskQuantity) >= 0 && Sum(tasks, TaskMemory) >= 0
  {
    forall t | t in tasks ensures TaskQuantity(t) >= 0 {
      var j :| 0 <= j < |tasks| && tasks[j] == t;
      TaskIsNatural(tasks[j]);
    }
    SumNonNegative(tasks, TaskQuantity);
    SumNonNegative(tasks, TaskMemory);
  }

  lemma DrainersNatural(drainers: seq<Drainer>)
    ensures Sum(drainers, DrainerQuantity) >= 0 && Sum(drainers, DrainerMemory) >= 0
  {
    SumNonNegative(drainers, DrainerQuantity);
    SumNonNegative(drainers, DrainerMemory);
  }

  lemma HeldIsNatural(cfg: Config, s: State)
    requires Shape(cfg, s)
    ensures HeldQuantity(s) >= 0 && HeldMemory(s) >= 0
  {
    CyclesNatural(s.cycles);
    TasksNatural(s.tasks);
    DrainersNatural(s.drainers);
  }

  /** As long as the holdings fit, the counters are the holdings. */
  lemma CountersExact(cfg: Config, s: State)
    requires Shape(cfg, s) && Conserved(s)
    ensures HeldQuantity(s) < QUANTITY_MODULUS ==> s.quantity == HeldQuantity(s)
    ensures HeldMemory(s) < MEMORY_MODULUS ==> s.memory == HeldMemory(s)
  {
    HeldIsNatural(cfg, s);
  }

  lemma HeldWithinBound(cfg: Config, s: State)
    requires Shape(cfg, s)
    ensures QuantityBounded(cfg, s) ==> HeldQuantity(s) <= QuantityBound(cfg, |s.cycles|)
    ensures MemoryBounded(cfg, s) ==> HeldMemory(s) <= MemoryBound(cfg, |s.cycles|)
  {
    AllowancesInRange(cfg, s);
    SumBounds(s.cycles, QuantityAllowance(cfg), cfg.batchSize);
    SumBounds(s.cycles, MemoryAllowance(cfg), cfg.batchBytes);
  }

  lemma OneMoreBatch(size: nat, n: nat)
    ensures size * (n + 1) == size * n + size
  {}

  lemma StartBound(cfg: Config, s: State)
    requires Shape(cfg, s)
    ensures var s' := Apply(cfg, s, Start);
            && (QuantityBounded(cfg, s) ==> QuantityBounded(cfg, s'))
            && (MemoryBounded(cfg, s) ==> MemoryBounded(cfg, s'))
  {
    Balance(cfg, s, Start);
    StartedBound(cfg, s, Apply(cfg, s, Start), NewCycle(cfg, s));
  }

  lemma StartedBound(cfg: Config, s: State, s': State, c: Cycle)
    requires c.phase.Issue? && s'.cycles == s.cycles + [c]
    requires HeldQuantity(s') == HeldQuantity(s) && HeldMemory(s') == HeldMemory(s)
    ensures QuantityBounded(cfg, s) ==> QuantityBounded(cfg, s')
    ensures MemoryBounded(cfg, s) ==> MemoryBounded(cfg, s')
  {
    SumAppend(s.cycles, c, QuantityAllowance(cfg));
    SumAppend(s.cycles, c, MemoryAllowance(cfg));
    OneMoreBatch(cfg.batchSize, |s.cycles|);
    OneMoreBatch(cfg.batchBytes, |s.cycles|);
  }

  /** A cycle that reads a quantity below the threshold may go on: everybody together stays within the bound. */
  lemma QuantityChecked(cfg: Config, s': State)
    requires Shape(cfg, s') && HeldQuantity(s') <= cfg.quantityThreshold - 1
    ensures QuantityBounded(cfg, s')
  {
    AllowancesInRange(cfg, s');
    SumBounds(s'.cycles, QuantityAllowance(cfg), cfg.batchSize);
  }

  lemma MemoryChecked(cfg: Config, s': State)
    requires Shape(cfg, s') && HeldMemory(s') <= cfg.memoryThreshold - 1
    ensures MemoryBounded(cfg, s')
  {
    AllowancesInRange(cfg, s');
    SumBounds(s'.cycles, MemoryAllowance(cfg), cfg.batchBytes);
  }

  lemma CycleQuantityLeft(cfg: Config, s: State, i: nat, a: CycleAction)
    requires Shape(cfg, s) && i < |s.cycles| && CycleEnabled(cfg, s, s.cycles[i].phase, a) && !a.ReadQuantity?
    ensures var s' := CycleApply(cfg, s, i, a);
            && |s'.cycles| == |s.cycles| && s'.cycles == s.cycles[i := s'.cycles[i]]
            && QuantityLeft(cfg, s'.cycles[i]) + QuantityChange(s, OnCycle(i, a)) <= QuantityLeft(cfg, s.cycles[i])
  {}

  lemma CycleMemoryLeft(cfg: Config, s: State, i: nat, a: CycleAction)
    requires Shape(cfg, s) && i < |s.cycles| && CycleEnabled(cfg, s, s.cycles[i].phase, a) && !a.ReadMemory?
    requires cfg.memoryThreshold > 0
    ensures var s' := CycleApply(cfg, s, i, a);
            && |s'.cycles| == |s.cycles| && s'.cycles == s.cycles[i := s'.cycles[i]]
            && MemoryLeft(cfg, s'.cycles[i]) + MemoryChange(s, OnCycle(i, a)) <= MemoryLeft(cfg, s.cycles[i])
  {
    var c := s.cycles[i];
    if c.phase.Accounting? {
      BytesPrefix(c.phase.messages, c.phase.done);
      if a.AddMemory? {
        assert c.phase.messages[..c.phase.done + 1][..c.phase.done] == c.phase.messages[..c.phase.done];
      }
    }
  }

  /** Time, tasks and drainers leave the cycles alone and only release. */
  lemma ElsewhereBound(cfg: Config, s: State, a: Action)
    requires Shape(cfg, s) && Enabled(cfg, s, a) && !a.Start? && !a.OnCycle?
    ensures QuantityBounded(cfg, s) ==> QuantityBounded(cfg, Apply(cfg, s, a))
    ensures MemoryBounded(cfg, s) ==> MemoryBounded(cfg, Apply(cfg, s, a))
  {
    Balance(cfg, s, a);
    ElsewhereReleases(cfg, s, a);
    FewerHeld(cfg, s, Apply(cfg, s, a));
  }

  lemma ElsewhereReleases(cfg: Config, s: State, a: Action)
    requires Enabled(cfg, s, a) && !a.Start? && !a.OnCycle?
    ensures QuantityChange(s, a) <= 0 && MemoryChange(s, a) <= 0 && Apply(cfg, s, a).cycles == s.cycles
  {}

  lemma FewerHeld(cfg: Config, s: State, s': State)
    requires s'.cycles == s.cycles && HeldQuantity(s') <= HeldQuantity(s) && HeldMemory(s') <= HeldMemory(s)
    ensures QuantityBounded(cfg, s) ==> QuantityBounded(cfg, s')
    ensures MemoryBounded(cfg, s) ==> MemoryBounded(cfg, s')
  {}

  lemma QuantityLeftKeepsBound(cfg: Config, s: State, s': State, i: nat, change: int)
    requires QuantityBounded(cfg, s) && i < |s.cycles| == |s'.cycles| && s'.cycles == s.cycles[i := s'.cycles[i]]
    requires HeldQuantity(s') == HeldQuantity(s) + change
    requires QuantityLeft(cfg, s'.cycles[i]) + change <= QuantityLeft(cfg, s.cycles[i])
    ensures QuantityBounded(cfg, s')
  {
    SumUpdate(s.cycles, i, s'.cycles[i], QuantityAllowance(cfg));
  }

  /** A quantity read below the threshold is what is held. */
  lemma QuantityRead(cfg: Config, s: State)
    requires Shape(cfg, s) && Conserved(s) && QuantityBounded(cfg, s)
    requires QuantityBound(cfg, |s.cycles|) < QUANTITY_MODULUS && s.quantity < cfg.quantityThreshold
    ensures HeldQuantity(s) <= cfg.quantityThreshold - 1
  {
    HeldWithinBound(cfg, s);
    CountersExact(cfg, s);
  }

  lemma QuantityPassed(cfg: Config, s: State, s': State)
    requires Shape(cfg, s) && Conserved(s) && QuantityBounded(cfg, s)
    requires QuantityBound(cfg, |s.cycles|) < QUANTITY_MODULUS && s.quantity < cfg.quantityThreshold
    requires Shape(cfg, s') && HeldQuantity(s') == HeldQuantity(s)
    ensures QuantityBounded(cfg, s')
  {
    QuantityRead(cfg, s);
    QuantityChecked(cfg, s');
  }

  lemma QuantityReadStep(cfg: Config, s: State, i: nat, s': State)
    requires Shape(cfg, s) && Conserved(s) && QuantityBounded(cfg, s) && Enabled(cfg, s, OnCycle(i, ReadQuantity))
    requires QuantityBound(cfg, |s.cycles|) < QUANTITY_MODULUS && s' == CycleApply(cfg, s, i, ReadQuantity)
    requires HeldQuantity(s') == HeldQuantity(s)
    ensures QuantityBounded(cfg, s')
  {
    if s.quantity >= cfg.quantityThreshold {
      assert s'.cycles[i].phase.Later? && QuantityLeft(cfg, s'.cycles[i]) == 0;
      QuantityLeftKeepsBound(cfg, s, s', i, 0);
    } else {
      CycleShape(cfg, s, i, ReadQuantity);
      QuantityPassed(cfg, s, s');
    }
  }

  lemma CycleQuantityStep(cfg: Config, s: State, i: nat, what: CycleAction)
    requires Shape(cfg, s) && Conserved(s) && QuantityBounded(cfg, s) && Enabled(cfg, s, OnCycle(i, what))
    requires QuantityBound(cfg, |s.cycles|) < QUANTITY_MODULUS
    ensures QuantityBounded(cfg, CycleApply(cfg, s, i, what))
  {
    var a, s' := OnCycle(i, what), CycleApply(cfg, s, i, what);
    Balance(cfg, s, a);
    if what.ReadQuantity? {
      QuantityReadStep(cfg, s, i, s');
    } else {
      CycleQuantityLeft(cfg, s, i, what);
      QuantityLeftKeepsBound(cfg, s, s', i, QuantityChange(s, a));
    }
  }

  lemma QuantityStep(cfg: Config, s: State, a: Action)
    requires Shape(cfg, s) && Conserved(s) && QuantityBounded(cfg, s) && Enabled(cfg, s, a)
    requires QuantityBound(cfg, |s.cycles|) < QUANTITY_MODULUS
    ensures QuantityBounded(cfg, Apply(cfg, s, a))
  {
    match a {
      case Start => StartBound(cfg, s);
      case OnCycle(i, what) => CycleQuantityStep(cfg, s, i, what);
      case _ => ElsewhereBound(cfg, s, a);
    }
  }

  lemma MemoryLeftKeepsBound(cfg: Config, s: State, s': State, i: nat, change: int)
    requires MemoryBounded(cfg, s) && i < |s.cycles| == |s'.cycles| && s'.cycles == s.cycles[i := s'.cycles[i]]
    requires HeldMemory(s') == HeldMemory(s) + change
    requires MemoryLeft(cfg, s'.cycles[i]) + change <= MemoryLeft(cfg, s.cycles[i])
    ensures MemoryBounded(cfg, s')
  {
    SumUpdate(s.cycles, i, s'.cycles[i], MemoryAllowance(cfg));
  }

  lemma MemoryRead(cfg: Config, s: State)
    requires Shape(cfg, s) && Conserved(s) && MemoryBounded(cfg, s)
    requires MemoryBound(cfg, |s.cycles|) < MEMORY_MODULUS && s.memory < cfg.memoryThreshold
    ensures HeldMemory(s) <= cfg.memoryThreshold - 1
  {
    HeldWithinBound(cfg, s);
    CountersExact(cfg, s);
  }

  lemma MemoryPassed(cfg: Config, s: State, s': State)
    requires Shape(cfg, s) && Conserved(s) && MemoryBounded(cfg, s)
    requires MemoryBound(cfg, |s.cycles|) < MEMORY_MODULUS && s.memory < cfg.memoryThreshold
    requires Shape(cfg, s') && HeldMemory(s') == HeldMemory(s)
    ensures MemoryBounded(cfg, s')
  {
    MemoryRead(cfg, s);
    MemoryChecked(cfg, s');
  }

  lemma MemoryReadStep(cfg: Config, s: State, i: nat, s': State)
    requires Shape(cfg, s) && Conserved(s) && MemoryBounded(cfg, s) && Enabled(cfg, s, OnCycle(i, ReadMemory))
    requires MemoryBound(cfg, |s.cycles|) < MEMORY_MODULUS && s' == CycleApply(cfg, s, i, ReadMemory)
    requires HeldMemory(s') == HeldMemory(s)
    ensures MemoryBounded(cfg, s')
  {
    if s.memory >= cfg.memoryThreshold {
      assert s'.cycles[i].phase.Later? && MemoryLeft(cfg, s'.cycles[i]) == 0;
      MemoryLeftKeepsBound(cfg, s, s', i, 0);
    } else {
      CycleShape(cfg, s, i, ReadMemory);
      MemoryPassed(cfg, s, s');
    }
  }

  lemma CycleMemoryStep(cfg: Config, s: State, i: nat, what: CycleAction)
    requires Shape(cfg, s) && Conserved(s) && MemoryBounded(cfg, s) && Enabled(cfg, s, OnCycle(i, what))
    requires cfg.memoryThreshold > 0 && MemoryBound(cfg, |s.cycles|) < MEMORY_MODULUS
    ensures MemoryBounded(cfg, CycleApply(cfg, s, i, what))
  {
    var a, s' := OnCycle(i, what), CycleApply(cfg, s, i, what);
    Balance(cfg, s, a);
    if what.ReadMemory? {
      MemoryReadStep(cfg, s, i, s');
    } else {
      CycleMemoryLeft(cfg, s, i, what);
      MemoryLeftKeepsBound(cfg, s, s', i, MemoryChange(s, a));
    }
  }

  lemma MemoryStep(cfg: Config, s: State, a: Action)
    requires Shape(cfg, s) && Conserved(s) && MemoryBounded(cfg, s) && Enabled(cfg, s, a)
    requires cfg.memoryThreshold > 0 && MemoryBound(cfg, |s.cycles|) < MEMORY_MODULUS
    ensures MemoryBounded(cfg, Apply(cfg, s, a))
  {
    match a {
      case Start => StartBound(cfg, s);
      case OnCycle(i, what) => CycleMemoryStep(cfg, s, i, what);
      case _ => ElsewhereBound(cfg, s, a);
    }
  }

  // ---- Whole runs ----

  /**
   * Conservation. In every reachable state, whatever the broker sends and however the steps interleave, the counters
   * are the number and the bytes of the messages counted and not yet released, modulo their width.
   */
  lemma {:induction false} ConservationHolds(cfg: Config, states: seq<State>, actions: seq<Action>, k: nat)
    requires Execution(cfg, states, actions) && k < |states|
    ensures Shape(cfg, states[k]) && Conserved(states[k])
  {
    if k > 0 {
      ConservationHolds(cfg, states, actions, k - 1);
      ShapeStep(cfg, states[k - 1], actions[k - 1]);
      ConservedStep(cfg, states[k - 1], actions[k - 1]);
    }
  }

  lemma BoundsMonotone(cfg: Config, m: nat, n: nat)
    requires m <= n
    ensures QuantityBound(cfg, m) <= QuantityBound(cfg, n) && MemoryBound(cfg, m) <= MemoryBound(cfg, n)
  {}

  lemma {:induction false} QuantityStaysBounded(cfg: Config, states: seq<State>, actions: seq<Action>, k: nat)
    requires Execution(cfg, states, actions) && k < |states|
    requires QuantityBound(cfg, |states[k].cycles|) < QUANTITY_MODULUS
    ensures QuantityBounded(cfg, states[k])
  {
    if k > 0 {
      CyclesOnlyGrow(cfg, states, actions, k - 1, k);
      BoundsMonotone(cfg, |states[k - 1].cycles|, |states[k].cycles|);
      QuantityStaysBounded(cfg, states, actions, k - 1);
      ConservationHolds(cfg, states, actions, k - 1);
      QuantityStep(cfg, states[k - 1], actions[k - 1]);
    }
  }

  lemma {:induction false} MemoryStaysBounded(cfg: Config, states: seq<State>, actions: seq<Action>, k: nat)
    requires Execution(cfg, states, actions) && k < |states| && cfg.memoryThreshold > 0
    requires MemoryBound(cfg, |states[k].cycles|) < MEMORY_MODULUS
    ensures MemoryBounded(cfg, states[k])
  {
    if k > 0 {
      CyclesOnlyGrow(cfg, states, actions, k - 1, k);
      BoundsMonotone(cfg, |states[k - 1].cycles|, |states[k].cycles|);
      MemoryStaysBounded(cfg, states, actions, k - 1);
      ConservationHolds(cfg, states, actions, k - 1);
      MemoryStep(cfg, states[k - 1], actions[k - 1]);
    }
  }

  /**
   * Back-pressure on messages. With `n` receive cycles started for the queue, the quantity counter is exactly the
   * number of messages held and never exceeds the threshold less one plus `n` batches: with one cycle, plus one batch.
   */
  lemma QuantityBackPressure(cfg: Config, states: seq<State>, actions: seq<Action>, k: nat)
    requires Execution(cfg, states, actions) && k < |states|
    requires QuantityBound(cfg, |states[k].cycles|) < QUANTITY_MODULUS
    ensures states[k].quantity == HeldQuantity(states[k]) <= QuantityBound(cfg, |states[k].cycles|)
    ensures |states[k].cycles| <= 1 && cfg.quantityThreshold > 0 ==>
              states[k].quantity <= cfg.quantityThreshold - 1 + cfg.batchSize
  {
    QuantityStaysBounded(cfg, states, actions, k);
    ConservationHolds(cfg, states, actions, k);
    HeldWithinBound(cfg, states[k]);
    CountersExact(cfg, states[k]);
    assert QuantityBound(cfg, 1) == QuantityBound(cfg, 0) + cfg.batchSize;
  }

  /** Back-pressure on bytes, when the memory threshold is set. */
  lemma MemoryBackPressure(cfg: Config, states: seq<State>, actions: seq<Action>, k: nat)
    requires Execution(cfg, states, actions) && k < |states| && cfg.memoryThreshold > 0
    requires MemoryBound(cfg, |states[k].cycles|) < MEMORY_MODULUS
    ensures states[k].memory == HeldMemory(states[k]) <= MemoryBound(cfg, |states[k].cycles|)
    ensures |states[k].cycles| <= 1 ==> states[k].memory < cfg.memoryThreshold + cfg.batchBytes
  {
    MemoryStaysBounded(cfg, states, actions, k);
    ConservationHolds(cfg, states, actions, k);
    HeldWithinBound(cfg, states[k]);
    CountersExact(cfg, states[k]);
    assert MemoryBound(cfg, 1) == MemoryBound(cfg, 0) + cfg.batchBytes;
  }

  /** While the holdings fit the counters, no counter wraps: a release finds what it takes away. */
  lemma CountersNeverWrap(cfg: Config, states: seq<State>, actions: seq<Action>, k: nat)
    requires Execution(cfg, states, actions) && k < |actions|
    ensures HeldQuantity(states[k]) < QUANTITY_MODULUS && HeldQuantity(states[k + 1]) < QUANTITY_MODULUS ==>
              states[k + 1].quantity == states[k].quantity + QuantityChange(states[k], actions[k])
    ensures HeldMemory(states[k]) < MEMORY_MODULUS && HeldMemory(states[k + 1]) < MEMORY_MODULUS ==>
              states[k + 1].memory == states[k].memory + MemoryChange(states[k], actions[k])
  {
    ConservationHolds(cfg, states, actions, k);
    ConservationHolds(cfg, states, actions, k + 1);
    CountersExact(cfg, states[k]);
    CountersExact(cfg, states[k + 1]);
    Balance(cfg, states[k], actions[k]);
  }
}
