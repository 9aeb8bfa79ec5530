/**
 * One consume task: ConsumeTask.cpp.
 *
 * A task is shared between the thread pool, RPC callbacks and the delayed-retry queue, but is in one place at a time.
 * Its history `log` records listener calls, acks and nacks, what became of these, and pops.
 */
module ConsumeTasks {
  import opened Base
  import opened ProcessQueues

  datatype Verdict = Success | Failure

  datatype NextStep = Consume | Ack | Nack | Forward

  datatype Place =
    | Pool          // submitted, process() to run
    | Parked        // handed to schedule(), possibly for ever
    | AwaitAck
    | AwaitNack
    | AwaitForward
    | PopQuantity   // inside pop(), before the quantity is released
    | PopMemory     // inside pop(), before the memory is released
    | Idle          // nothing will run it again

  datatype Event =
    | Consumed(message: Message, verdict: Verdict)
    | AckSent(message: Message)
    | NackSent(message: Message)
    | ForwardSent(message: Message)
    | Settled(message: Message, ok: bool)    // the ack or nack came back
    | Popped(message: Message)

  datatype Task = Task(
    batch: seq<Message>,      // as constructed
    messages: seq<Message>,   // messages_
    fifo: bool,
    nextStep: NextStep,
    retries: nat,             // increments of the head's delivery attempt
    place: Place,
    log: seq<Event>)

  datatype Action =
    | Process(verdict: Verdict)   // process(), with what the listener would return
    | OnAck(ok: bool)
    | OnNack(ok: bool)
    | ReleaseQuantity
    | ReleaseMemory
    | Resume                      // the delayed retry fires

  /** The constructor for a whole batch. */
  function NewTask(batch: seq<Message>): Task {
    Task(batch, batch, |batch| > 1, Consume, 0, Pool, [])
  }

  predicate Enabled(t: Task, a: Action) {
    match a
    case Process(_) => t.place.Pool?
    case OnAck(_) => t.place.AwaitAck?
    case OnNack(_) => t.place.AwaitNack?
    case ReleaseQuantity => t.place.PopQuantity?
    case ReleaseMemory => t.place.PopMemory?
    case Resume => t.place.Parked?
  }

  function Processed(t: Task, broadcasting: bool, verdict: Verdict): Task {
    if t.messages == [] || broadcasting then t.(place := Idle)
    else
      var head := t.messages[0];
      match t.nextStep
      case Consume =>
        if verdict.Success? then t.(place := AwaitAck, log := t.log + [Consumed(head, verdict)] + [AckSent(head)])
        else if t.fifo then
          t.(nextStep := Consume, retries := t.retries + 1, place := Parked, log := t.log + [Consumed(head, verdict)])
        else t.(place := AwaitNack, log := t.log + [Consumed(head, verdict)] + [NackSent(head)])
      case Ack => t.(place := AwaitAck, log := t.log + [AckSent(head)])
      case Nack => t.(place := AwaitNack, log := t.log + [NackSent(head)])
      case Forward => t.(place := AwaitForward, log := t.log + [ForwardSent(head)])
  }

  function Replied(t: Task, ok: bool): Task {
    if t.messages == [] then t else t.(log := t.log + [Settled(t.messages[0], ok)])
  }

  function Apply(t: Task, broadcasting: bool, a: Action): Task
    requires Enabled(t, a)
  {
    match a
    case Process(verdict) => Processed(t, broadcasting, verdict)
    case OnAck(ok) => if ok then Replied(t, true).(place := PopQuantity)
                      else Replied(t, false).(nextStep := Ack, place := Parked)
    case OnNack(ok) => if ok then Replied(t, true).(place := PopQuantity)
                       else Replied(t, false).(nextStep := Nack, place := Parked)
    case ReleaseQuantity => t.(place := PopMemory)
    case ReleaseMemory =>
      if t.messages == [] then t
      else t.(messages := t.messages[1..], nextStep := Consume, retries := 0, place := Pool,
              log := t.log + [Popped(t.messages[0])])
    case Resume => t.(place := Pool)
  }

  // ---- What the history may look like ----

  function Pops(log: seq<Event>): (n: nat)
    ensures n <= |log|
  {
    if log == [] then 0
    else Pops(log[..|log| - 1]) + if log[|log| - 1].Popped? then 1 else 0
  }

  /** What the listener last said about the message now at the head; none if it has not been asked yet. */
  function LastVerdict(log: seq<Event>): Option<Verdict> {
    if log == [] || log[|log| - 1].Popped? then None
    else if log[|log| - 1].Consumed? then Some(log[|log| - 1].verdict)
    else LastVerdict(log[..|log| - 1])
  }

  /** The last event is an ack or nack. */
  predicate Settling(log: seq<Event>) {
    log != [] && (log[|log| - 1].AckSent? || log[|log| - 1].NackSent?)
  }

  /** The last event is the successful end of an ack or nack. */
  predicate SettledWell(log: seq<Event>) {
    log != [] && log[|log| - 1].Settled? && log[|log| - 1].ok
  }

  /** The last event calls for an ack or nack: a verdict, or an ack or nack that failed. */
  predicate MustReply(log: seq<Event>) {
    log != [] && (log[|log| - 1].Consumed? || (log[|log| - 1].Settled? && !log[|log| - 1].ok))
  }

  /** Consecutive failed deliveries of the head so far. */
  function Failures(log: seq<Event>): nat {
    if log == [] || log[|log| - 1].Popped? then 0
    else Failures(log[..|log| - 1]) + if log[|log| - 1] == Consumed(log[|log| - 1].message, Failure) then 1 else 0
  }

  /** Whether event `e` may follow history `log` of a task for `batch`. */
  predicate MayFollow(batch: seq<Message>, fifo: bool, log: seq<Event>, e: Event) {
    && Pops(log) < |batch| && e.message == batch[Pops(log)]
    && match e
       case Consumed(_, _) => LastVerdict(log).None? || (fifo && LastVerdict(log) == Some(Failure))
       case AckSent(_) => LastVerdict(log) == Some(Success) && MustReply(log)
       case NackSent(_) => LastVerdict(log) == Some(Failure) && !fifo && MustReply(log)
       case Settled(_, _) => Settling(log)
       case Popped(_) => SettledWell(log)
       case ForwardSent(_) => false
  }

  /** Every event may follow the history before it. */
  predicate Orderly(batch: seq<Message>, fifo: bool, log: seq<Event>) {
    log == [] ||
    (Orderly(batch, fifo, log[..|log| - 1]) && MayFollow(batch, fifo, log[..|log| - 1], log[|log| - 1]))
  }

  lemma {:induction false} OrderlyIs(batch: seq<Message>, fifo: bool, log: seq<Event>)
    ensures Orderly(batch, fifo, log) <==> forall i :: 0 <= i < |log| ==> MayFollow(batch, fifo, log[..i], log[i])
  {
    if log != [] {
      var front := log[..|log| - 1];
      OrderlyIs(batch, fifo, front);
      assert forall i :: 0 <= i < |front| ==> front[..i] == log[..i] && front[i] == log[i];
    }
  }

  lemma OrderlyGrows(batch: seq<Message>, fifo: bool, log: seq<Event>, e: Event)
    requires Orderly(batch, fifo, log) && MayFollow(batch, fifo, log, e)
    ensures Orderly(batch, fifo, log + [e])
  {
    assert (log + [e])[..|log|] == log;
  }

  lemma LogGrows(log: seq<Event>, e: Event)
    ensures Pops(log + [e]) == Pops(log) + if e.Popped? then 1 else 0
    ensures e.Popped? ==> LastVerdict(log + [e]).None? && Failures(log + [e]) == 0
    ensures e.Consumed? ==> LastVerdict(log + [e]) == Some(e.verdict)
    ensures !e.Popped? && !e.Consumed? ==> LastVerdict(log + [e]) == LastVerdict(log)
    ensures !e.Popped? ==> Failures(log + [e]) == Failures(log) + if e.Consumed? && e.verdict.Failure? then 1 else 0
  {
    assert (log + [e])[..|log|] == log;
  }

  /** The position of the task in the life of its head message. */
  predicate PlaceInv(t: Task) {
    var verdict := LastVerdict(t.log);
    && (t.place.Pool? || t.place.Parked? ==>
          match t.nextStep
          case Consume => verdict.None? || (t.fifo && verdict == Some(Failure))
          case Ack => t.messages != [] && verdict == Some(Success) && MustReply(t.log)
          case Nack => t.messages != [] && verdict == Some(Failure) && !t.fifo && MustReply(t.log)
          case Forward => false)
    && (t.place.AwaitAck? ==> t.messages != [] && verdict == Some(Success) && Settling(t.log))
    && (t.place.AwaitNack? ==> t.messages != [] && verdict == Some(Failure) && !t.fifo && Settling(t.log))
    && (t.place.PopQuantity? || t.place.PopMemory? ==> t.messages != [] && SettledWell(t.log))
    && !t.place.AwaitForward?
  }

  ghost predicate History(t: Task) {
    && Pops(t.log) <= |t.batch| && t.messages == t.batch[Pops(t.log)..]
    && Orderly(t.batch, t.fifo, t.log)
    && t.fifo == (|t.batch| > 1)
  }

  ghost predicate Inv(t: Task) {
    && t.nextStep != Forward
    && History(t)
    && (t.fifo ==> t.retries == Failures(t.log))
    && PlaceInv(t)
  }

  lemma EmptyLog()
    ensures Pops([]) == 0 && LastVerdict([]).None? && Failures([]) == 0
  {}

  lemma NewTaskInv(batch: seq<Message>)
    ensures Inv(NewTask(batch))
  {
    EmptyLog();
    var t := NewTask(batch);
    assert Orderly(batch, t.fifo, t.log);
    assert History(t) by {
      assert batch[0..] == batch;
    }
    assert PlaceInv(t);
  }

  lemma LogOne(t: Task, e: Event)
    requires History(t) && MayFollow(t.batch, t.fifo, t.log, e) && !e.Popped?
    ensures History(t.(log := t.log + [e]))
  {
    OrderlyGrows(t.batch, t.fifo, t.log, e);
    LogGrows(t.log, e);
  }

  /** The listener's verdict on the head joins the history. */
  lemma VerdictLogged(t: Task, verdict: Verdict)
    requires Inv(t) && t.place.Pool? && t.messages != [] && t.nextStep.Consume?
    ensures var log := t.log + [Consumed(t.messages[0], verdict)];
            && History(t.(log := log)) && Pops(log) == Pops(t.log) && LastVerdict(log) == Some(verdict)
            && Failures(log) == Failures(t.log) + if verdict.Failure? then 1 else 0
  {
    var e := Consumed(t.messages[0], verdict);
    assert MayFollow(t.batch, t.fifo, t.log, e);
    LogOne(t, e);
    LogGrows(t.log, e);
  }

  lemma ConsumeStep(t: Task, verdict: Verdict)
    requires Inv(t) && t.place.Pool? && t.messages != [] && t.nextStep.Consume?
    ensures Inv(Processed(t, false, verdict))
  {
    VerdictLogged(t, verdict);
    if verdict.Success? || !t.fifo {
      ConsumeSettles(t, verdict);
    }
  }

  /** An ack or nack for the head is out, as its verdict demands. */
  lemma SettledInv(t: Task, verdict: Verdict)
    requires History(t) && Settling(t.log) && LastVerdict(t.log) == Some(verdict) && t.messages != []
    requires t.nextStep != Forward && (t.fifo ==> t.retries == Failures(t.log))
    requires t.place == (if verdict.Success? then AwaitAck else AwaitNack) && (verdict.Failure? ==> !t.fifo)
    ensures Inv(t)
  {}

  lemma ConsumeSettles(t: Task, verdict: Verdict)
    requires Inv(t) && t.place.Pool? && t.messages != [] && t.nextStep.Consume? && (verdict.Success? || !t.fifo)
    ensures Inv(Processed(t, false, verdict))
  {
    var head := t.messages[0];
    var mid := t.(log := t.log + [Consumed(head, verdict)]);
    VerdictLogged(t, verdict);
    SettleAfterConsume(mid, verdict, head);
    var reply := if verdict.Success? then AckSent(head) else NackSent(head);
    var t' := Processed(t, false, verdict);
    SameHistory(mid.(log := mid.log + [reply]), t');
    SettledInv(t', verdict);
  }

  lemma SameHistory(t: Task, t': Task)
    requires History(t) && t'.batch == t.batch && t'.messages == t.messages && t'.fifo == t.fifo && t'.log == t.log
    ensures History(t')
  {}

  lemma SettleAfterConsume(mid: Task, verdict: Verdict, head: Message)
    requires History(mid) && Pops(mid.log) < |mid.batch| && head == mid.batch[Pops(mid.log)]
    requires LastVerdict(mid.log) == Some(verdict) && (verdict.Failure? ==> !mid.fifo) && MustReply(mid.log)
    ensures var reply := if verdict.Success? then AckSent(head) else NackSent(head);
            && History(mid.(log := mid.log + [reply]))
            && LastVerdict(mid.log + [reply]) == Some(verdict)
            && Failures(mid.log + [reply]) == Failures(mid.log)
            && Settling(mid.log + [reply])
  {
    var reply := if verdict.Success? then AckSent(head) else NackSent(head);
    LogOne(mid, reply);
    LogGrows(mid.log, reply);
  }

  lemma SettleStep(t: Task, verdict: Verdict)
    requires Inv(t) && t.place.Pool? && t.messages != [] && !t.nextStep.Consume?
    ensures Inv(Processed(t, false, verdict))
  {
    var reply := if t.nextStep.Ack? then AckSent(t.messages[0]) else NackSent(t.messages[0]);
    LogOne(t, reply);
    LogGrows(t.log, reply);
  }

  lemma ProcessStep(t: Task, broadcasting: bool, verdict: Verdict)
    requires Inv(t) && t.place.Pool?
    ensures Inv(Processed(t, broadcasting, verdict))
  {
    if t.messages != [] && !broadcasting {
      if t.nextStep.Consume? {
        ConsumeStep(t, verdict);
      } else {
        SettleStep(t, verdict);
      }
    }
  }

  lemma PopStep(t: Task)
    requires Inv(t) && t.place.PopMemory?
    ensures Inv(Apply(t, false, ReleaseMemory))
  {
    LogGrows(t.log, Popped(t.messages[0]));
    OrderlyGrows(t.batch, t.fifo, t.log, Popped(t.messages[0]));
  }

  /** The end of an ack or nack joins the history. */
  lemma ReplyLogged(t: Task, ok: bool)
    requires Inv(t) && (t.place.AwaitAck? || t.place.AwaitNack?)
    ensures var log := t.log + [Settled(t.messages[0], ok)];
            && History(t.(log := log)) && LastVerdict(log) == LastVerdict(t.log) && Failures(log) == Failures(t.log)
            && (if ok then SettledWell(log) else MustReply(log))
  {
    var e := Settled(t.messages[0], ok);
    LogOne(t, e);
    LogGrows(t.log, e);
  }

  lemma AckStep(t: Task, ok: bool)
    requires Inv(t) && t.place.AwaitAck?
    ensures Inv(Apply(t, false, OnAck(ok)))
  {
    ReplyLogged(t, ok);
  }

  lemma NackStep(t: Task, ok: bool)
    requires Inv(t) && t.place.AwaitNack?
    ensures Inv(Apply(t, false, OnNack(ok)))
  {
    ReplyLogged(t, ok);
  }

  lemma Step(t: Task, broadcasting: bool, a: Action)
    requires Inv(t) && Enabled(t, a)
    ensures Inv(Apply(t, broadcasting, a))
  {
    match a {
      case Process(verdict) => ProcessStep(t, broadcasting, verdict);
      case OnAck(ok) => AckStep(t, ok);
      case OnNack(ok) => NackStep(t, ok);
      case ReleaseMemory => PopStep(t);
      case _ =>
    }
  }

  // ---- Whole runs ----

  ghost predicate Execution(states: seq<Task>, actions: seq<Action>, batch: seq<Message>) {
    && |states| == |actions| + 1 && states[0] == NewTask(batch)
    && forall k :: 0 <= k < |actions| ==>
         Enabled(states[k], actions[k]) && states[k + 1] == Apply(states[k], false, actions[k])
  }

  lemma {:induction false} BatchKept(states: seq<Task>, actions: seq<Action>, batch: seq<Message>, k: nat)
    requires Execution(states, actions, batch) && k < |states|
    ensures states[k].batch == batch
  {
    if k > 0 {
      BatchKept(states, actions, batch, k - 1);
    }
  }

  lemma {:induction false} InvAlways(states: seq<Task>, actions: seq<Action>, batch: seq<Message>, k: nat)
    requires Execution(states, actions, batch) && k < |states|
    ensures Inv(states[k]) && states[k].batch == batch
  {
    BatchKept(states, actions, batch, k);
    if k == 0 {
      NewTaskInv(batch);
    } else {
      InvAlways(states, actions, batch, k - 1);
      var before, a := states[k - 1], actions[k - 1];
      Step(before, false, a);
    }
  }

  function PoppedMessages(log: seq<Event>): (r: seq<Message>)
    ensures |r| == Pops(log)
  {
    if log == [] then []
    else PoppedMessages(log[..|log| - 1]) + if log[|log| - 1].Popped? then [log[|log| - 1].message] else []
  }

  lemma {:induction false} PoppedIsPrefix(batch: seq<Message>, fifo: bool, log: seq<Event>)
    requires Orderly(batch, fifo, log)
    ensures Pops(log) <= |batch| && PoppedMessages(log) == batch[..Pops(log)]
  {
    if log != [] {
      var front := log[..|log| - 1];
      PoppedIsPrefix(batch, fifo, front);
      assert MayFollow(batch, fifo, front, log[|log| - 1]);
    }
  }

  /**
   * For every batch, every listener, every RPC outcome and every retry timing: the popped messages are a prefix of the
   * batch and the task holds exactly the rest; only the head is ever consumed; an ack goes out only for the head after
   * SUCCESS on it, a nack only after FAILURE on it in a task that is not FIFO; nothing is forwarded.
   */
  lemma TaskIsOrderly(states: seq<Task>, actions: seq<Action>, batch: seq<Message>, k: nat)
    requires Execution(states, actions, batch) && k < |states|
    ensures var t := states[k];
            && PoppedMessages(t.log) + t.messages == batch
            && (forall i :: 0 <= i < |t.log| ==> MayFollow(batch, |batch| > 1, t.log[..i], t.log[i]))
            && t.nextStep != Forward && !t.place.AwaitForward?
            && (|batch| > 1 ==> t.retries == Failures(t.log))
  {
    InvAlways(states, actions, batch, k);
    PoppedIsPrefix(batch, states[k].fifo, states[k].log);
    OrderlyIs(batch, states[k].fifo, states[k].log);
    assert batch[..Pops(states[k].log)] + batch[Pops(states[k].log)..] == batch;
  }

  /** In an orderly history a failed ack or nack is followed by the same one again, for the same message. */
  lemma RepliesRepeat(batch: seq<Message>, fifo: bool, log: seq<Event>, i: nat)
    requires Orderly(batch, fifo, log) && i + 1 < |log| && log[i].Settled? && !log[i].ok
    ensures i > 0 && log[i + 1] == log[i - 1] && log[i].message == log[i - 1].message
    ensures log[i - 1].AckSent? || log[i - 1].NackSent?
  {
    OrderlyIs(batch, fifo, log);
    assert MayFollow(batch, fifo, log[..i], log[i]) && MayFollow(batch, fifo, log[..i + 1], log[i + 1]);
    assert MayFollow(batch, fifo, log[..i - 1], log[i - 1]);
    assert log[..i] == log[..i - 1] + [log[i - 1]] && log[..i + 1] == log[..i] + [log[i]];
    LogGrows(log[..i - 1], log[i - 1]);
    LogGrows(log[..i], log[i]);
  }

  /** In any run, what follows a failed ack or nack is the same ack or nack of the same message. */
  lemma FailedReplyRepeats(states: seq<Task>, actions: seq<Action>, batch: seq<Message>, k: nat, i: nat)
    requires Execution(states, actions, batch) && k < |states|
    requires i + 1 < |states[k].log| && states[k].log[i].Settled? && !states[k].log[i].ok
    ensures var log := states[k].log;
            && i > 0 && (log[i - 1] == AckSent(log[i].message) || log[i - 1] == NackSent(log[i].message))
            && log[i + 1] == log[i - 1]
  {
    InvAlways(states, actions, batch, k);
    RepliesRepeat(batch, states[k].fifo, states[k].log, i);
  }

  /**
   * What the end of an ack or nack does in any run: a success starts the pop of that message, a failure keeps it, parks
   * the task and makes it send the same again.
   */
  lemma CompletionEffect(states: seq<Task>, actions: seq<Action>, batch: seq<Message>, k: nat)
    requires Execution(states, actions, batch) && k < |actions| && (actions[k].OnAck? || actions[k].OnNack?)
    ensures var t, t', ok := states[k], states[k + 1], actions[k].ok;
            && t.messages != [] && t'.messages == t.messages && t'.retries == t.retries
            && t'.log == t.log + [Settled(t.messages[0], ok)]
            && (ok ==> t'.place.PopQuantity?)
            && (!ok ==> t'.place.Parked? && t'.nextStep == if actions[k].OnAck? then Ack else Nack)
  {
    InvAlways(states, actions, batch, k);
  }

  /** In any run a message leaves the task only by a pop that follows the successful end of its ack or nack. */
  lemma PopsOnlySettled(states: seq<Task>, actions: seq<Action>, batch: seq<Message>, k: nat)
    requires Execution(states, actions, batch) && k < |actions|
    ensures var t, t' := states[k], states[k + 1];
            if actions[k].ReleaseMemory? then
              && t.messages != [] && t'.messages == t.messages[1..] && t'.log == t.log + [Popped(t.messages[0])]
              && t.log != [] && t.log[|t.log| - 1] == Settled(t.messages[0], true)
              && t'.place.Pool? && t'.nextStep.Consume? && t'.retries == 0
            else
              && t'.messages == t.messages
              && (actions[k].ReleaseQuantity? ==> t' == t.(place := PopMemory))
              && (actions[k].Resume? ==> t' == t.(place := Pool))
  {
    InvAlways(states, actions, batch, k);
    if actions[k].ReleaseMemory? {
      var t := states[k];
      LastIsHead(t);
    }
  }

  lemma LastIsHead(t: Task)
    requires Inv(t) && t.log != [] && !t.log[|t.log| - 1].Popped? && t.messages != []
    ensures t.log[|t.log| - 1].message == t.messages[0]
  {
    var front, last := t.log[..|t.log| - 1], t.log[|t.log| - 1];
    assert MayFollow(t.batch, t.fifo, front, last);
    assert t.log == front + [last];
    LogGrows(front, last);
  }

  /** What one process() of a clustering task does in any run, by verdict and kind of task. */
  lemma ProcessEffect(states: seq<Task>, actions: seq<Action>, batch: seq<Message>, k: nat)
    requires Execution(states, actions, batch) && k < |actions| && actions[k].Process?
    ensures var t, t', verdict := states[k], states[k + 1], actions[k].verdict;
            && (t.messages == [] ==> t' == t.(place := Idle))
            && (t.messages != [] && t.nextStep.Consume? ==>
                  && |t.log| < |t'.log| && t'.log[..|t.log|] == t.log
                  && t'.log[|t.log|] == Consumed(t.messages[0], verdict)
                  && t'.place == (if verdict.Success? then AwaitAck else if |batch| > 1 then Parked else AwaitNack)
                  && t'.retries == t.retries + (if verdict.Failure? && |batch| > 1 then 1 else 0)
                  && (t'.place.Parked? ==> t'.nextStep.Consume? && |t'.log| == |t.log| + 1)
                  && (t'.place.AwaitAck? ==> t'.log[|t.log| + 1..] == [AckSent(t.messages[0])])
                  && (t'.place.AwaitNack? ==> t'.log[|t.log| + 1..] == [NackSent(t.messages[0])]))
            && (t.messages != [] && t.nextStep.Ack? ==>
                  t'.log == t.log + [AckSent(t.messages[0])] && t'.place.AwaitAck?)
            && (t.messages != [] && t.nextStep.Nack? ==>
                  t'.log == t.log + [NackSent(t.messages[0])] && t'.place.AwaitNack?)
  {
    InvAlways(states, actions, batch, k);
  }

  /** The assertions of pop(), onNack() and process() hold whenever they are reached. */
  lemma TaskAssertionsHold(states: seq<Task>, actions: seq<Action>, batch: seq<Message>, k: nat)
    requires Execution(states, actions, batch) && k < |actions|
    ensures actions[k].OnNack? ==> !states[k].fifo && states[k].messages != []
    ensures actions[k].ReleaseQuantity? || actions[k].ReleaseMemory? ==> states[k].messages != []
    ensures actions[k].Process? && states[k].nextStep == Ack ==> states[k].messages != []
  {
    InvAlways(states, actions, batch, k);
  }

  // ---- The task object ----

  /** The two releases that make up a pop. */
  function AfterPop(t: Task): Task
    requires t.place.PopQuantity?
  {
    Apply(Apply(t, false, ReleaseQuantity), false, ReleaseMemory)
  }

  class ConsumeTask {
    const processQueue: ProcessQueue?
    const batch: seq<Message>
    const fifo: bool
    var messages: seq<Message>
    var nextStep: NextStep
    var retries: nat
    var place: Place
    var log: seq<Event>

    constructor (processQueue: ProcessQueue?, messages: seq<Message>)
      ensures this.processQueue == processQueue && Value() == NewTask(messages)
    {
      this.processQueue, batch, this.messages, fifo := processQueue, messages, messages, |messages| > 1;
      nextStep, retries, place, log := Consume, 0, Pool, [];
    }

    function Value(): Task
      reads this
    {
      Task(batch, messages, fifo, nextStep, retries, place, log)
    }

    /** With its process queue gone, pop() leaves everything as it is. */
    method Pop()
      requires messages != []
      requires processQueue != null ==> processQueue.Valid()
      modifies this`messages, this`retries, this`log, processQueue
      ensures processQueue == null ==> messages == old(messages) && log == old(log) && retries == old(retries)
      ensures processQueue != null ==>
                && messages == old(messages)[1..] && log == old(log) + [Popped(old(messages)[0])] && retries == 0
                && processQueue.Valid()
                && processQueue.cachedQuantity == Less32(old(processQueue.cachedQuantity), 1)
                && processQueue.cachedMemory == Less64(old(processQueue.cachedMemory), old(messages)[0].bodySize)
    {
      if processQueue == null {
        return;
      }
      processQueue.Release(messages[0].bodySize);
      log := log + [Popped(messages[0])];
      messages, retries := messages[1..], 0;
    }

    method RunProcess(broadcasting: bool, verdict: Verdict)
      requires place.Pool?
      modifies this`nextStep, this`retries, this`place, this`log
      ensures Value() == Apply(old(Value()), broadcasting, Process(verdict))
    {
      if messages == [] || broadcasting {
        place := Idle;
        return;
      }
      var it := messages[0];
      match nextStep {
        case Consume =>
          log := log + [Consumed(it, verdict)];
          match verdict {
            case Success =>
              log, place := log + [AckSent(it)], AwaitAck;
            case Failure =>
              if fifo {
                nextStep, retries, place := Consume, retries + 1, Parked;
              } else {
                log, place := log + [NackSent(it)], AwaitNack;
              }
          }
        case Ack => log, place := log + [AckSent(it)], AwaitAck;
        case Nack => log, place := log + [NackSent(it)], AwaitNack;
        case Forward => log, place := log + [ForwardSent(it)], AwaitForward;
      }
    }

    /** onAck() as a whole: the three steps of the pop, or parking; without its queue the task starts the head again. */
    method RunOnAck(ok: bool)
      requires place.AwaitAck? && Inv(Value())
      requires processQueue != null ==> processQueue.Valid()
      modifies this, processQueue
      ensures ok && processQueue != null ==> Value() == AfterPop(Apply(old(Value()), false, OnAck(true)))
      ensures ok && processQueue == null ==>
                Value() == Replied(old(Value()), true).(nextStep := Consume, place := Pool)
      ensures !ok ==> messages == old(messages) && nextStep == Ack && place.Parked?
      ensures !ok ==> Value() == Apply(old(Value()), false, OnAck(false))
      ensures processQueue != null ==> processQueue.Valid()
    {
      log := log + [Settled(messages[0], ok)];
      if ok {
        Pop();
        nextStep, place := Consume, Pool;
        return;
      }
      nextStep, place := Ack, Parked;
    }

    method RunOnNack(ok: bool)
      requires place.AwaitNack? && Inv(Value())
      requires processQueue != null ==> processQueue.Valid()
      modifies this, processQueue
      ensures !fifo && old(messages) != []
      ensures ok && processQueue != null ==> Value() == AfterPop(Apply(old(Value()), false, OnNack(true)))
      ensures ok && processQueue == null ==>
                Value() == Replied(old(Value()), true).(nextStep := Consume, place := Pool)
      ensures !ok ==> messages == old(messages) && nextStep == Nack && place.Parked?
      ensures !ok ==> Value() == Apply(old(Value()), false, OnNack(false))
      ensures processQueue != null ==> processQueue.Valid()
    {
      log := log + [Settled(messages[0], ok)];
      if ok {
        Pop();
        nextStep, place := Consume, Pool;
        return;
      }
      nextStep, place := Nack, Parked;
    }
  }
}
