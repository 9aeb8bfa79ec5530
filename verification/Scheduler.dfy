/**
 * Timer tasks: SchedulerImpl.cpp.
 *
 * A task object is shared by the table `tasks_`, the thread still inside schedule(), and every worker that locked the
 * weak reference of its handler. Each critical section, each asio call and each callback boundary is one step.
 */
module Scheduler {

  // ---- State ----

  /** How far the thread that called schedule() has come; it shares the task until it returns. */
  datatype Creator = Inserted | Armed | Returned

  /** Where the next run of a task stands: not armed yet, in the timer, with a worker, or nowhere any more. */
  datatype Place = Unarmed | Waiting | At(w: nat) | Spent

  /** `waits` counts outstanding async_waits; `place`, `starts` and `rearms` are history. */
  datatype TimerTask = TimerTask(id: nat, interval: nat, creator: Creator, first: nat, expiry: nat, waits: nat,
                                 place: Place, starts: nat, rearms: nat)

  /** A worker inside execute(): weak reference locked, callback running, callback returned, about to let go. */
  datatype Worker = Idle | Holding(task: nat) | Running(task: nat) | Finished(task: nat) | Leaving(task: nat)

  /** `all` lists every task ever created; `tasks` is tasks_; `lastId` the static counter. */
  datatype State = State(now: nat, lastId: nat, tasks: map<nat, nat>, all: seq<TimerTask>, workers: seq<Worker>)

  datatype Action =
    | Tick(elapsed: nat)
    | OtherScheduler
    | Insert(interval: nat)
    | Arm(task: nat, delay: nat)
    | Return(task: nat)
    | Cancel(id: nat)
    | Clear
    | Fire(w: nat, task: nat)
    | Begin(w: nat)
    | End(w: nat)
    | Settle(w: nat, schedulerAlive: bool)
    | LetGo(w: nat)

  function Init(workers: nat): State {
    State(0, 0, map[], [], seq(workers, _ => Idle))
  }

  predicate InTasks(s: State, o: nat) {
    o < |s.all| && s.all[o].id in s.tasks && s.tasks[s.all[o].id] == o
  }

  /** The worker has the callback of the task before it or in progress. */
  predicate Busy(w: Worker, o: nat) {
    (w.Holding? || w.Running? || w.Finished?) && w.task == o
  }

  predicate Holds(w: Worker, o: nat) {
    !w.Idle? && w.task == o
  }

  /** Somebody still shares the object, so its weak references can be locked. */
  predicate Alive(s: State, o: nat) {
    && o < |s.all|
    && (InTasks(s, o) || !s.all[o].creator.Returned? || exists w :: 0 <= w < |s.workers| && Holds(s.workers[w], o))
  }

  // ---- Steps ----

  predicate Enabled(s: State, a: Action) {
    match a
    case Tick(_) => true
    case OtherScheduler => true
    case Insert(_) => true
    case Arm(o, _) => o < |s.all| && s.all[o].creator.Inserted?
    case Return(o) => o < |s.all| && s.all[o].creator.Armed?
    case Cancel(_) => true
    case Clear => true
    case Fire(w, o) =>
      && w < |s.workers| && s.workers[w].Idle?
      && o < |s.all| && s.all[o].waits > 0 && (s.all[o].expiry <= s.now || !Alive(s, o))
    case Begin(w) => w < |s.workers| && s.workers[w].Holding? && s.workers[w].task < |s.all|
    case End(w) => w < |s.workers| && s.workers[w].Running?
    case Settle(w, _) => w < |s.workers| && s.workers[w].Finished? && s.workers[w].task < |s.all|
    case LetGo(w) => w < |s.workers| && s.workers[w].Leaving?
  }

  function Put(s: State, o: nat, t: TimerTask): State
    requires o < |s.all|
  {
    s.(all := s.all[o := t])
  }

  function Move(s: State, w: nat, worker: Worker): State
    requires w < |s.workers|
  {
    s.(workers := s.workers[w := worker])
  }

  function Apply(s: State, a: Action): State
    requires Enabled(s, a)
  {
    match a
    case Tick(elapsed) => s.(now := s.now + elapsed)
    case OtherScheduler => s.(lastId := s.lastId + 1)
    case Insert(interval) =>
      var id := s.lastId + 1;
      s.(lastId := id, tasks := s.tasks[id := |s.all|],
         all := s.all + [TimerTask(id, interval, Inserted, 0, 0, 0, Unarmed, 0, 0)])
    case Arm(o, delay) =>
      var t := s.all[o];
      Put(s, o, t.(creator := Armed, first := s.now + delay, expiry := s.now + delay, waits := t.waits + 1,
                   place := Waiting))
    case Return(o) => Put(s, o, s.all[o].(creator := Returned))
    case Cancel(id) => s.(tasks := s.tasks - {id})
    case Clear => s.(tasks := map[])
    case Fire(w, o) =>
      var t := s.all[o];
      if Alive(s, o) then Move(Put(s, o, t.(waits := t.waits - 1, place := At(w))), w, Holding(o))
      else Put(s, o, t.(waits := t.waits - 1, place := Spent))
    case Begin(w) =>
      var o := s.workers[w].task;
      Move(Put(s, o, s.all[o].(starts := s.all[o].starts + 1)), w, Running(o))
    case End(w) => Move(s, w, Finished(s.workers[w].task))
    case Settle(w, schedulerAlive) =>
      var o := s.workers[w].task;
      var t := s.all[o];
      if t.interval != 0 then
        var again := t.(expiry := t.expiry + t.interval, waits := t.waits + 1, place := Waiting,
                        rearms := t.rearms + 1);
        Move(Put(s, o, again), w, Leaving(o))
      else
        var left := if schedulerAlive then s.(tasks := s.tasks - {t.id}) else s;
        Move(Put(left, o, t.(place := Spent)), w, Leaving(o))
    case LetGo(w) => Move(s, w, Idle)
  }

  ghost predicate Execution(states: seq<State>, actions: seq<Action>) {
    && |states| == |actions| + 1
    && forall i :: 0 <= i < |actions| ==>
         Enabled(states[i], actions[i]) && states[i + 1] == Apply(states[i], actions[i])
  }

  // ---- What every step keeps ----

  /** The `k`-th expiry of a task, counted from 0. */
  function Expiry(first: nat, interval: nat, k: nat): nat {
    if k == 0 then first else Expiry(first, interval, k - 1) + interval
  }

  lemma {:induction false} ExpiryIs(first: nat, interval: nat, k: nat)
    ensures Expiry(first, interval, k) == first + k * interval
  {
    if k > 0 {
      ExpiryIs(first, interval, k - 1);
    }
  }

  /** Ids are handed out in increasing order, and the table lists tasks under their own ids. */
  ghost predicate IdsInv(s: State) {
    && (forall o :: 0 <= o < |s.all| ==> s.all[o].id <= s.lastId)
    && (forall o, p :: 0 <= o < p < |s.all| ==> s.all[o].id < s.all[p].id)
    && (forall id :: id in s.tasks ==> s.tasks[id] < |s.all| && s.all[s.tasks[id]].id == id)
  }

  /** A worker at a callback has the task's next run; one that leaves a one-shot task leaves nothing to run. */
  predicate WorkerOk(s: State, w: nat)
    requires w < |s.workers|
  {
    var k := s.workers[w];
    !k.Idle? ==>
      && k.task < |s.all|
      && var t := s.all[k.task];
         && !t.place.Unarmed?
         && (!k.Leaving? ==> t.place == At(w))
         && (k.Leaving? && t.interval == 0 ==> t.place.Spent?)
  }

  /** Number of runs begun, by where the next run stands. */
  predicate CountsOk(s: State, o: nat)
    requires o < |s.all|
  {
    var t := s.all[o];
    && (t.interval == 0 ==> t.rearms == 0)
    && (t.place.Unarmed? ==> t.starts == 0 && t.rearms == 0)
    && (t.place.Waiting? ==> t.starts == t.rearms)
    && (t.place.At? ==>
          t.place.w < |s.workers| && t.starts == t.rearms + if s.workers[t.place.w].Holding? then 0 else 1)
    && (t.place.Spent? ==> t.starts == t.rearms || (t.interval == 0 && t.starts == 1))
  }

  /** The place is what the timer and the workers say. */
  predicate PlaceOk(s: State, o: nat)
    requires o < |s.all|
  {
    var t := s.all[o];
    && t.waits == (if t.place.Waiting? then 1 else 0)
    && (t.creator.Inserted? <==> t.place.Unarmed?)
    && (t.place.At? ==> t.place.w < |s.workers| && Busy(s.workers[t.place.w], o))
  }

  /** A run is taken up only when due, and the due times are one interval apart. */
  predicate DueOk(s: State, o: nat)
    requires o < |s.all|
  {
    var t := s.all[o];
    && (t.place.At? ==> t.expiry <= s.now)
    && (!t.place.Unarmed? ==> t.expiry == Expiry(t.first, t.interval, t.rearms))
  }

  /** The next run of a shared task is lost only by having run once. */
  predicate KeptOk(s: State, o: nat)
    requires o < |s.all|
  {
    s.all[o].place.Spent? && Alive(s, o) ==> s.all[o].interval == 0 && s.all[o].starts == 1
  }

  predicate TaskOk(s: State, o: nat)
    requires o < |s.all|
  {
    PlaceOk(s, o) && CountsOk(s, o) && DueOk(s, o) && KeptOk(s, o)
  }

  ghost predicate Inv(s: State) {
    && IdsInv(s)
    && (forall w :: 0 <= w < |s.workers| ==> WorkerOk(s, w))
    && (forall o :: 0 <= o < |s.all| ==> TaskOk(s, o))
  }

  /** Tasks keep their id and interval; only schedule() adds one, with a new id. */
  lemma TasksKept(s: State, a: Action, s': State)
    requires Enabled(s, a) && s' == Apply(s, a)
    ensures |s'.all| == |s.all| + if a.Insert? then 1 else 0
    ensures forall o :: 0 <= o < |s.all| ==> s'.all[o].id == s.all[o].id && s'.all[o].interval == s.all[o].interval
    ensures s'.lastId == s.lastId + if a.Insert? || a.OtherScheduler? then 1 else 0
    ensures a.Insert? ==> s'.all[|s.all|].id == s'.lastId && s'.tasks == s.tasks[s'.lastId := |s.all|]
    ensures !a.Insert? ==> s'.tasks.Keys <= s.tasks.Keys && forall id :: id in s'.tasks ==> s'.tasks[id] == s.tasks[id]
    ensures |s'.workers| == |s.workers|
  {}

  lemma IdsStep(s: State, a: Action, s': State)
    requires IdsInv(s) && Enabled(s, a) && s' == Apply(s, a)
    ensures IdsInv(s')
  {
    TasksKept(s, a, s');
  }

  /** Steps of workers. */
  predicate ByWorker(a: Action) {
    a.Fire? || a.Begin? || a.End? || a.Settle? || a.LetGo?
  }

  /** The worker and the task an action is about satisfy the invariant. */
  lemma Actor(s: State, a: Action)
    requires Inv(s) && Enabled(s, a)
    ensures ByWorker(a) ==> WorkerOk(s, a.w)
    ensures a.Fire? || a.Arm? || a.Return? ==> TaskOk(s, a.task)
    ensures a.Begin? || a.End? || a.Settle? || a.LetGo? ==> TaskOk(s, s.workers[a.w].task)
  {}

  lemma OwnWorkerStep(s: State, a: Action, s': State, w: nat)
    requires Inv(s) && Enabled(s, a) && s' == Apply(s, a) && w < |s'.workers| && ByWorker(a)
    ensures WorkerOk(s', w)
  {
    Actor(s, a);
    assert WorkerOk(s, w);
    if !s.workers[w].Idle? {
      assert TaskOk(s, s.workers[w].task);
    }
  }

  lemma WorkerStep(s: State, a: Action, s': State, w: nat)
    requires Inv(s) && Enabled(s, a) && s' == Apply(s, a) && w < |s'.workers|
    ensures WorkerOk(s', w)
  {
    if ByWorker(a) {
      OwnWorkerStep(s, a, s', w);
    } else {
      Actor(s, a);
      assert WorkerOk(s, w);
    }
  }

  /** A task that nobody shares is never shared again. */
  lemma DeadStep(s: State, a: Action, s': State, o: nat)
    requires Inv(s) && Enabled(s, a) && s' == Apply(s, a) && o < |s.all| && !Alive(s, o)
    ensures o < |s'.all| && !Alive(s', o) && s'.all[o].starts == s.all[o].starts
  {
    if ByWorker(a) {
      DeadToWorkers(s, a, s', o);
    }
  }

  lemma DeadToWorkers(s: State, a: Action, s': State, o: nat)
    requires Enabled(s, a) && s' == Apply(s, a) && ByWorker(a) && o < |s.all| && !Alive(s, o)
    ensures o < |s'.all| && !Alive(s', o) && s'.all[o].starts == s.all[o].starts
  {}

  lemma OwnPlaceStep(s: State, a: Action, s': State, o: nat)
    requires Inv(s) && Enabled(s, a) && s' == Apply(s, a) && o < |s'.all| && ByWorker(a)
    ensures PlaceOk(s', o)
  {
    Actor(s, a);
    assert TaskOk(s, o);
  }

  lemma PlaceStep(s: State, a: Action, s': State, o: nat)
    requires Inv(s) && Enabled(s, a) && s' == Apply(s, a) && o < |s'.all|
    ensures PlaceOk(s', o)
  {
    if ByWorker(a) {
      OwnPlaceStep(s, a, s', o);
    } else {
      Actor(s, a);
      assert o < |s.all| ==> TaskOk(s, o);
    }
  }

  lemma CountsRunStep(s: State, a: Action, s': State, o: nat)
    requires Inv(s) && Enabled(s, a) && s' == Apply(s, a) && o < |s'.all|
    requires a.Begin? || a.End? || a.Settle?
    ensures CountsOk(s', o)
  {
    Actor(s, a);
    assert TaskOk(s, o);
  }

  lemma CountsStep(s: State, a: Action, s': State, o: nat)
    requires Inv(s) && Enabled(s, a) && s' == Apply(s, a) && o < |s'.all|
    ensures CountsOk(s', o)
  {
    if a.Begin? || a.End? || a.Settle? {
      CountsRunStep(s, a, s', o);
    } else {
      Actor(s, a);
      assert o < |s.all| ==> TaskOk(s, o);
    }
  }

  lemma DueStep(s: State, a: Action, s': State, o: nat)
    requires Inv(s) && Enabled(s, a) && s' == Apply(s, a) && o < |s'.all|
    ensures DueOk(s', o)
  {
    Actor(s, a);
    assert o < |s.all| ==> TaskOk(s, o);
  }

  lemma KeptStep(s: State, a: Action, s': State, o: nat)
    requires Inv(s) && Enabled(s, a) && s' == Apply(s, a) && o < |s'.all|
    ensures KeptOk(s', o)
  {
    Actor(s, a);
    if o < |s.all| {
      assert TaskOk(s, o);
      if !Alive(s, o) {
        DeadStep(s, a, s', o);
      }
    }
  }

  lemma InvStep(s: State, a: Action, s': State)
    requires Inv(s) && Enabled(s, a) && s' == Apply(s, a)
    ensures Inv(s')
  {
    IdsStep(s, a, s');
    forall w | 0 <= w < |s'.workers| ensures WorkerOk(s', w) {
      WorkerStep(s, a, s', w);
    }
    forall o | 0 <= o < |s'.all| ensures TaskOk(s', o) {
      PlaceStep(s, a, s', o);
      CountsStep(s, a, s', o);
      DueStep(s, a, s', o);
      KeptStep(s, a, s', o);
    }
  }

  // ---- Whole runs ----

  lemma {:induction false} InvAlways(states: seq<State>, actions: seq<Action>, i: nat)
    requires Execution(states, actions) && Inv(states[0]) && i < |states|
    ensures Inv(states[i])
  {
    if i > 0 {
      InvAlways(states, actions, i - 1);
      InvStep(states[i - 1], actions[i - 1], states[i]);
    }
  }

  lemma InitInv(workers: nat)
    ensures Inv(Init(workers))
  {}

  /** Tasks never share an id, and the table lists each task once, under its own. */
  lemma IdsDistinct(states: seq<State>, actions: seq<Action>, i: nat, workers: nat)
    requires Execution(states, actions) && states[0] == Init(workers) && i < |states|
    ensures forall o, p :: 0 <= o < p < |states[i].all| ==> states[i].all[o].id != states[i].all[p].id
    ensures forall id :: id in states[i].tasks ==>
              states[i].tasks[id] < |states[i].all| && states[i].all[states[i].tasks[id]].id == id
  {
    InitInv(workers);
    InvAlways(states, actions, i);
  }

  /** Callback executions of one task never overlap, whatever the number of workers. */
  lemma NeverOverlaps(states: seq<State>, actions: seq<Action>, i: nat, workers: nat, w: nat, v: nat)
    requires Execution(states, actions) && states[0] == Init(workers) && i < |states|
    requires w < v < |states[i].workers| && states[i].workers[w].Running? && states[i].workers[v].Running?
    ensures states[i].workers[w].task != states[i].workers[v].task
  {
    InitInv(workers);
    InvAlways(states, actions, i);
    assert WorkerOk(states[i], w) && WorkerOk(states[i], v);
  }

  /** A task with interval 0 runs at most once. */
  lemma OneShotRunsOnce(states: seq<State>, actions: seq<Action>, i: nat, workers: nat, o: nat)
    requires Execution(states, actions) && states[0] == Init(workers) && i < |states|
    requires o < |states[i].all| && states[i].all[o].interval == 0
    ensures states[i].all[o].starts <= 1
  {
    InitInv(workers);
    InvAlways(states, actions, i);
    assert TaskOk(states[i], o);
  }

  /** Run `k` of a task begins no earlier than `k` intervals after its first expiry. */
  lemma NeverEarly(states: seq<State>, actions: seq<Action>, i: nat, workers: nat)
    requires Execution(states, actions) && states[0] == Init(workers) && i < |actions| && actions[i].Begin?
    ensures var t := states[i].all[states[i].workers[actions[i].w].task];
            t.expiry == t.first + t.starts * t.interval && t.expiry <= states[i].now
  {
    InitInv(workers);
    InvAlways(states, actions, i);
    Actor(states[i], actions[i]);
    var t := states[i].all[states[i].workers[actions[i].w].task];
    ExpiryIs(t.first, t.interval, t.rearms);
  }

  /** Step `j` armed the task with this delay. */
  predicate ArmedAt(states: seq<State>, actions: seq<Action>, j: nat, o: nat, first: nat) {
    && j < |states| && j < |actions|
    && actions[j].Arm? && actions[j].task == o && first == states[j].now + actions[j].delay
  }

  lemma FirstKept(s: State, a: Action, s': State, o: nat)
    requires Enabled(s, a) && s' == Apply(s, a) && o < |s'.all| && !s'.all[o].creator.Inserted?
    requires !(a.Arm? && a.task == o)
    ensures o < |s.all| && !s.all[o].creator.Inserted? && s'.all[o].first == s.all[o].first
  {}

  /** The first expiry of a task is its delay after schedule() armed it. */
  lemma {:induction false} FirstExpiry(states: seq<State>, actions: seq<Action>, i: nat, workers: nat, o: nat)
    requires Execution(states, actions) && states[0] == Init(workers) && i < |states|
    requires o < |states[i].all| && !states[i].all[o].creator.Inserted?
    ensures exists j :: 0 <= j < i && ArmedAt(states, actions, j, o, states[i].all[o].first)
  {
    if i > 0 {
      var s, a := states[i - 1], actions[i - 1];
      if a.Arm? && a.task == o {
        assert ArmedAt(states, actions, i - 1, o, states[i].all[o].first);
      } else {
        FirstKept(s, a, states[i], o);
        FirstExpiry(states, actions, i - 1, workers, o);
      }
    }
  }

  /** What schedule() adds, in any run: a listed task with the next id, then its timer, its delay from now. */
  lemma ScheduleEffect(states: seq<State>, actions: seq<Action>, i: nat, workers: nat)
    requires Execution(states, actions) && states[0] == Init(workers) && i < |actions|
    ensures var s, s', a := states[i], states[i + 1], actions[i];
            && (a.Insert? ==>
                  && |s'.all| == |s.all| + 1 && s'.all[..|s.all|] == s.all && InTasks(s', |s.all|)
                  && s'.all[|s.all|].interval == a.interval && s'.all[|s.all|].id == s.lastId + 1
                  && (forall o :: InTasks(s, o) ==> InTasks(s', o)))
            && (a.Arm? ==>
                  && s'.tasks == s.tasks && s'.all[a.task].waits == 1 && s'.all[a.task].expiry == s.now + a.delay
                  && (forall o :: 0 <= o < |s.all| && o != a.task ==> s'.all[o] == s.all[o]))
  {
    InitInv(workers);
    InvAlways(states, actions, i);
    if actions[i].Arm? {
      assert TaskOk(states[i], actions[i].task);
    }
  }

  /** Cancelling an id takes that id out of the table and does nothing else, in any run. */
  lemma CancelEffect(states: seq<State>, actions: seq<Action>, i: nat, workers: nat)
    requires Execution(states, actions) && states[0] == Init(workers) && i < |actions| && actions[i].Cancel?
    ensures var s, s', id := states[i], states[i + 1], actions[i].id;
            && id !in s'.tasks
            && (forall j :: j in s.tasks && j != id ==> j in s'.tasks && s'.tasks[j] == s.tasks[j])
            && (forall j :: j in s'.tasks ==> j in s.tasks)
            && s'.all == s.all && s'.workers == s.workers && s'.now == s.now && s'.lastId == s.lastId
            && (forall o :: 0 <= o < |s.all| ==> (InTasks(s', o) <==> InTasks(s, o) && s.all[o].id != id))
  {
    InitInv(workers);
    InvAlways(states, actions, i);
  }

  /** The step takes the task out of the table: a cancel of its id, shutdown, or the end of its only run. */
  predicate Unlists(s: State, a: Action, o: nat)
    requires Enabled(s, a) && o < |s.all|
  {
    || a == Cancel(s.all[o].id)
    || a.Clear?
    || (a.Settle? && a.schedulerAlive && s.workers[a.w] == Finished(o) && s.all[o].interval == 0)
  }

  /** In any run, a listed task stays listed until a step unlists it, and every such step does. */
  lemma ListedUntil(states: seq<State>, actions: seq<Action>, i: nat, workers: nat, o: nat)
    requires Execution(states, actions) && states[0] == Init(workers) && i < |actions| && InTasks(states[i], o)
    ensures InTasks(states[i + 1], o) <==> !Unlists(states[i], actions[i], o)
  {
    InitInv(workers);
    InvAlways(states, actions, i);
    var s, a, s' := states[i], actions[i], states[i + 1];
    TasksKept(s, a, s');
    Actor(s, a);
  }

  /** The end of a callback, in any run: a periodic task waits for its next expiry, a one-shot task for nothing. */
  lemma SettleEffect(states: seq<State>, actions: seq<Action>, i: nat, workers: nat)
    requires Execution(states, actions) && states[0] == Init(workers) && i < |actions| && actions[i].Settle?
    ensures var s, s', o := states[i], states[i + 1], states[i].workers[actions[i].w].task;
            && o < |s.all| && s'.workers == s.workers[actions[i].w := Leaving(o)]
            && (forall p :: 0 <= p < |s.all| && p != o ==> s'.all[p] == s.all[p])
            && if s.all[o].interval == 0 then s'.all[o].waits == 0
               else s'.all[o].waits == 1 && s'.all[o].expiry == s.all[o].expiry + s.all[o].interval
  {
    InitInv(workers);
    InvAlways(states, actions, i);
    Actor(states[i], actions[i]);
  }

  /** A listed task that is periodic or has not run always has exactly one run ahead of it or in progress. */
  lemma ListedNeverLost(states: seq<State>, actions: seq<Action>, i: nat, workers: nat, o: nat)
    requires Execution(states, actions) && states[0] == Init(workers) && i < |states|
    requires InTasks(states[i], o) && (states[i].all[o].interval != 0 || states[i].all[o].starts == 0)
    ensures var t := states[i].all[o];
            || t.creator.Inserted?
            || (t.waits == 1 && forall w :: 0 <= w < |states[i].workers| ==> !Busy(states[i].workers[w], o))
            || (t.waits == 0 && exists w :: 0 <= w < |states[i].workers| && Busy(states[i].workers[w], o))
  {
    InitInv(workers);
    InvAlways(states, actions, i);
    assert TaskOk(states[i], o);
    forall w | 0 <= w < |states[i].workers|
      ensures states[i].all[o].place.Waiting? ==> !Busy(states[i].workers[w], o)
    {
      assert WorkerOk(states[i], w);
    }
  }

  // ---- Cancelled tasks ----

  /** Once a task has left the table and nobody shares it, its callback never runs again. */
  lemma {:induction false} DeadForever(states: seq<State>, actions: seq<Action>, o: nat, i: nat)
    requires Execution(states, actions) && Inv(states[0]) && o < |states[0].all| && !Alive(states[0], o)
    requires i < |states|
    ensures o < |states[i].all| && !Alive(states[i], o) && states[i].all[o].starts == states[0].all[o].starts
  {
    if i > 0 {
      DeadForever(states, actions, o, i - 1);
      InvAlways(states, actions, i - 1);
      DeadStep(states[i - 1], actions[i - 1], states[i], o);
    }
  }

  /** Some run from this state begins the callback of the task once more. */
  ghost predicate StartsAgain(s: State, o: nat)
    requires o < |s.all|
  {
    exists states, actions ::
      Execution(states, actions) && states[0] == s && Began(s, states[|actions|], o)
  }

  predicate Began(s: State, s': State, o: nat)
    requires o < |s.all|
  {
    o < |s'.all| && s'.all[o].starts > s.all[o].starts
  }

  lemma HeldStarts(s: State, o: nat, w: nat)
    requires o < |s.all| && w < |s.workers| && s.workers[w] == Holding(o)
    ensures StartsAgain(s, o)
  {
    var a := Begin(w);
    var s' := Apply(s, a);
    var states, actions := [s, s'], [a];
    assert Execution(states, actions) && states[|actions|] == s' && Began(s, s', o);
  }

  lemma OneStepEarlier(s: State, a: Action, states: seq<State>, actions: seq<Action>)
    requires Enabled(s, a) && Execution(states, actions) && states[0] == Apply(s, a)
    ensures Execution([s] + states, [a] + actions)
  {}

  lemma StartsLater(s: State, a: Action, s': State, o: nat)
    requires Enabled(s, a) && s' == Apply(s, a) && o < |s.all| && o < |s'.all|
    requires s'.all[o].starts == s.all[o].starts && StartsAgain(s', o)
    ensures StartsAgain(s, o)
  {
    var states, actions :| Execution(states, actions) && states[0] == s' && Began(s', states[|actions|], o);
    OneStepEarlier(s, a, states, actions);
    var states', actions' := [s] + states, [a] + actions;
    assert states'[|actions'|] == states[|actions|] && Began(s, states'[|actions'|], o);
  }

  /** The task has left the table and schedule() has returned. */
  predicate Cancelled(s: State, o: nat) {
    o < |s.all| && !InTasks(s, o) && s.all[o].creator.Returned?
  }

  lemma CancelledStep(s: State, a: Action, s': State, o: nat)
    requires Inv(s) && Enabled(s, a) && s' == Apply(s, a) && Cancelled(s, o)
    ensures Cancelled(s', o)
  {
    Actor(s, a);
    TasksKept(s, a, s');
  }

  /** With one worker that does not hold the task before its callback, no step of a cancelled task begins it. */
  predicate Quiet(s: State, o: nat) {
    Cancelled(s, o) && |s.workers| == 1 && s.workers[0] != Holding(o)
  }

  lemma QuietStep(s: State, a: Action, s': State, o: nat)
    requires Inv(s) && Enabled(s, a) && s' == Apply(s, a) && Quiet(s, o)
    ensures Quiet(s', o) && s'.all[o].starts == s.all[o].starts
  {
    CancelledStep(s, a, s', o);
    Actor(s, a);
    if a.Fire? && a.task == o {
      assert !Alive(s, o);
    }
  }

  lemma QuietNext(states: seq<State>, actions: seq<Action>, o: nat, i: nat)
    requires Execution(states, actions) && Inv(states[0]) && i < |actions| && Quiet(states[i], o)
    ensures Quiet(states[i + 1], o) && states[i + 1].all[o].starts == states[i].all[o].starts
  {
    InvAlways(states, actions, i);
    var s, a, s' := states[i], actions[i], states[i + 1];
    QuietStep(s, a, s', o);
  }

  lemma {:induction false} QuietForever(states: seq<State>, actions: seq<Action>, o: nat, i: nat)
    requires Execution(states, actions) && Inv(states[0]) && Quiet(states[0], o) && i < |states|
    ensures Quiet(states[i], o) && states[i].all[o].starts == states[0].all[o].starts
  {
    if i > 0 {
      QuietForever(states, actions, o, i - 1);
      QuietNext(states, actions, o, i - 1);
    }
  }

  /**
   * With one worker, a cancelled task begins again exactly if the worker had already locked it when it was cancelled:
   * so never after a cancel issued from a callback, which occupies the worker.
   */
  lemma OneWorkerIff(s: State, o: nat)
    requires Inv(s) && |s.workers| == 1 && Cancelled(s, o)
    ensures StartsAgain(s, o) <==> s.workers[0] == Holding(o)
  {
    if s.workers[0] == Holding(o) {
      HeldStarts(s, o, 0);
    } else if StartsAgain(s, o) {
      var states, actions :| Execution(states, actions) && states[0] == s && Began(s, states[|actions|], o);
      QuietForever(states, actions, o, |actions|);
    }
  }

  // ---- Cancelled tasks with several workers ----

  /** No worker holds the one-shot task before its callback. */
  ghost predicate Settled(s: State, o: nat) {
    && Cancelled(s, o) && s.all[o].interval == 0
    && forall w :: 0 <= w < |s.workers| ==> s.workers[w] != Holding(o)
  }

  lemma SettledStep(s: State, a: Action, s': State, o: nat)
    requires Inv(s) && Enabled(s, a) && s' == Apply(s, a) && Settled(s, o)
    ensures Settled(s', o) && s'.all[o].starts == s.all[o].starts
  {
    CancelledStep(s, a, s', o);
    Actor(s, a);
    if a.Fire? && a.task == o {
      forall w | 0 <= w < |s.workers| ensures !Holds(s.workers[w], o) {
        assert WorkerOk(s, w);
      }
    }
  }

  lemma SettledNext(states: seq<State>, actions: seq<Action>, o: nat, i: nat)
    requires Execution(states, actions) && Inv(states[0]) && i < |actions| && Settled(states[i], o)
    ensures Settled(states[i + 1], o) && states[i + 1].all[o].starts == states[i].all[o].starts
  {
    InvAlways(states, actions, i);
    var s, a, s' := states[i], actions[i], states[i + 1];
    SettledStep(s, a, s', o);
  }

  lemma {:induction false} SettledForever(states: seq<State>, actions: seq<Action>, o: nat, i: nat)
    requires Execution(states, actions) && Inv(states[0]) && Settled(states[0], o) && i < |states|
    ensures Settled(states[i], o) && states[i].all[o].starts == states[0].all[o].starts
  {
    if i > 0 {
      SettledForever(states, actions, o, i - 1);
      SettledNext(states, actions, o, i - 1);
    }
  }

  /** With any number of workers, a cancelled one-shot task still runs exactly if a worker had already locked it. */
  lemma OneShotIff(s: State, o: nat)
    requires Inv(s) && Cancelled(s, o) && s.all[o].interval == 0
    ensures StartsAgain(s, o) <==> exists w :: 0 <= w < |s.workers| && s.workers[w] == Holding(o)
  {
    if w :| 0 <= w < |s.workers| && s.workers[w] == Holding(o) {
      HeldStarts(s, o, w);
    } else if StartsAgain(s, o) {
      var states, actions :| Execution(states, actions) && states[0] == s && Began(s, states[|actions|], o);
      SettledForever(states, actions, o, |actions|);
    }
  }

  lemma WaitingStarts(s: State, o: nat, v: nat)
    requires Alive(s, o) && s.all[o].waits > 0 && v < |s.workers| && s.workers[v].Idle?
    ensures StartsAgain(s, o)
  {
    var tick := Tick(s.all[o].expiry);
    var due := Apply(s, tick);
    assert Alive(due, o);
    var fire := Fire(v, o);
    var held := Apply(due, fire);
    HeldStarts(held, o, v);
    StartsLater(due, fire, held, o);
    StartsLater(s, tick, due, o);
  }

  /** Steps a worker needs to become idle. */
  function StepsLeft(w: Worker): nat {
    match w
    case Idle => 0
    case Leaving(_) => 1
    case Finished(_) => 2
    case Running(_) => 3
    case Holding(_) => 4
  }

  function NextStep(w: nat, worker: Worker): Action
    requires !worker.Idle?
  {
    match worker
    case Holding(_) => Begin(w)
    case Running(_) => End(w)
    case Finished(_) => Settle(w, true)
    case Leaving(_) => LetGo(w)
  }

  /** A step of another worker leaves a task alone whose wait is outstanding and which worker `w` is about to let go. */
  lemma OtherWorkerSteps(s: State, o: nat, w: nat, v: nat)
    requires Inv(s) && o < |s.all| && s.all[o].waits > 0
    requires w < |s.workers| && v < |s.workers| && w != v && s.workers[w] == Leaving(o) && !s.workers[v].Idle?
    ensures var a := NextStep(v, s.workers[v]);
            && Enabled(s, a)
            && var s' := Apply(s, a);
               && o < |s'.all| && s'.all[o] == s.all[o] && |s'.workers| == |s.workers| && s'.workers[w] == Leaving(o)
               && StepsLeft(s'.workers[v]) < StepsLeft(s.workers[v])
  {
    assert WorkerOk(s, v);
    assert TaskOk(s, o);
  }

  /** While one worker is about to let go of a task whose wait is outstanding, another can get free and take it up. */
  lemma {:induction false} LeavingStarts(s: State, o: nat, w: nat, v: nat)
    requires Inv(s) && o < |s.all| && s.all[o].waits > 0
    requires w < |s.workers| && v < |s.workers| && w != v && s.workers[w] == Leaving(o)
    ensures StartsAgain(s, o)
    decreases StepsLeft(s.workers[v])
  {
    if s.workers[v].Idle? {
      assert Holds(s.workers[w], o);
      WaitingStarts(s, o, v);
    } else {
      OtherWorkerSteps(s, o, w, v);
      var a := NextStep(v, s.workers[v]);
      var s' := Apply(s, a);
      InvStep(s, a, s');
      LeavingStarts(s', o, w, v);
      StartsLater(s, a, s', o);
    }
  }

  lemma FinishedStarts(s: State, o: nat, w: nat, v: nat)
    requires Inv(s) && o < |s.all| && s.all[o].interval != 0
    requires w < |s.workers| && v < |s.workers| && w != v && s.workers[w] == Finished(o)
    ensures StartsAgain(s, o)
  {
    var settle := Settle(w, true);
    var armed := Apply(s, settle);
    InvStep(s, settle, armed);
    LeavingStarts(armed, o, w, v);
    StartsLater(s, settle, armed, o);
  }

  lemma RunningStarts(s: State, o: nat, w: nat, v: nat)
    requires Inv(s) && o < |s.all| && s.all[o].interval != 0
    requires w < |s.workers| && v < |s.workers| && w != v && s.workers[w] == Running(o)
    ensures StartsAgain(s, o)
  {
    var end := End(w);
    var ended := Apply(s, end);
    InvStep(s, end, ended);
    FinishedStarts(ended, o, w, v);
    StartsLater(s, end, ended, o);
  }

  /** A periodic task that a worker still shares begins again in some run. */
  lemma SharedStarts(s: State, o: nat)
    requires Inv(s) && Cancelled(s, o) && s.all[o].interval != 0 && |s.workers| >= 2 && Alive(s, o)
    ensures StartsAgain(s, o)
  {
    assert TaskOk(s, o);
    if s.all[o].place.Waiting? {
      var w :| 0 <= w < |s.workers| && Holds(s.workers[w], o);
      assert WorkerOk(s, w);
      LeavingStarts(s, o, w, if w == 0 then 1 else 0);
    } else {
      var w := s.all[o].place.w;
      var v := if w == 0 then 1 else 0;
      match s.workers[w] {
        case Holding(_) => HeldStarts(s, o, w);
        case Running(_) => RunningStarts(s, o, w, v);
        case Finished(_) => FinishedStarts(s, o, w, v);
      }
    }
  }

  /**
   * With two or more workers, a cancelled periodic task begins again in some run exactly if somebody still shares it:
   * a worker that re-arms it late keeps it alive just long enough for another one to take up the overdue wait.
   */
  lemma PeriodicIff(s: State, o: nat)
    requires Inv(s) && Cancelled(s, o) && s.all[o].interval != 0 && |s.workers| >= 2
    ensures StartsAgain(s, o) <==> Alive(s, o)
  {
    if Alive(s, o) {
      SharedStarts(s, o);
    } else if StartsAgain(s, o) {
      var states, actions :| Execution(states, actions) && states[0] == s && Began(s, states[|actions|], o);
      DeadForever(states, actions, o, |actions|);
    }
  }

  // ---- Runs in which a cancelled task begins ----

  lemma Extend(states: seq<State>, actions: seq<Action>, a: Action, s': State)
    returns (states': seq<State>, actions': seq<Action>)
    requires Execution(states, actions) && Enabled(states[|actions|], a) && s' == Apply(states[|actions|], a)
    ensures Execution(states', actions') && states' == states + [s'] && actions' == actions + [a]
    ensures states'[|actions'|] == s'
  {
    states', actions' := states + [s'], actions + [a];
  }

  /** The task with id 1 has been scheduled without delay, and worker 0 has locked it. */
  function FirstLocked(workers: nat, interval: nat): State
    requires workers >= 1
  {
    State(0, 1, map[1 := 0], [TimerTask(1, interval, Returned, 0, 0, 0, At(0), 0, 0)],
          seq(workers, w => if w == 0 then Holding(0) else Idle))
  }

  lemma LockFirst(workers: nat, interval: nat) returns (states: seq<State>, actions: seq<Action>)
    requires workers >= 1
    ensures Execution(states, actions) && states[0] == Init(workers)
    ensures actions == [Insert(interval), Arm(0, 0), Return(0), Fire(0, 0)]
    ensures states[4] == FirstLocked(workers, interval)
  {
    var idle := Init(workers).workers;
    var t := TimerTask(1, interval, Inserted, 0, 0, 0, Unarmed, 0, 0);
    var armed := t.(creator := Armed, waits := 1, place := Waiting);
    states, actions := [Init(workers)], [];
    states, actions := Extend(states, actions, Insert(interval), State(0, 1, map[1 := 0], [t], idle));
    states, actions := Extend(states, actions, Arm(0, 0), State(0, 1, map[1 := 0], [armed], idle));
    var returned := State(0, 1, map[1 := 0], [armed.(creator := Returned)], idle);
    states, actions := Extend(states, actions, Return(0), returned);
    assert InTasks(returned, 0);
    var locked := FirstLocked(workers, interval);
    assert locked.workers == idle[0 := Holding(0)];
    states, actions := Extend(states, actions, Fire(0, 0), locked);
  }

  /** With one worker: the one-shot task is cancelled after the worker has locked it, and begins all the same. */
  lemma CancelledBegins() returns (states: seq<State>, actions: seq<Action>)
    ensures Execution(states, actions) && states[0] == Init(1)
    ensures actions == [Insert(0), Arm(0, 0), Return(0), Fire(0, 0), Cancel(1), Begin(0)]
    ensures Cancelled(states[5], 0) && Began(states[5], states[6], 0)
  {
    states, actions := LockFirst(1, 0);
    var cancelled := Apply(states[4], Cancel(1));
    states, actions := Extend(states, actions, Cancel(1), cancelled);
    states, actions := Extend(states, actions, Begin(0), Apply(cancelled, Begin(0)));
  }

  /** A cancelled periodic task after its first run has begun. */
  function Once(place: Place): TimerTask {
    TimerTask(1, 5, Returned, 0, 0, 0, place, 1, 0)
  }

  function Again(waits: nat, place: Place): TimerTask {
    TimerTask(1, 5, Returned, 0, 5, waits, place, 1, 1)
  }

  const CANCELLED_RUNNING: State := State(0, 1, map[], [Once(At(0))], [Running(0), Idle])

  const OVERDUE: State := State(5, 1, map[], [Again(1, Waiting)], [Leaving(0), Idle])

  lemma CancelRunning() returns (states: seq<State>, actions: seq<Action>)
    ensures Execution(states, actions) && states[0] == Init(2)
    ensures actions == [Insert(5), Arm(0, 0), Return(0), Fire(0, 0), Begin(0), Cancel(1)]
    ensures states[6] == CANCELLED_RUNNING
  {
    states, actions := LockFirst(2, 5);
    var running := State(0, 1, map[1 := 0], [Once(At(0))], [Running(0), Idle]);
    states, actions := Extend(states, actions, Begin(0), running);
    states, actions := Extend(states, actions, Cancel(1), CANCELLED_RUNNING);
  }

  lemma RearmCancelled(states: seq<State>, actions: seq<Action>)
    returns (states': seq<State>, actions': seq<Action>)
    requires Execution(states, actions) && states[|actions|] == CANCELLED_RUNNING
    ensures Execution(states', actions') && states <= states' && states'[|actions'|] == OVERDUE
    ensures actions' == actions + [End(0), Settle(0, true), Tick(5)]
  {
    var ended := State(0, 1, map[], [Once(At(0))], [Finished(0), Idle]);
    states', actions' := Extend(states, actions, End(0), ended);
    states', actions' := Extend(states', actions', Settle(0, true), OVERDUE.(now := 0));
    states', actions' := Extend(states', actions', Tick(5), OVERDUE);
  }

  lemma TakeOverdue(states: seq<State>, actions: seq<Action>)
    returns (states': seq<State>, actions': seq<Action>)
    requires Execution(states, actions) && states[|actions|] == OVERDUE
    ensures Execution(states', actions') && states <= states'
    ensures actions' == actions + [Fire(1, 0), Begin(1)] && states'[|actions'|].all == [Again(0, At(1)).(starts := 2)]
  {
    assert Holds(OVERDUE.workers[0], 0);
    var taken := State(5, 1, map[], [Again(0, At(1))], [Leaving(0), Holding(0)]);
    states', actions' := Extend(states, actions, Fire(1, 0), taken);
    states', actions' := Extend(states', actions', Begin(1), Apply(taken, Begin(1)));
  }

  /** With two workers: a periodic task cancelled while its callback runs begins again on the other worker. */
  lemma CancelledBeginsAgain() returns (states: seq<State>, actions: seq<Action>)
    ensures Execution(states, actions) && states[0] == Init(2)
    ensures actions == [Insert(5), Arm(0, 0), Return(0), Fire(0, 0), Begin(0), Cancel(1),
                        End(0), Settle(0, true), Tick(5), Fire(1, 0), Begin(1)]
    ensures states[6] == CANCELLED_RUNNING && Cancelled(states[6], 0) && Began(states[6], states[11], 0)
  {
    states, actions := CancelRunning();
    states, actions := RearmCancelled(states, actions);
    states, actions := TakeOverdue(states, actions);
  }

  // ---- The critical sections ----

  class SchedulerImpl {
    var now: nat
    var lastId: nat
    var tasks: map<nat, nat>
    var all: seq<TimerTask>
    var workers: seq<Worker>

    ghost function Value(): State
      reads this
    {
      State(now, lastId, tasks, all, workers)
    }

    constructor (workerNum: nat)
      ensures Value() == Init(workerNum)
    {
      now, lastId, tasks, all := 0, 0, map[], [];
      workers := seq(workerNum, _ => Idle);
    }

    /** The locked part of schedule(). */
    method InsertTask(interval: nat) returns (id: nat)
      modifies this
      ensures Value() == Apply(old(Value()), Insert(interval))
      ensures id == lastId && id in tasks && all[tasks[id]].id == id
    {
      lastId := lastId + 1;
      id := lastId;
      tasks := tasks[id := |all|];
      all := all + [TimerTask(id, interval, Inserted, 0, 0, 0, Unarmed, 0, 0)];
    }

    method CancelTask(id: nat)
      modifies this
      ensures Value() == Apply(old(Value()), Cancel(id))
      ensures id !in tasks && all == old(all) && workers == old(workers)
      ensures forall j :: j != id ==>
                (j in tasks <==> j in old(tasks)) && (j in tasks ==> tasks[j] == old(tasks)[j])
    {
      if id !in tasks {
        assert tasks - {id} == tasks;
        return;
      }
      tasks := tasks - {id};
    }

    /** The locked part of shutdown0(). */
    method ClearTasks()
      modifies this
      ensures Value() == Apply(old(Value()), Clear)
    {
      tasks := map[];
    }

    /** What execute() does when the callback has returned. */
    method Rearm(w: nat, schedulerAlive: bool)
      requires Inv(Value()) && Enabled(Value(), Settle(w, schedulerAlive))
      modifies this
      ensures Value() == Apply(old(Value()), Settle(w, schedulerAlive))
      ensures Inv(Value())
    {
      ghost var before := Value();
      var o := workers[w].task;
      var t := all[o];
      if t.interval != 0 {
        all := all[o := t.(expiry := t.expiry + t.interval, waits := t.waits + 1, place := Waiting,
                           rearms := t.rearms + 1)];
      } else {
        if schedulerAlive {
          CancelTask(t.id);
        }
        all := all[o := t.(place := Spent)];
      }
      workers := workers[w := Leaving(o)];
      InvStep(before, Settle(w, schedulerAlive), Value());
    }
  }
}
