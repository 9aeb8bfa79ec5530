/**
 * Runs of overlapping synchronisations: how many receive cycles a process-queue object can get.
 *
 * A call of syncProcessQueue is one locked section for its first pass and then one receiveMessage for each assigned
 * queue. Steps of any number of calls interleave with receive cycles that go on, which look their queue up again, and
 * with cycles that set the idle clock of their queue or die.
 */
module SyncRuns {
  import opened Base
  import opened RouteData
  import opened AssignmentSync

  /** A call that has done its first pass: what it kept, and how far its second pass has come. */
  datatype Call = Call(topic: string, list: seq<MessageQueue>, kept: set<QueueKey>, next: nat)

  /** A receive cycle: its queue, and the process-queue object it last received for. */
  datatype Cycle = Cycle(queue: MessageQueue, obj: nat, alive: bool)

  datatype State = State(t: Tables, calls: seq<Call>, cycles: seq<Cycle>)

  datatype Action =
    | Purge(topic: string, list: seq<MessageQueue>, now: nat)
    | StartNext(c: nat, active: bool, now: nat)
    | Resume(i: nat, active: bool, now: nat)
    | Touch(key: QueueKey, now: nat)
    | Die(i: nat)

  const Init: State := State(Tables(map[], 0, [], []), [], [])

  predicate Open(call: Call) {
    call.next < |call.list|
  }

  predicate Enabled(s: State, a: Action) {
    match a
    case Purge(_, _, _) => true
    case StartNext(c, _, _) => c < |s.calls| && Open(s.calls[c])
    case Resume(i, _, _) => i < |s.cycles| && s.cycles[i].alive
    case Touch(_, _) => true
    case Die(i) => i < |s.cycles|
  }

  /** The new cycle, if the receive was started. */
  function WithStart(s: State, t: Tables, q: MessageQueue): State {
    if |t.objects| > |s.t.objects|
    then s.(t := t, cycles := s.cycles + [Cycle(q, t.objects[|t.objects| - 1], true)])
    else s.(t := t)
  }

  /** A cycle goes on through receiveMessage: it receives for whatever object the table now has for its queue. */
  function Resumed(s: State, i: nat, now: nat): State
    requires i < |s.cycles|
  {
    var cycle := s.cycles[i];
    var t := Begun(s.t, cycle.queue, now).(received := s.t.received, objects := s.t.objects);
    var found := t.table[cycle.queue.Key()];
    var cycle' := if found.Some? then cycle.(obj := found.value.id) else cycle.(alive := false);
    s.(t := t, cycles := s.cycles[i := cycle'])
  }

  function Touched(t: Tables, k: QueueKey, now: nat): Tables {
    if k in t.table && t.table[k].Some?
    then t.(table := t.table[k := Some(t.table[k].value.(idleSince := now))])
    else t
  }

  function Apply(s: State, a: Action): State
    requires Enabled(s, a)
  {
    match a
    case Purge(topic, list, now) =>
      s.(t := Purged(s.t, topic, list, now), calls := s.calls + [Call(topic, list, Kept(s.t, topic, list, now), 0)])
    case StartNext(c, active, now) =>
      var call := s.calls[c];
      var s' := s.(calls := s.calls[c := call.(next := call.next + 1)]);
      var q := call.list[call.next];
      if active && q.Key() !in call.kept then WithStart(s', Begun(s.t, q, now), q) else s'
    case Resume(i, active, now) =>
      if active then Resumed(s, i, now) else s.(cycles := s.cycles[i := s.cycles[i].(alive := false)])
    case Touch(k, now) => s.(t := Touched(s.t, k, now))
    case Die(i) => s.(cycles := s.cycles[i := s.cycles[i].(alive := false)])
  }

  // ---- A call that nothing interrupts ----

  /** The state after call `c` has done `n` steps of its second pass by itself. */
  function Uninterrupted(s: State, c: nat, n: nat, active: bool, now: nat): (r: State)
    requires c < |s.calls| && s.calls[c].next == 0 && n <= |s.calls[c].list|
    ensures |r.calls| == |s.calls| && r.calls[c] == s.calls[c].(next := n)
  {
    if n == 0 then s else Apply(Uninterrupted(s, c, n - 1, active, now), StartNext(c, active, now))
  }

  lemma {:induction false} SecondPass(s: State, c: nat, n: nat, active: bool, now: nat)
    requires c < |s.calls| && s.calls[c].next == 0 && n <= |s.calls[c].list|
    ensures var call := s.calls[c];
            Uninterrupted(s, c, n, active, now).t ==
            if active then BegunAll(s.t, call.list, n, call.kept, now) else s.t
  {
    if n > 0 {
      SecondPass(s, c, n - 1, active, now);
    }
  }

  /** Its steps together are syncProcessQueue as a whole. */
  lemma UninterruptedIsSynced(s: State, topic: string, list: seq<MessageQueue>, active: bool, now: nat)
    ensures var purged := Apply(s, Purge(topic, list, now));
            Uninterrupted(purged, |s.calls|, |list|, active, now).t == Synced(s.t, active, topic, list, now)
  {
    SecondPass(Apply(s, Purge(topic, list, now)), |s.calls|, |list|, active, now);
  }

  // ---- What each step does ----

  lemma NoNullStep(s: State, a: Action, s': State)
    requires NoNull(s.t) && Enabled(s, a) && s' == Apply(s, a)
    ensures NoNull(s'.t)
  {
    if a.StartNext? {
      BegunReceives(s.t, s.calls[a.c].list[s.calls[a.c].next], a.now);
    } else if a.Resume? {
      BegunReceives(s.t, s.cycles[a.i].queue, a.now);
    }
  }

  /** A new cycle receives for the object its queue has in the table, and one that goes on for the one it has now. */
  lemma CyclesFollowTable(s: State, a: Action, s': State)
    requires NoNull(s.t) && Enabled(s, a) && s' == Apply(s, a)
    ensures match a
            case StartNext(c, active, now) =>
              var q := s.calls[c].list[s.calls[c].next];
              if active && q.Key() !in s.calls[c].kept && q.serviceAddress != "" then
                && q.Key() in s'.t.table && s'.t.table[q.Key()].Some?
                && s'.cycles == s.cycles + [Cycle(q, s'.t.table[q.Key()].value.id, true)]
              else s'.cycles == s.cycles
            case Resume(i, active, now) =>
              var q := s.cycles[i].queue;
              if active then
                && q.Key() in s'.t.table && s'.t.table[q.Key()].Some? && s'.t.received == s.t.received
                && s'.cycles == s.cycles[i := Cycle(q, s'.t.table[q.Key()].value.id, s.cycles[i].alive)]
                && (forall k :: k in s.t.table ==> k in s'.t.table && s'.t.table[k] == s.t.table[k])
                && (forall k :: k in s'.t.table && k !in s.t.table ==> k == q.Key())
              else s'.t == s.t && s'.cycles == s.cycles[i := s.cycles[i].(alive := false)]
            case Die(i) => s'.t == s.t && s'.cycles == s.cycles[i := s.cycles[i].(alive := false)]
            case Purge(_, _, _) => s'.cycles == s.cycles && s'.t.received == s.t.received
            case Touch(k, now) =>
              && s'.cycles == s.cycles && s'.t.received == s.t.received && s'.t.table.Keys == s.t.table.Keys
              && (k in s.t.table ==> s'.t.table[k].Some? && s'.t.table[k].value.id == s.t.table[k].value.id
                                     && s'.t.table[k].value.idleSince == now)
              && (forall j :: j in s.t.table && j != k ==> s'.t.table[j] == s.t.table[j])
  {
    if a.StartNext? {
      BegunReceives(s.t, s.calls[a.c].list[s.calls[a.c].next], a.now);
    }
  }

  // ---- Kinds of runs ----

  /**
   * What a run may contain: at most `open` calls of one topic at a time, `late` cycles that go on after their object
   * has left the table, and `improper` assignments that repeat a queue or name one of another topic.
   */
  datatype Limits = Limits(open: nat, late: bool, improper: bool)

  ghost predicate Proper(topic: string, list: seq<MessageQueue>) {
    DuplicateFree(list) && forall q :: q in list ==> q.topic == topic
  }

  /** The object of the cycle is the one its queue has in the table. */
  predicate InPlace(s: State, i: nat)
    requires i < |s.cycles|
  {
    var k := s.cycles[i].queue.Key();
    k in s.t.table && s.t.table[k].Some? && s.t.table[k].value.id == s.cycles[i].obj
  }

  ghost predicate Allowed(l: Limits, s: State, a: Action)
    requires Enabled(s, a)
  {
    && (a.Purge? && !l.improper ==> Proper(a.topic, a.list))
    && (a.Resume? && !l.late ==> InPlace(s, a.i))
  }

  function OpenCalls(s: State, topic: string): set<nat> {
    set c | 0 <= c < |s.calls| && Open(s.calls[c]) && s.calls[c].topic == topic
  }

  ghost predicate Within(l: Limits, s: State) {
    forall topic :: |OpenCalls(s, topic)| <= l.open
  }

  ghost predicate Execution(l: Limits, states: seq<State>, actions: seq<Action>) {
    && |states| == |actions| + 1 && states[0] == Init
    && (forall k :: 0 <= k < |states| ==> Within(l, states[k]))
    && forall k :: 0 <= k < |actions| ==>
         && Enabled(states[k], actions[k]) && Allowed(l, states[k], actions[k])
         && states[k + 1] == Apply(states[k], actions[k])
  }

  /** No process-queue object has been started twice. */
  ghost predicate StartedApart(t: Tables) {
    && (forall i :: 0 <= i < |t.objects| ==> t.objects[i] < t.nextId)
    && (forall i, j :: 0 <= i < j < |t.objects| ==> t.objects[i] != t.objects[j])
  }

  /** No process-queue object has two live cycles. */
  ghost predicate OneCycleEach(s: State) {
    forall i, j :: 0 <= i < j < |s.cycles| && s.cycles[i].alive && s.cycles[j].alive ==>
      s.cycles[i].obj != s.cycles[j].obj
  }

  // ---- One open call per topic, proper assignments, cycles in place ----

  /** Open calls are of different topics. */
  ghost predicate Apart(s: State) {
    forall c, d :: 0 <= c < d < |s.calls| && Open(s.calls[c]) && Open(s.calls[d]) ==>
      s.calls[c].topic != s.calls[d].topic
  }

  lemma WithinApart(l: Limits, s: State)
    requires Within(l, s) && l.open <= 1
    ensures Apart(s)
  {
    forall c, d | 0 <= c < d < |s.calls| && Open(s.calls[c]) && Open(s.calls[d])
      ensures s.calls[c].topic != s.calls[d].topic
    {
      if s.calls[c].topic == s.calls[d].topic {
        var all := OpenCalls(s, s.calls[c].topic);
        assert {c, d} <= all;
        SmallerSubset({c, d}, all);
      }
    }
  }

  lemma {:induction false} SmallerSubset(a: set<nat>, b: set<nat>)
    requires a <= b
    ensures |a| <= |b|
  {
    if a != {} {
      var x :| x in a;
      SmallerSubset(a - {x}, b - {x});
    }
  }

  /** Every queue the call has yet to start is one it kept or is missing from the table. */
  ghost predicate CallOk(t: Tables, call: Call) {
    && Proper(call.topic, call.list)
    && forall j :: call.next <= j < |call.list| && call.list[j].Key() !in call.kept ==>
         call.list[j].Key() !in t.table
  }

  /** Each cycle is on the object it was started for. */
  ghost predicate CyclesOk(s: State) {
    && |s.cycles| == |s.t.objects|
    && forall i :: 0 <= i < |s.cycles| ==> s.cycles[i].obj == s.t.objects[i]
  }

  ghost predicate Inv(s: State) {
    && NoNull(s.t) && StartedApart(s.t) && CyclesOk(s)
    && forall c :: 0 <= c < |s.calls| ==> CallOk(s.t, s.calls[c])
  }

  /** `t'` extends the starts of `t` by starts of objects made since. */
  ghost predicate StartsNew(t: Tables, t': Tables) {
    && t.nextId <= t'.nextId && t.objects <= t'.objects && StartedApart(t')
    && forall i :: |t.objects| <= i < |t'.objects| ==> t.nextId <= t'.objects[i]
  }

  lemma PurgeStep(s: State, a: Action, s': State)
    requires Inv(s) && a.Purge? && Proper(a.topic, a.list) && s' == Apply(s, a)
    ensures Inv(s') && StartsNew(s.t, s'.t)
  {
    forall c | 0 <= c < |s'.calls| ensures CallOk(s'.t, s'.calls[c]) {
      if c < |s.calls| {
        assert CallOk(s.t, s.calls[c]);
      } else {
        PurgedCallOk(s.t, a.topic, a.list, a.now);
      }
    }
  }

  lemma PurgedCallOk(t: Tables, topic: string, list: seq<MessageQueue>, now: nat)
    requires Proper(topic, list)
    ensures CallOk(Purged(t, topic, list, now), Call(topic, list, Kept(t, topic, list, now), 0))
  {
    forall j | 0 <= j < |list| && list[j].Key() !in Kept(t, topic, list, now)
      ensures list[j].Key() !in Purged(t, topic, list, now).table
    {
      assert list[j] in list;
    }
  }

  /** A queue that is missing gets a new object, and that is the one started. */
  lemma BegunNew(t: Tables, q: MessageQueue, now: nat)
    requires NoNull(t) && StartedApart(t) && q.Key() !in t.table
    ensures var t' := Begun(t, q, now);
            && NoNull(t') && StartsNew(t, t') && (|t'.objects| == |t.objects| || |t'.objects| == |t.objects| + 1)
            && t'.table.Keys == t.table.Keys + {q.Key()}
  {}

  lemma StartOthers(t: Tables, t': Tables, q: MessageQueue, call: Call)
    requires CallOk(t, call) && t'.table.Keys == t.table.Keys + {q.Key()}
    requires forall j :: call.next <= j < |call.list| ==> call.list[j].Key() != q.Key()
    ensures CallOk(t', call)
  {}

  lemma StartCalls(s: State, c: nat, t': Tables, d: nat)
    requires Apart(s) && (forall e :: 0 <= e < |s.calls| ==> CallOk(s.t, s.calls[e]))
    requires c < |s.calls| && Open(s.calls[c]) && d < |s.calls|
    requires var q := s.calls[c].list[s.calls[c].next];
             t'.table.Keys == s.t.table.Keys + {q.Key()}
    ensures CallOk(t', if d == c then s.calls[c].(next := s.calls[c].next + 1) else s.calls[d])
  {
    var call := s.calls[c];
    var q := call.list[call.next];
    assert CallOk(s.t, call) && CallOk(s.t, s.calls[d]);
    if d == c {
      StartOthers(s.t, t', q, call.(next := call.next + 1));
    } else if Open(s.calls[d]) {
      forall j | s.calls[d].next <= j < |s.calls[d].list| ensures s.calls[d].list[j].Key() != q.Key() {
        assert s.calls[d].list[j] in s.calls[d].list && q in call.list;
      }
      StartOthers(s.t, t', q, s.calls[d]);
    }
  }

  lemma StartStep(s: State, a: Action, s': State)
    requires Inv(s) && Apart(s) && a.StartNext? && Enabled(s, a) && s' == Apply(s, a)
    ensures Inv(s') && StartsNew(s.t, s'.t)
  {
    var call := s.calls[a.c];
    var q := call.list[call.next];
    assert CallOk(s.t, call);
    if a.active && q.Key() !in call.kept {
      BegunNew(s.t, q, a.now);
      forall d | 0 <= d < |s'.calls| ensures CallOk(s'.t, s'.calls[d]) {
        StartCalls(s, a.c, s'.t, d);
      }
    }
  }

  lemma TouchStep(s: State, a: Action, s': State)
    requires Inv(s) && a.Touch? && s' == Apply(s, a)
    ensures Inv(s') && StartsNew(s.t, s'.t)
  {
    forall c | 0 <= c < |s'.calls| ensures CallOk(s'.t, s'.calls[c]) {
      assert CallOk(s.t, s.calls[c]);
    }
  }

  lemma CycleStep(s: State, a: Action, s': State)
    requires Inv(s) && (a.Resume? || a.Die?) && Enabled(s, a) && (a.Resume? ==> InPlace(s, a.i)) && s' == Apply(s, a)
    ensures Inv(s') && StartsNew(s.t, s'.t)
  {
    assert s'.t == s.t && s'.calls == s.calls;
  }

  /** With open calls of different topics, proper assignments and cycles in place, a start is that of a new object. */
  lemma InvStep(s: State, a: Action, s': State)
    requires Inv(s) && Apart(s) && Enabled(s, a) && Allowed(Limits(1, false, false), s, a) && s' == Apply(s, a)
    ensures Inv(s') && StartsNew(s.t, s'.t)
  {
    match a {
      case Purge(_, _, _) => PurgeStep(s, a, s');
      case StartNext(_, _, _) => StartStep(s, a, s');
      case Touch(_, _) => TouchStep(s, a, s');
      case _ => CycleStep(s, a, s');
    }
  }

  lemma {:induction false} InvAlways(l: Limits, states: seq<State>, actions: seq<Action>, k: nat)
    requires Execution(l, states, actions) && k < |states| && l.open <= 1 && !l.late && !l.improper
    ensures Inv(states[k])
  {
    if k > 0 {
      InvAlways(l, states, actions, k - 1);
      WithinApart(l, states[k - 1]);
      InvStep(states[k - 1], actions[k - 1], states[k]);
    }
  }

  /** In such runs every start is that of an object made by the same step. */
  lemma StartsAreNew(l: Limits, states: seq<State>, actions: seq<Action>, k: nat)
    requires Execution(l, states, actions) && k < |actions| && l.open <= 1 && !l.late && !l.improper
    ensures StartsNew(states[k].t, states[k + 1].t)
  {
    InvAlways(l, states, actions, k);
    WithinApart(l, states[k]);
    InvStep(states[k], actions[k], states[k + 1]);
  }

  /** So no object is ever started twice, and none ever has two live cycles. */
  lemma NeverStartedTwice(l: Limits, states: seq<State>, actions: seq<Action>, k: nat)
    requires Execution(l, states, actions) && k < |states| && l.open <= 1 && !l.late && !l.improper
    ensures StartedApart(states[k].t) && OneCycleEach(states[k])
  {
    InvAlways(l, states, actions, k);
  }

  /** In every run, within any limits, the table holds objects only: CyclesFollowTable applies to each of its steps. */
  lemma {:induction false} ObjectsAlways(l: Limits, states: seq<State>, actions: seq<Action>, k: nat)
    requires Execution(l, states, actions) && k < |states|
    ensures NoNull(states[k].t)
  {
    if k > 0 {
      ObjectsAlways(l, states, actions, k - 1);
      NoNullStep(states[k - 1], actions[k - 1], states[k]);
    }
  }

  // ---- The other runs ----

  /** No object gets a second cycle in any run within the limits. */
  ghost predicate AlwaysOneCycle(l: Limits) {
    forall states: seq<State>, actions: seq<Action>, k: nat :: Execution(l, states, actions) && k < |states| ==>
      StartedApart(states[k].t) && OneCycleEach(states[k])
  }

  lemma Perform(l: Limits, states: seq<State>, actions: seq<Action>, a: Action, s': State)
    returns (states': seq<State>, actions': seq<Action>)
    requires Execution(l, states, actions) && Enabled(states[|actions|], a) && Allowed(l, states[|actions|], a)
    requires s' == Apply(states[|actions|], a) && Within(l, s')
    ensures Execution(l, states', actions') && states'[|actions'|] == s' && actions' == actions + [a]
  {
    states', actions' := states + [s'], actions + [a];
  }

  lemma FewCalls(l: Limits, s: State)
    requires |s.calls| <= l.open
    ensures Within(l, s)
  {
    forall topic ensures |OpenCalls(s, topic)| <= l.open {
      CountUpTo(OpenCalls(s, topic), |s.calls|);
    }
  }

  lemma {:induction false} CountUpTo(a: set<nat>, n: nat)
    requires forall x :: x in a ==> x < n
    ensures |a| <= n
  {
    if n > 0 {
      CountUpTo(a - {n - 1}, n - 1);
    } else {
      assert a == {};
    }
  }

  /** At most the last call is open. */
  lemma LastOpen(l: Limits, s: State)
    requires l.open >= 1 && forall c :: 0 <= c < |s.calls| - 1 ==> !Open(s.calls[c])
    ensures Within(l, s)
  {
    forall topic ensures |OpenCalls(s, topic)| <= l.open {
      SmallerSubset(OpenCalls(s, topic), if s.calls == [] then {} else {|s.calls| - 1});
    }
  }

  const QUEUE: MessageQueue := MessageQueue("topic", "broker", 0, "address")

  const LISTED: map<QueueKey, Option<QueueObject>> := map[QUEUE.Key() := Some(QueueObject(0, 0))]

  /** A call for the one queue that has kept nothing. */
  function OneQueue(next: nat): Call {
    Call("topic", [QUEUE], {}, next)
  }

  const FIRST: State := State(Tables(LISTED, 1, [QUEUE], [0]), [OneQueue(1)], [Cycle(QUEUE, 0, true)])

  const BOTH_OPEN: State := State(Init.t, [OneQueue(0), OneQueue(0)], [])

  lemma TwoPurges(l: Limits) returns (states: seq<State>, actions: seq<Action>)
    requires l.open >= 2
    ensures Execution(l, states, actions) && states[|actions|] == BOTH_OPEN
    ensures actions == [Purge("topic", [QUEUE], 0), Purge("topic", [QUEUE], 0)]
  {
    var purge := Purge("topic", [QUEUE], 0);
    states, actions := [Init], [];
    FewCalls(l, Init);
    NothingKept(Init.t, [QUEUE]);
    var s1 := State(Init.t, [OneQueue(0)], []);
    FewCalls(l, s1);
    states, actions := Perform(l, states, actions, purge, s1);
    FewCalls(l, BOTH_OPEN);
    states, actions := Perform(l, states, actions, purge, BOTH_OPEN);
  }

  lemma NothingKept(t: Tables, list: seq<MessageQueue>)
    requires t.table == map[]
    ensures Purged(t, "topic", list, 0) == t && Kept(t, "topic", list, 0) == {}
  {}

  /** Two calls of one topic purge before either starts: both start the same object. */
  lemma OverlappingCalls(l: Limits) returns (states: seq<State>, actions: seq<Action>)
    requires l.open >= 2
    ensures Execution(l, states, actions)
    ensures actions ==
            [Purge("topic", [QUEUE], 0), Purge("topic", [QUEUE], 0), StartNext(0, true, 0), StartNext(1, true, 0)]
    ensures states[4].t.objects == [0, 0] && !StartedApart(states[4].t) && !OneCycleEach(states[4])
  {
    states, actions := TwoPurges(l);
    var s3 := State(Tables(LISTED, 1, [QUEUE], [0]), [OneQueue(1), OneQueue(0)], [Cycle(QUEUE, 0, true)]);
    FewCalls(l, s3);
    states, actions := Perform(l, states, actions, StartNext(0, true, 0), s3);
    var twice := [Cycle(QUEUE, 0, true), Cycle(QUEUE, 0, true)];
    var s4 := State(Tables(LISTED, 1, [QUEUE, QUEUE], [0, 0]), [OneQueue(1), OneQueue(1)], twice);
    FewCalls(l, s4);
    states, actions := Perform(l, states, actions, StartNext(1, true, 0), s4);
    assert s4.t.objects[0] == s4.t.objects[1] && s4.cycles[0].obj == s4.cycles[1].obj;
  }

  /** One call by itself starts the queue. */
  lemma FirstStart(l: Limits) returns (states: seq<State>, actions: seq<Action>)
    requires l.open >= 1
    ensures Execution(l, states, actions) && states[|actions|] == FIRST
  {
    states, actions := [Init], [];
    LastOpen(l, Init);
    NothingKept(Init.t, [QUEUE]);
    var s1 := State(Init.t, [OneQueue(0)], []);
    LastOpen(l, s1);
    states, actions := Perform(l, states, actions, Purge("topic", [QUEUE], 0), s1);
    LastOpen(l, FIRST);
    states, actions := Perform(l, states, actions, StartNext(0, true, 0), FIRST);
  }

  const ERASED: Tables := Tables(map[], 1, [QUEUE], [0])

  const GONE: Call := Call("topic", [], {}, 0)

  const REASSIGNED: State := State(ERASED, [OneQueue(1), GONE, OneQueue(0)], FIRST.cycles)

  /** The queue is taken away and assigned again. */
  lemma Reassigned(l: Limits) returns (states: seq<State>, actions: seq<Action>)
    requires l.open >= 1
    ensures Execution(l, states, actions) && states[|actions|] == REASSIGNED
  {
    states, actions := FirstStart(l);
    assert Purged(FIRST.t, "topic", [], 0) == ERASED && Kept(FIRST.t, "topic", [], 0) == {};
    var s3 := State(ERASED, [OneQueue(1), GONE], FIRST.cycles);
    LastOpen(l, s3);
    states, actions := Perform(l, states, actions, Purge("topic", [], 0), s3);
    NothingKept(ERASED, [QUEUE]);
    LastOpen(l, REASSIGNED);
    states, actions := Perform(l, states, actions, Purge("topic", [QUEUE], 0), REASSIGNED);
  }

  /**
   * A cycle of the old object, whose completion was running meanwhile, goes on before the new call starts the queue: it
   * makes the new object, and the call starts a second cycle for it.
   */
  lemma LateCycle(l: Limits) returns (states: seq<State>, actions: seq<Action>)
    requires l.open >= 1 && l.late
    ensures Execution(l, states, actions) && !OneCycleEach(states[|actions|])
  {
    states, actions := Reassigned(l);
    var again: map<QueueKey, Option<QueueObject>> := map[QUEUE.Key() := Some(QueueObject(1, 0))];
    var s5 := State(Tables(again, 2, [QUEUE], [0]), REASSIGNED.calls, [Cycle(QUEUE, 1, true)]);
    LastOpen(l, s5);
    states, actions := Perform(l, states, actions, Resume(0, true, 0), s5);
    var twice := [Cycle(QUEUE, 1, true), Cycle(QUEUE, 1, true)];
    var s6 := State(Tables(again, 2, [QUEUE, QUEUE], [0, 1]), [OneQueue(1), GONE, OneQueue(1)], twice);
    LastOpen(l, s6);
    states, actions := Perform(l, states, actions, StartNext(2, true, 0), s6);
    assert s6.cycles[0].obj == s6.cycles[1].obj;
  }

  /** An assignment that names the queue twice starts its object twice. */
  lemma RepeatedQueue(l: Limits) returns (states: seq<State>, actions: seq<Action>)
    requires l.open >= 1 && l.improper
    ensures Execution(l, states, actions) && !StartedApart(states[|actions|].t) && !OneCycleEach(states[|actions|])
  {
    states, actions := [Init], [];
    LastOpen(l, Init);
    var list := [QUEUE, QUEUE];
    NothingKept(Init.t, list);
    var s1 := State(Init.t, [Call("topic", list, {}, 0)], []);
    LastOpen(l, s1);
    states, actions := Perform(l, states, actions, Purge("topic", list, 0), s1);
    var s2 := State(Tables(LISTED, 1, [QUEUE], [0]), [Call("topic", list, {}, 1)], [Cycle(QUEUE, 0, true)]);
    LastOpen(l, s2);
    states, actions := Perform(l, states, actions, StartNext(0, true, 0), s2);
    var twice := [Cycle(QUEUE, 0, true), Cycle(QUEUE, 0, true)];
    var s3 := State(Tables(LISTED, 1, [QUEUE, QUEUE], [0, 0]), [Call("topic", list, {}, 2)], twice);
    LastOpen(l, s3);
    states, actions := Perform(l, states, actions, StartNext(0, true, 0), s3);
    assert s3.t.objects[0] == s3.t.objects[1] && s3.cycles[0].obj == s3.cycles[1].obj;
  }

  lemma NoneOpen(l: Limits, s: State)
    requires Within(l, s) && l.open == 0
    ensures forall c :: 0 <= c < |s.calls| ==> !Open(s.calls[c])
  {
    forall c | 0 <= c < |s.calls| ensures !Open(s.calls[c]) {
      var open := OpenCalls(s, s.calls[c].topic);
      assert |open| == 0 && c !in open;
    }
  }

  /** Without an open call nothing is ever started. */
  lemma {:induction false} NothingStarted(l: Limits, states: seq<State>, actions: seq<Action>, k: nat)
    requires Execution(l, states, actions) && k < |states| && l.open == 0
    ensures states[k].t.objects == [] && states[k].cycles == []
  {
    if k > 0 {
      NothingStarted(l, states, actions, k - 1);
      NoneOpen(l, states[k - 1]);
    }
  }

  /**
   * Exactly when every process-queue object keeps to one receive cycle: at most one call of a topic is open at a time,
   * assignments are proper, and cycles go on only while their object is in the table.
   */
  lemma OneCycleIff(l: Limits)
    ensures AlwaysOneCycle(l) <==> l.open == 0 || (l.open == 1 && !l.late && !l.improper)
  {
    if l.open == 0 {
      forall states: seq<State>, actions: seq<Action>, k: nat | Execution(l, states, actions) && k < |states|
        ensures StartedApart(states[k].t) && OneCycleEach(states[k])
      {
        NothingStarted(l, states, actions, k);
      }
    } else if l.open == 1 && !l.late && !l.improper {
      forall states: seq<State>, actions: seq<Action>, k: nat | Execution(l, states, actions) && k < |states|
        ensures StartedApart(states[k].t) && OneCycleEach(states[k])
      {
        NeverStartedTwice(l, states, actions, k);
      }
    } else if l.open >= 2 {
      var states, actions := OverlappingCalls(l);
    } else if l.late {
      var states, actions := LateCycle(l);
    } else {
      var states, actions := RepeatedQueue(l);
    }
  }
}
