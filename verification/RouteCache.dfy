/**
 * The route cache with single-flight lookup of ClientImpl.cpp.
 *
 * Every getRouteFor call and every periodic refresh is an activity. An activity advances in steps: one critical
 * section, one RPC completion or one callback invocation at a time, interleaved in any order with the others.
 * The callback passed to call `i` is named by `i`.
 */
module RouteCache {
  import opened Base
  import opened RouteData

  datatype RoutePtr = Null | Ptr(partitions: seq<Partition>)

  /** What a route callback is invoked with: whether the error code is set, and the route. */
  datatype Reply = Reply(failed: bool, route: RoutePtr)

  datatype Kind = Call | Refresh

  datatype Pc =
    | Lookup                              // before the first look into the route table
    | Miss                                // before taking the inflight mutex
    | Inside                              // holding the inflight mutex, before the second look
    | Decide(seen: Option<RoutePtr>)      // holding the inflight mutex, after the second look
    | Hit(route: RoutePtr)                // about to run its own callback with a cached route
    | Fetch                               // about to call fetchRouteFor
    | Wait                                // query outstanding
    | Ready(reply: Reply)                 // completion handler entered
    | Cached(reply: Reply)                // updateRouteCache done, before taking the pending callbacks
    | Applying(batch: seq<nat>, reply: Reply)  // running the callbacks it took
    | Done

  datatype Activity = Activity(topic: string, kind: Kind, pc: Pc)

  datatype Delivery = Delivery(call: nat, topic: string, reply: Reply)

  datatype State = State(
    table: map<string, RoutePtr>,        // topic_route_table_
    inflight: map<string, seq<nat>>,     // inflight_route_requests_
    holder: Option<nat>,                 // owner of inflight_route_requests_mtx_
    acts: seq<Activity>,
    log: seq<Delivery>,                  // callback invocations so far
    dropped: set<string>)                // topics whose query was given up: no name server

  datatype Action =
    | GetRouteFor(topic: string)
    | StartRefresh(topic: string)
    | LookUp(i: nat)
    | Enter(i: nat)
    | LookAgain(i: nat)
    | Leave(i: nat)
    | RunOwn(i: nat)
    | Resolve(i: nat, empty: bool)
    | Complete(i: nat, reply: Reply)
    | UpdateCache(i: nat)
    | TakePending(i: nat)
    | RunNext(i: nat)

  const Init: State := State(map[], map[], None, [], [], {})

  /** The guard of updateRouteCache. */
  predicate Usable(reply: Reply) {
    !reply.failed && reply.route.Ptr? && reply.route.partitions != []
  }

  function Updated(table: map<string, RoutePtr>, topic: string, reply: Reply): map<string, RoutePtr> {
    if !Usable(reply) then table
    else if topic !in table then table[topic := reply.route]
    else if table[topic].Ptr? && RouteEq(table[topic].partitions, reply.route.partitions) then table
    else table[topic := reply.route]
  }

  function Look(table: map<string, RoutePtr>, topic: string): Option<RoutePtr> {
    if topic in table then Some(table[topic]) else None
  }

  /** The inflight table after call `i` missed the cache, and whether `i` has to query the name server. */
  function Joined(inflight: map<string, seq<nat>>, topic: string, i: nat): (map<string, seq<nat>>, bool) {
    if topic in inflight then (inflight[topic := inflight[topic] + [i]], false)
    else (inflight[topic := [i]], true)
  }

  /** fetchRouteFor passes a null route along with an error. */
  function Relayed(reply: Reply): Reply {
    if reply.failed then Reply(true, Null) else reply
  }

  predicate At(s: State, i: nat) {
    i < |s.acts|
  }

  predicate Enabled(s: State, a: Action) {
    match a
    case GetRouteFor(_) => true
    case StartRefresh(topic) => topic in s.table
    case LookUp(i) => At(s, i) && s.acts[i].pc.Lookup?
    case Enter(i) => At(s, i) && s.acts[i].pc.Miss? && s.holder.None?
    case LookAgain(i) => At(s, i) && s.acts[i].pc.Inside?
    case Leave(i) => At(s, i) && s.acts[i].pc.Decide?
    case RunOwn(i) => At(s, i) && s.acts[i].pc.Hit?
    case Resolve(i, _) => At(s, i) && s.acts[i].pc.Fetch?
    case Complete(i, _) => At(s, i) && s.acts[i].pc.Wait?
    case UpdateCache(i) => At(s, i) && s.acts[i].pc.Ready?
    case TakePending(i) => At(s, i) && s.acts[i].pc.Cached? && s.holder.None?
    case RunNext(i) => At(s, i) && s.acts[i].pc.Applying?
  }

  function Goto(s: State, i: nat, pc: Pc): State
    requires At(s, i)
  {
    s.(acts := s.acts[i := s.acts[i].(pc := pc)])
  }

  function Apply(s: State, a: Action): State
    requires Enabled(s, a)
  {
    match a
    case GetRouteFor(topic) => s.(acts := s.acts + [Activity(topic, Call, Lookup)])
    case StartRefresh(topic) => s.(acts := s.acts + [Activity(topic, Refresh, Fetch)])
    case LookUp(i) =>
      var seen := Look(s.table, s.acts[i].topic);
      Goto(s, i, if seen.Some? && seen.value.Ptr? then Hit(seen.value) else Miss)
    case Enter(i) => Goto(s, i, Inside).(holder := Some(i))
    case LookAgain(i) => Goto(s, i, Decide(Look(s.table, s.acts[i].topic)))
    case Leave(i) =>
      var seen := s.acts[i].pc.seen;
      if seen.Some? then
        Goto(s, i, if seen.value.Ptr? then Hit(seen.value) else Fetch).(holder := None)
      else
        var (inflight, query) := Joined(s.inflight, s.acts[i].topic, i);
        Goto(s, i, if query then Fetch else Done).(inflight := inflight, holder := None)
    case RunOwn(i) =>
      Goto(s, i, Done).(log := s.log + [Delivery(i, s.acts[i].topic, Reply(false, s.acts[i].pc.route))])
    case Resolve(i, empty) =>
      if !empty then Goto(s, i, Wait)
      else Goto(s, i, Done).(dropped := if s.acts[i].kind.Call? then s.dropped + {s.acts[i].topic} else s.dropped)
    case Complete(i, reply) => Goto(s, i, Ready(Relayed(reply)))
    case UpdateCache(i) =>
      Goto(s, i, if s.acts[i].kind.Call? then Cached(s.acts[i].pc.reply) else Done)
        .(table := Updated(s.table, s.acts[i].topic, s.acts[i].pc.reply))
    case TakePending(i) =>
      var topic := s.acts[i].topic;
      var batch := if topic in s.inflight then s.inflight[topic] else [];
      Goto(s, i, Applying(batch, s.acts[i].pc.reply)).(inflight := s.inflight - {topic})
    case RunNext(i) =>
      var Applying(batch, reply) := s.acts[i].pc;
      if batch == [] then Goto(s, i, Done)
      else Goto(s, i, Applying(batch[1..], reply)).(log := s.log + [Delivery(batch[0], s.acts[i].topic, reply)])
  }

  // ---- The invariant ----

  predicate ValidPtr(p: RoutePtr) {
    p.Ptr? && p.partitions != []
  }

  /** No null and no empty route is cached or about to be handed out from the cache. */
  ghost predicate TableInv(s: State) {
    && (forall t :: t in s.table ==> ValidPtr(s.table[t]))
    && (forall i :: 0 <= i < |s.acts| ==>
          match s.acts[i].pc
          case Decide(seen) => seen.Some? ==> ValidPtr(seen.value)
          case Hit(r) => ValidPtr(r)
          case _ => true)
  }

  predicate HoldsMutex(a: Activity) {
    a.pc.Inside? || a.pc.Decide?
  }

  ghost predicate MutexInv(s: State) {
    && (s.holder.Some? ==> s.holder.value < |s.acts|)
    && (forall i :: 0 <= i < |s.acts| ==> (HoldsMutex(s.acts[i]) <==> s.holder == Some(i)))
  }

  /** An unfinished query started by getRouteFor. */
  predicate Owner(a: Activity) {
    a.kind.Call? && (a.pc.Fetch? || a.pc.Wait? || a.pc.Ready? || a.pc.Cached?)
  }

  ghost predicate HasOwner(s: State, topic: string) {
    exists i :: 0 <= i < |s.acts| && Owner(s.acts[i]) && s.acts[i].topic == topic
  }

  ghost predicate OwnerInv(s: State) {
    && (forall i, j :: 0 <= i < j < |s.acts| && Owner(s.acts[i]) && Owner(s.acts[j]) ==>
          s.acts[i].topic != s.acts[j].topic)
    && (forall i :: 0 <= i < |s.acts| && Owner(s.acts[i]) ==> InList(s, i))
    && (forall t :: t in s.inflight ==> t in s.dropped || HasOwner(s, t))
    && (forall t :: t in s.dropped ==> t in s.inflight && !HasOwner(s, t))
  }

  /** Refreshes run no callbacks. */
  ghost predicate KindInv(s: State) {
    forall i :: 0 <= i < |s.acts| && s.acts[i].kind.Refresh? ==>
      s.acts[i].pc.Fetch? || s.acts[i].pc.Wait? || s.acts[i].pc.Ready? || s.acts[i].pc.Done?
  }

  // Places of the callback of call c.

  predicate InHand(a: Activity) {
    a.kind.Call? && (a.pc.Lookup? || a.pc.Miss? || a.pc.Inside? || a.pc.Decide? || a.pc.Hit?)
  }

  predicate InList(s: State, c: nat) {
    At(s, c) && s.acts[c].topic in s.inflight && c in s.inflight[s.acts[c].topic]
  }

  predicate HasInBatch(a: Activity, c: nat) {
    a.pc.Applying? && c in a.pc.batch
  }

  ghost predicate InBatch(s: State, c: nat) {
    exists i :: 0 <= i < |s.acts| && HasInBatch(s.acts[i], c)
  }

  ghost predicate WasRun(s: State, c: nat) {
    exists k :: 0 <= k < |s.log| && s.log[k].call == c
  }

  /** The callback is with nobody any more, but in a list, in a batch or run. */
  ghost predicate Placed(s: State, c: nat) {
    InList(s, c) || InBatch(s, c) || WasRun(s, c)
  }

  ghost predicate NoDup(q: seq<nat>) {
    forall i, j :: 0 <= i < j < |q| ==> q[i] != q[j]
  }

  /** Callback c belongs to a call for this topic that no longer holds it itself. */
  predicate HandedOver(s: State, topic: string, c: nat) {
    At(s, c) && s.acts[c].kind.Call? && s.acts[c].topic == topic && !InHand(s.acts[c])
  }

  ghost predicate PlacesSound(s: State) {
    && (forall t :: t in s.inflight ==> NoDup(s.inflight[t]))
    && (forall t, c :: t in s.inflight && c in s.inflight[t] ==> HandedOver(s, t, c))
    && (forall i :: 0 <= i < |s.acts| && s.acts[i].pc.Applying? ==> NoDup(s.acts[i].pc.batch))
    && (forall i, c :: 0 <= i < |s.acts| && HasInBatch(s.acts[i], c) ==> HandedOver(s, s.acts[i].topic, c))
    && (forall k :: 0 <= k < |s.log| ==> HandedOver(s, s.log[k].topic, s.log[k].call))
  }

  ghost predicate PlacesDisjoint(s: State) {
    && (forall c :: InList(s, c) ==> !InBatch(s, c) && !WasRun(s, c))
    && (forall c :: InBatch(s, c) ==> !WasRun(s, c))
    && (forall i, j, c :: 0 <= i < j < |s.acts| && HasInBatch(s.acts[i], c) ==> !HasInBatch(s.acts[j], c))
    && (forall k, l :: 0 <= k < l < |s.log| ==> s.log[k].call != s.log[l].call)
  }

  ghost predicate NoneLost(s: State) {
    forall c :: 0 <= c < |s.acts| && s.acts[c].kind.Call? && !InHand(s.acts[c]) ==>
      InList(s, c) || InBatch(s, c) || WasRun(s, c)
  }

  ghost predicate Inv(s: State) {
    TableInv(s) && MutexInv(s) && OwnerInv(s) && KindInv(s) && PlacesSound(s) && PlacesDisjoint(s) && NoneLost(s)
  }
  // ---- Every step keeps it ----

  ghost predicate PlacesInv(s: State) {
    PlacesSound(s) && PlacesDisjoint(s) && NoneLost(s)
  }

  lemma TableStep(s: State, a: Action)
    requires TableInv(s) && Enabled(s, a)
    ensures TableInv(Apply(s, a))
  {}

  lemma MutexStep(s: State, a: Action)
    requires MutexInv(s) && Enabled(s, a)
    ensures MutexInv(Apply(s, a))
  {
    if !a.Enter? && !a.Leave? {
      MutexSame(s, a, Apply(s, a));
    }
  }

  lemma MutexSame(s: State, a: Action, s': State)
    requires MutexInv(s) && Enabled(s, a) && s' == Apply(s, a) && !a.Enter? && !a.Leave?
    ensures MutexInv(s')
  {
    assert s'.holder == s.holder && |s.acts| <= |s'.acts|;
    assert forall j :: 0 <= j < |s.acts| ==> HoldsMutex(s'.acts[j]) == HoldsMutex(s.acts[j]);
  }

  lemma KindStep(s: State, a: Action)
    requires KindInv(s) && Enabled(s, a)
    ensures KindInv(Apply(s, a))
  {}

  /** `s2` differs from `s1` in activity `i` only, which keeps its topic and kind. */
  ghost predicate Moves(s1: State, s2: State, i: nat) {
    && At(s1, i) && |s2.acts| == |s1.acts|
    && (forall j :: 0 <= j < |s1.acts| && j != i ==> s2.acts[j] == s1.acts[j])
    && s2.acts[i].topic == s1.acts[i].topic && s2.acts[i].kind == s1.acts[i].kind
  }

  lemma OwnersElsewhere(s1: State, s2: State, i: nat)
    requires Moves(s1, s2, i)
    ensures forall t :: t != s1.acts[i].topic || Owner(s1.acts[i]) == Owner(s2.acts[i]) ==>
              HasOwner(s1, t) == HasOwner(s2, t)
  {
    forall t | t != s1.acts[i].topic || Owner(s1.acts[i]) == Owner(s2.acts[i])
      ensures HasOwner(s1, t) == HasOwner(s2, t)
    {
      if HasOwner(s1, t) {
        var k :| 0 <= k < |s1.acts| && Owner(s1.acts[k]) && s1.acts[k].topic == t;
        assert Owner(s2.acts[k]) && s2.acts[k].topic == t;
      }
      if HasOwner(s2, t) {
        var k :| 0 <= k < |s2.acts| && Owner(s2.acts[k]) && s2.acts[k].topic == t;
        assert Owner(s1.acts[k]) && s1.acts[k].topic == t;
      }
    }
  }

  lemma ApplyMoves(s: State, a: Action)
    requires Enabled(s, a) && !a.GetRouteFor? && !a.StartRefresh?
    ensures Moves(s, Apply(s, a), a.i)
  {}

  lemma OwnerUnchanged(s: State, s': State, i: nat)
    requires OwnerInv(s) && Moves(s, s', i) && Owner(s.acts[i]) == Owner(s'.acts[i])
    requires s'.inflight == s.inflight && s'.dropped == s.dropped
    ensures OwnerInv(s')
  {
    OwnersElsewhere(s, s', i);
  }

  lemma OwnerJoins(s: State, s': State, i: nat)
    requires OwnerInv(s) && Moves(s, s', i) && !Owner(s.acts[i])
    requires s'.dropped == s.dropped && Joined(s.inflight, s.acts[i].topic, i) == (s'.inflight, Owner(s'.acts[i]))
    ensures OwnerInv(s')
  {
    OwnersElsewhere(s, s', i);
    assert Owner(s'.acts[i]) ==> HasOwner(s', s'.acts[i].topic);
  }

  /** The unfinished query of `i` ends: its entry goes with it, or its topic is recorded as dropped. */
  lemma OwnerEnds(s: State, s': State, i: nat)
    requires OwnerInv(s) && Moves(s, s', i) && Owner(s.acts[i]) && !Owner(s'.acts[i])
    requires || (s'.inflight == s.inflight && s'.dropped == s.dropped + {s.acts[i].topic})
             || (s'.inflight == s.inflight - {s.acts[i].topic} && s'.dropped == s.dropped)
    ensures OwnerInv(s')
  {
    OwnersElsewhere(s, s', i);
    assert HasOwner(s, s.acts[i].topic);
    assert !HasOwner(s', s.acts[i].topic);
  }

  lemma OwnerStarts(s: State, s': State, a: Activity)
    requires OwnerInv(s) && s' == s.(acts := s.acts + [a]) && !Owner(a)
    ensures OwnerInv(s')
  {
    assert forall j :: 0 <= j < |s.acts| ==> s'.acts[j] == s.acts[j];
    assert forall j :: 0 <= j < |s'.acts| && Owner(s'.acts[j]) ==> j < |s.acts|;
    assert forall t :: HasOwner(s', t) == HasOwner(s, t);
  }

  lemma OwnerMoves(s: State, a: Action, s': State)
    requires TableInv(s) && OwnerInv(s) && KindInv(s) && Enabled(s, a) && s' == Apply(s, a)
    requires !a.GetRouteFor? && !a.StartRefresh? && Moves(s, s', a.i)
    ensures OwnerInv(s')
  {
    if a.Leave? && s.acts[a.i].pc.seen.None? {
      OwnerJoins(s, s', a.i);
    } else if Owner(s.acts[a.i]) != Owner(s'.acts[a.i]) {
      OwnerEnds(s, s', a.i);
    } else {
      OwnerUnchanged(s, s', a.i);
    }
  }

  lemma OwnerStep(s: State, a: Action)
    requires TableInv(s) && OwnerInv(s) && KindInv(s) && Enabled(s, a)
    ensures OwnerInv(Apply(s, a))
  {
    var s' := Apply(s, a);
    match a {
      case GetRouteFor(topic) => OwnerStarts(s, s', Activity(topic, Call, Lookup));
      case StartRefresh(topic) => OwnerStarts(s, s', Activity(topic, Refresh, Fetch));
      case _ =>
        ApplyMoves(s, a);
        OwnerMoves(s, a, s');
    }
  }

  /** A step that moves no callback. */
  ghost predicate MovesNone(s: State, s': State, i: nat) {
    && Moves(s, s', i)
    && s'.inflight == s.inflight && s'.log == s.log
    && InHand(s'.acts[i]) == InHand(s.acts[i])
    && !s'.acts[i].pc.Applying? && (s.acts[i].pc.Applying? ==> s.acts[i].pc.batch == [])
  }

  lemma QuietPlaces(s: State, s': State, i: nat)
    requires MovesNone(s, s', i)
    ensures forall j, c :: 0 <= j < |s.acts| ==> HasInBatch(s'.acts[j], c) == HasInBatch(s.acts[j], c)
    ensures forall c: nat :: InList(s', c) == InList(s, c)
    ensures forall c: nat :: InBatch(s', c) == InBatch(s, c)
    ensures forall c: nat :: WasRun(s', c) == WasRun(s, c)
  {
    assert forall j, c :: 0 <= j < |s.acts| ==> HasInBatch(s'.acts[j], c) == HasInBatch(s.acts[j], c);
  }

  lemma QuietStep(s: State, s': State, i: nat)
    requires PlacesInv(s) && MovesNone(s, s', i)
    ensures PlacesInv(s')
  {
    QuietPlaces(s, s', i);
    assert PlacesSound(s') by {
      assert forall t, c :: HandedOver(s', t, c) == HandedOver(s, t, c);
    }
  }

  /** A new activity starts; a new call holds its callback itself. */
  ghost predicate Starts(s: State, s': State, a: Activity) {
    s' == s.(acts := s.acts + [a]) && !a.pc.Applying? && (a.kind.Call? ==> InHand(a))
  }

  lemma StartBatches(s: State, s': State, a: Activity)
    requires Starts(s, s', a)
    ensures forall j :: 0 <= j < |s.acts| ==> s'.acts[j] == s.acts[j]
    ensures forall c: nat :: !HasInBatch(s'.acts[|s.acts|], c)
    ensures forall c: nat :: InBatch(s', c) == InBatch(s, c)
  {
    assert s'.acts[|s.acts|] == a;
    forall c: nat ensures InBatch(s', c) == InBatch(s, c) {
      if InBatch(s, c) {
        var j :| 0 <= j < |s.acts| && HasInBatch(s.acts[j], c);
        assert HasInBatch(s'.acts[j], c);
      }
    }
  }

  lemma StartSound(s: State, s': State, a: Activity)
    requires PlacesSound(s) && Starts(s, s', a)
    ensures PlacesSound(s')
  {
    StartBatches(s, s', a);
    assert forall t, c :: HandedOver(s, t, c) ==> HandedOver(s', t, c);
  }

  lemma StartLists(s: State, s': State, a: Activity)
    requires PlacesSound(s) && Starts(s, s', a)
    ensures forall c: nat :: InList(s', c) == InList(s, c)
    ensures forall c: nat :: WasRun(s', c) == WasRun(s, c)
  {
    forall c: nat | InList(s', c) ensures InList(s, c) {
      assert HandedOver(s, s'.acts[c].topic, c);
    }
  }

  lemma StartStep(s: State, s': State, a: Activity)
    requires PlacesInv(s) && Starts(s, s', a)
    ensures PlacesInv(s')
  {
    StartSound(s, s', a);
    StartBatches(s, s', a);
    StartLists(s, s', a);
  }

  /** A callback that had a place still has one, and one that leaves its caller's hand gets one. */
  lemma NoneLostStep(s: State, s': State, i: nat)
    requires NoneLost(s) && Moves(s, s', i)
    requires forall c: nat :: Placed(s, c) ==> Placed(s', c)
    requires InHand(s.acts[i]) && !InHand(s'.acts[i]) ==> Placed(s', i)
    requires s'.acts[i].kind.Call? && InHand(s'.acts[i]) ==> InHand(s.acts[i])
    ensures NoneLost(s')
  {
    forall c | 0 <= c < |s'.acts| && s'.acts[c].kind.Call? && !InHand(s'.acts[c])
      ensures InList(s', c) || InBatch(s', c) || WasRun(s', c)
    {
      assert c != i ==> s'.acts[c] == s.acts[c];
      assert !InHand(s.acts[c]) ==> Placed(s, c);
      assert Placed(s', c);
    }
  }

  lemma LogGrows(s: State, s': State, d: Delivery)
    requires s'.log == s.log + [d]
    ensures forall c: nat :: WasRun(s', c) <==> WasRun(s, c) || c == d.call
  {
    assert s'.log[|s.log|] == d;
    assert forall k :: 0 <= k < |s.log| ==> s'.log[k] == s.log[k];
  }

  /** A call leaves its callback in the list of its topic. */
  ghost predicate JoinsList(s: State, s': State, i: nat) {
    && Moves(s, s', i)
    && InHand(s.acts[i]) && !InHand(s'.acts[i]) && !s'.acts[i].pc.Applying?
    && s'.inflight == Joined(s.inflight, s.acts[i].topic, i).0 && s'.log == s.log
  }

  lemma JoinPlaces(s: State, s': State, i: nat)
    requires PlacesInv(s) && JoinsList(s, s', i)
    ensures forall c: nat :: InList(s', c) <==> InList(s, c) || c == i
    ensures forall c: nat :: InBatch(s', c) == InBatch(s, c)
    ensures forall c: nat :: WasRun(s', c) == WasRun(s, c)
    ensures !InList(s, i) && !InBatch(s, i) && !WasRun(s, i)
  {
    assert forall j, c :: 0 <= j < |s.acts| ==> HasInBatch(s'.acts[j], c) == HasInBatch(s.acts[j], c);
    assert forall t :: !HandedOver(s, t, i);
  }

  lemma JoinSound(s: State, s': State, i: nat)
    requires PlacesSound(s) && JoinsList(s, s', i)
    ensures PlacesSound(s')
  {
    assert forall t, c :: HandedOver(s, t, c) ==> HandedOver(s', t, c);
    assert forall j, c :: 0 <= j < |s.acts| ==> HasInBatch(s'.acts[j], c) == HasInBatch(s.acts[j], c);
    assert !HandedOver(s, s.acts[i].topic, i);
  }

  lemma JoinStep(s: State, s': State, i: nat)
    requires PlacesInv(s) && JoinsList(s, s', i)
    ensures PlacesInv(s')
  {
    JoinSound(s, s', i);
    JoinPlaces(s, s', i);
    assert PlacesDisjoint(s') by {
      assert forall j, c :: 0 <= j < |s.acts| ==> HasInBatch(s'.acts[j], c) == HasInBatch(s.acts[j], c);
    }
    NoneLostStep(s, s', i);
  }

  /** A call runs its own callback with a cached route. */
  ghost predicate RunsOwn(s: State, s': State, i: nat, reply: Reply) {
    && Moves(s, s', i)
    && InHand(s.acts[i]) && !InHand(s'.acts[i]) && !s'.acts[i].pc.Applying?
    && s'.inflight == s.inflight && s'.log == s.log + [Delivery(i, s.acts[i].topic, reply)]
  }

  lemma RunOwnPlaces(s: State, s': State, i: nat, reply: Reply)
    requires PlacesInv(s) && RunsOwn(s, s', i, reply)
    ensures forall c: nat :: InList(s', c) == InList(s, c)
    ensures forall c: nat :: InBatch(s', c) == InBatch(s, c)
    ensures forall c: nat :: WasRun(s', c) <==> WasRun(s, c) || c == i
    ensures !InList(s, i) && !InBatch(s, i) && !WasRun(s, i)
  {
    assert forall j, c :: 0 <= j < |s.acts| ==> HasInBatch(s'.acts[j], c) == HasInBatch(s.acts[j], c);
    LogGrows(s, s', Delivery(i, s.acts[i].topic, reply));
    assert forall t :: !HandedOver(s, t, i);
  }

  lemma RunOwnSound(s: State, s': State, i: nat, reply: Reply)
    requires PlacesSound(s) && RunsOwn(s, s', i, reply)
    ensures PlacesSound(s')
  {
    assert forall t, c :: HandedOver(s, t, c) ==> HandedOver(s', t, c);
    assert forall j, c :: 0 <= j < |s.acts| ==> HasInBatch(s'.acts[j], c) == HasInBatch(s.acts[j], c);
  }

  lemma RunOwnDisjoint(s: State, s': State, i: nat, reply: Reply)
    requires PlacesInv(s) && RunsOwn(s, s', i, reply)
    ensures PlacesDisjoint(s')
  {
    RunOwnPlaces(s, s', i, reply);
    assert forall j, c :: 0 <= j < |s.acts| ==> HasInBatch(s'.acts[j], c) == HasInBatch(s.acts[j], c);
    forall k, l | 0 <= k < l < |s'.log| ensures s'.log[k].call != s'.log[l].call {
      assert s'.log[k] == s.log[k] && WasRun(s, s.log[k].call);
    }
  }

  lemma RunOwnStep(s: State, s': State, i: nat, reply: Reply)
    requires PlacesInv(s) && RunsOwn(s, s', i, reply)
    ensures PlacesInv(s')
  {
    RunOwnSound(s, s', i, reply);
    RunOwnDisjoint(s, s', i, reply);
    RunOwnPlaces(s, s', i, reply);
    NoneLostStep(s, s', i);
  }

  /** The completing activity takes the whole list of its topic. */
  ghost predicate TakesList(s: State, s': State, i: nat) {
    && Moves(s, s', i)
    && !InHand(s.acts[i]) && !s.acts[i].pc.Applying? && s.acts[i].topic in s.inflight
    && s'.acts[i].pc.Applying? && s'.acts[i].pc.batch == s.inflight[s.acts[i].topic]
    && s'.inflight == s.inflight - {s.acts[i].topic} && s'.log == s.log
  }

  /** Callback `c` is in the list that is taken. */
  predicate InTaken(s: State, i: nat, c: nat)
    requires At(s, i)
  {
    InList(s, c) && s.acts[c].topic == s.acts[i].topic
  }

  lemma TakenBatch(s: State, s': State, i: nat)
    requires PlacesSound(s) && TakesList(s, s', i)
    ensures forall c: nat :: HasInBatch(s'.acts[i], c) <==> InTaken(s, i, c)
    ensures forall j, c :: 0 <= j < |s.acts| && j != i ==> HasInBatch(s'.acts[j], c) == HasInBatch(s.acts[j], c)
    ensures forall c: nat :: !HasInBatch(s.acts[i], c)
  {
    forall c: nat | HasInBatch(s'.acts[i], c) ensures InTaken(s, i, c) {
      assert HandedOver(s, s.acts[i].topic, c);
    }
  }

  lemma TakePlaces(s: State, s': State, i: nat)
    requires PlacesInv(s) && TakesList(s, s', i)
    ensures forall c: nat :: InList(s', c) <==> InList(s, c) && !InTaken(s, i, c)
    ensures forall c: nat :: InBatch(s', c) <==> InBatch(s, c) || InTaken(s, i, c)
    ensures forall c: nat :: WasRun(s', c) == WasRun(s, c)
  {
    TakenBatch(s, s', i);
    forall c: nat ensures InBatch(s', c) <==> InBatch(s, c) || InTaken(s, i, c) {
      if InBatch(s, c) {
        var j :| 0 <= j < |s.acts| && HasInBatch(s.acts[j], c);
        assert HasInBatch(s'.acts[j], c);
      }
      assert InTaken(s, i, c) ==> HasInBatch(s'.acts[i], c);
    }
  }

  lemma TakeSound(s: State, s': State, i: nat)
    requires PlacesSound(s) && TakesList(s, s', i)
    ensures PlacesSound(s')
  {
    TakenBatch(s, s', i);
    assert forall t, c :: HandedOver(s', t, c) == HandedOver(s, t, c);
  }

  lemma TakeDisjoint(s: State, s': State, i: nat)
    requires PlacesInv(s) && TakesList(s, s', i)
    ensures PlacesDisjoint(s')
  {
    TakePlaces(s, s', i);
    TakenBatch(s, s', i);
    forall j, k, c | 0 <= j < k < |s'.acts| && HasInBatch(s'.acts[j], c) ensures !HasInBatch(s'.acts[k], c) {
      if j == i {
        assert !InBatch(s, c);
      } else if k == i {
        assert InBatch(s, c);
      }
    }
  }

  lemma TakeStep(s: State, s': State, i: nat)
    requires PlacesInv(s) && TakesList(s, s', i)
    ensures PlacesInv(s')
  {
    TakeSound(s, s', i);
    TakeDisjoint(s, s', i);
    TakePlaces(s, s', i);
    NoneLostStep(s, s', i);
  }

  lemma TailMembers(q: seq<nat>)
    requires q != [] && NoDup(q)
    ensures NoDup(q[1..])
    ensures forall c :: c in q[1..] <==> c in q && c != q[0]
  {
    assert q == [q[0]] + q[1..];
  }

  /** The completing activity runs the first callback of its batch. */
  ghost predicate RunsNext(s: State, s': State, i: nat) {
    && Moves(s, s', i)
    && s.acts[i].pc.Applying? && s.acts[i].pc.batch != []
    && s'.acts[i].pc == s.acts[i].pc.(batch := s.acts[i].pc.batch[1..])
    && s'.inflight == s.inflight
    && s'.log == s.log + [Delivery(s.acts[i].pc.batch[0], s.acts[i].topic, s.acts[i].pc.reply)]
  }

  lemma RunNextPlaces(s: State, s': State, i: nat)
    requires PlacesInv(s) && RunsNext(s, s', i)
    ensures var c0 := s.acts[i].pc.batch[0];
            && InBatch(s, c0)
            && (forall c: nat :: InBatch(s', c) <==> InBatch(s, c) && c != c0)
            && (forall c: nat :: WasRun(s', c) <==> WasRun(s, c) || c == c0)
            && (forall c: nat :: InList(s', c) == InList(s, c))
  {
    var c0 := s.acts[i].pc.batch[0];
    assert HasInBatch(s.acts[i], c0);
    TailMembers(s.acts[i].pc.batch);
    assert forall c: nat :: HasInBatch(s'.acts[i], c) <==> HasInBatch(s.acts[i], c) && c != c0;
    LogGrows(s, s', Delivery(c0, s.acts[i].topic, s.acts[i].pc.reply));
  }

  lemma RunNextSound(s: State, s': State, i: nat)
    requires PlacesInv(s) && RunsNext(s, s', i)
    ensures PlacesSound(s')
  {
    assert HasInBatch(s.acts[i], s.acts[i].pc.batch[0]);
    TailMembers(s.acts[i].pc.batch);
    assert forall t, c :: HandedOver(s', t, c) == HandedOver(s, t, c);
    assert forall j, c :: 0 <= j < |s.acts| && HasInBatch(s'.acts[j], c) ==> HasInBatch(s.acts[j], c);
  }

  lemma RunNextDisjoint(s: State, s': State, i: nat)
    requires PlacesInv(s) && RunsNext(s, s', i)
    ensures PlacesDisjoint(s')
  {
    RunNextPlaces(s, s', i);
    forall j, k, c | 0 <= j < k < |s'.acts| && HasInBatch(s'.acts[j], c) ensures !HasInBatch(s'.acts[k], c) {
      assert HasInBatch(s.acts[j], c);
      assert !HasInBatch(s.acts[k], c);
    }
    forall k, l | 0 <= k < l < |s'.log| ensures s'.log[k].call != s'.log[l].call {
      assert s'.log[k] == s.log[k] && WasRun(s, s.log[k].call);
    }
  }

  lemma RunNextStep(s: State, s': State, i: nat)
    requires PlacesInv(s) && RunsNext(s, s', i)
    ensures PlacesInv(s')
  {
    RunNextSound(s, s', i);
    RunNextDisjoint(s, s', i);
    RunNextPlaces(s, s', i);
    NoneLostStep(s, s', i);
  }

  lemma PlacesStep(s: State, a: Action)
    requires TableInv(s) && OwnerInv(s) && KindInv(s) && PlacesInv(s) && Enabled(s, a)
    ensures PlacesInv(Apply(s, a))
  {
    var s' := Apply(s, a);
    match a {
      case GetRouteFor(topic) => StartStep(s, s', Activity(topic, Call, Lookup));
      case StartRefresh(topic) => StartStep(s, s', Activity(topic, Refresh, Fetch));
      case _ =>
        ApplyMoves(s, a);
        MoveStep(s, a);
    }
  }

  lemma RunNextMoves(s: State, a: Action, s': State)
    requires PlacesInv(s) && Enabled(s, a) && s' == Apply(s, a) && a.RunNext?
    ensures PlacesInv(s')
  {
    if s.acts[a.i].pc.batch != [] {
      RunNextStep(s, s', a.i);
    } else {
      QuietStep(s, s', a.i);
    }
  }

  lemma LeaveMoves(s: State, a: Action, s': State)
    requires KindInv(s) && TableInv(s) && PlacesInv(s) && Enabled(s, a) && s' == Apply(s, a) && a.Leave?
    ensures PlacesInv(s')
  {
    if s.acts[a.i].pc.seen.None? {
      JoinStep(s, s', a.i);
    } else {
      QuietStep(s, s', a.i);
    }
  }

  lemma MoveStep(s: State, a: Action)
    requires TableInv(s) && OwnerInv(s) && KindInv(s) && PlacesInv(s) && Enabled(s, a)
    requires !a.GetRouteFor? && !a.StartRefresh? && Moves(s, Apply(s, a), a.i)
    ensures PlacesInv(Apply(s, a))
  {
    var s', i := Apply(s, a), a.i;
    if a.RunOwn? {
      RunOwnStep(s, s', i, Reply(false, s.acts[i].pc.route));
    } else if a.TakePending? {
      assert Owner(s.acts[i]);
      TakeStep(s, s', i);
    } else if a.RunNext? {
      RunNextMoves(s, a, s');
    } else if a.Leave? {
      LeaveMoves(s, a, s');
    } else {
      QuietStep(s, s', i);
    }
  }

  lemma InvStep(s: State, a: Action)
    requires Inv(s) && Enabled(s, a)
    ensures Inv(Apply(s, a))
  {
    TableStep(s, a);
    MutexStep(s, a);
    KindStep(s, a);
    OwnerStep(s, a);
    PlacesStep(s, a);
  }

  // ---- Whole runs ----

  /** A finite run: any interleaving of any number of calls, refreshes and completions. */
  ghost predicate Execution(states: seq<State>, actions: seq<Action>) {
    && |states| == |actions| + 1 && states[0] == Init
    && forall k :: 0 <= k < |actions| ==>
         Enabled(states[k], actions[k]) && states[k + 1] == Apply(states[k], actions[k])
  }

  lemma {:induction false} InvAlways(states: seq<State>, actions: seq<Action>, k: nat)
    requires Execution(states, actions) && k < |states|
    ensures Inv(states[k])
  {
    if k > 0 {
      InvAlways(states, actions, k - 1);
      InvStep(states[k - 1], actions[k - 1]);
    }
  }

  /**
   * Single flight. In every reachable state a topic has at most one unfinished query started by getRouteFor; it has
   * an inflight entry if it has such a query, and only then unless its query was given up for want of a name server.
   */
  lemma SingleFlight(states: seq<State>, actions: seq<Action>, k: nat)
    requires Execution(states, actions) && k < |states|
    ensures var s := states[k];
            && (forall i, j :: 0 <= i < j < |s.acts| && Owner(s.acts[i]) && Owner(s.acts[j]) ==>
                  s.acts[i].topic != s.acts[j].topic)
            && (forall t :: t in s.inflight <==> HasOwner(s, t) || t in s.dropped)
  {
    InvAlways(states, actions, k);
  }

  /** The assertion of onTopicRouteReady: the completing activity always finds the inflight entry of its topic. */
  lemma PendingEntryExists(states: seq<State>, actions: seq<Action>, k: nat, i: nat)
    requires Execution(states, actions) && k < |actions| && actions[k] == TakePending(i)
    ensures states[k].acts[i].topic in states[k].inflight
    ensures i in states[k].inflight[states[k].acts[i].topic]
  {
    InvAlways(states, actions, k);
    var s := states[k];
    assert Owner(s.acts[i]);
  }

  /**
   * Every callback is in exactly one place: with its caller, once in the list of its topic, once in the batch of one
   * completing activity, or run exactly once.
   */
  lemma ExactlyOnePlace(states: seq<State>, actions: seq<Action>, k: nat, c: nat)
    requires Execution(states, actions) && k < |states|
    requires At(states[k], c) && states[k].acts[c].kind.Call?
    ensures var s := states[k];
            var (hand, list, batch, run) := (InHand(s.acts[c]), InList(s, c), InBatch(s, c), WasRun(s, c));
            && (hand || list || batch || run)
            && !(hand && list) && !(hand && batch) && !(hand && run)
            && !(list && batch) && !(list && run) && !(batch && run)
    ensures var s := states[k];
            && (forall t :: t in s.inflight ==> NoDup(s.inflight[t]) && (c in s.inflight[t] ==> t == s.acts[c].topic))
            && (forall i, j :: 0 <= i < j < |s.acts| ==> !(HasInBatch(s.acts[i], c) && HasInBatch(s.acts[j], c)))
            && (forall i :: 0 <= i < |s.acts| && s.acts[i].pc.Applying? ==> NoDup(s.acts[i].pc.batch))
            && (forall m, n :: 0 <= m < n < |s.log| ==> !(s.log[m].call == c && s.log[n].call == c))
            && (forall m :: 0 <= m < |s.log| && s.log[m].call == c ==> s.log[m].topic == s.acts[c].topic)
  {
    InvAlways(states, actions, k);
    var s := states[k];
    if InHand(s.acts[c]) {
      assert forall t :: !HandedOver(s, t, c);
    }
  }

  /** When nothing is left to do and no query was given up, every callback has run, once, for its own topic. */
  lemma AllCallbacksRun(states: seq<State>, actions: seq<Action>, k: nat, c: nat)
    requires Execution(states, actions) && k < |states|
    requires forall i :: 0 <= i < |states[k].acts| ==> states[k].acts[i].pc.Done?
    requires states[k].dropped == {}
    requires At(states[k], c) && states[k].acts[c].kind.Call?
    ensures exists m :: 0 <= m < |states[k].log| && states[k].log[m].call == c
                        && states[k].log[m].topic == states[k].acts[c].topic
  {
    InvAlways(states, actions, k);
    var s := states[k];
    assert forall t :: !HasOwner(s, t);
    assert !InList(s, c) && !InBatch(s, c);
    var m :| 0 <= m < |s.log| && s.log[m].call == c;
    assert HandedOver(s, s.log[m].topic, c);
  }

  lemma CacheKept(s: State, a: Action, s': State, topic: string)
    requires Enabled(s, a) && s' == Apply(s, a) && topic in s.table
    ensures topic in s'.table
  {}

  /** A cached route is never removed, and never replaced by an error, a null route or an empty one. */
  lemma {:induction false} CacheOnlyImproves(states: seq<State>, actions: seq<Action>, k: nat, m: nat, topic: string)
    requires Execution(states, actions) && k <= m < |states|
    requires topic in states[k].table
    ensures topic in states[m].table && ValidPtr(states[m].table[topic])
    decreases m
  {
    assert TableInv(states[m]) by {
      InvAlways(states, actions, m);
    }
    if k < m {
      CacheOnlyImproves(states, actions, k, m - 1, topic);
      CacheKept(states[m - 1], actions[m - 1], states[m], topic);
    }
  }

  /** Only topics that are in the cache are ever refreshed. */
  lemma {:induction false} RefreshesAreCached(states: seq<State>, actions: seq<Action>, k: nat, i: nat)
    requires Execution(states, actions) && k < |states| && At(states[k], i) && states[k].acts[i].kind.Refresh?
    ensures states[k].acts[i].topic in states[k].table
  {
    if k > 0 {
      var s, a := states[k - 1], actions[k - 1];
      if i < |s.acts| {
        assert s.acts[i].kind == states[k].acts[i].kind && s.acts[i].topic == states[k].acts[i].topic;
        RefreshesAreCached(states, actions, k - 1, i);
        CacheKept(s, a, states[k], s.acts[i].topic);
      }
    }
  }

  // ---- What the steps of any run do to the cache and the callbacks ----

  /** The same topic, broker name, id and permission in every position. */
  ghost predicate Agree(a: seq<Partition>, b: seq<Partition>) {
    && |a| == |b|
    && forall i :: 0 <= i < |a| ==>
         && a[i].topic == b[i].topic && a[i].broker.name == b[i].broker.name
         && a[i].id == b[i].id && a[i].permission == b[i].permission
  }

  /**
   * What becomes of the cached routes when a query for `topic` comes back: a good answer is what the cache says from
   * then on, stored as it came unless what was there agrees with it; anything else, and any other topic, stays.
   */
  ghost predicate Refreshes(before: map<string, RoutePtr>, after: map<string, RoutePtr>, topic: string, reply: Reply) {
    && (forall t :: t != topic ==> (t in after <==> t in before) && (t in before ==> after[t] == before[t]))
    && if reply.failed || reply.route.Null? || reply.route.partitions == [] then after == before
       else
         && topic in after && after[topic].Ptr? && Agree(after[topic].partitions, reply.route.partitions)
         && (topic in before && before[topic].Ptr? && Agree(before[topic].partitions, reply.route.partitions) ==>
               after[topic] == before[topic])
         && (topic !in before || (before[topic].Ptr? && !Agree(before[topic].partitions, reply.route.partitions)) ==>
               after[topic] == reply.route)
  }

  lemma UpdatedRefreshes(table: map<string, RoutePtr>, topic: string, reply: Reply)
    ensures Refreshes(table, Updated(table, topic, reply), topic, reply)
  {}

  /** In any run, every completion brings the cache up to date for its topic, and no other step touches the cache. */
  lemma RefreshStores(states: seq<State>, actions: seq<Action>, k: nat)
    requires Execution(states, actions) && k < |actions|
    ensures var s, s', a := states[k], states[k + 1], actions[k];
            if a.UpdateCache? then
              && Refreshes(s.table, s'.table, s.acts[a.i].topic, s.acts[a.i].pc.reply)
              && s'.acts[a.i].pc == if s.acts[a.i].kind.Call? then Cached(s.acts[a.i].pc.reply) else Done
            else s'.table == s.table
  {
    if actions[k].UpdateCache? {
      var s, i := states[k], actions[k].i;
      UpdatedRefreshes(s.table, s.acts[i].topic, s.acts[i].pc.reply);
    }
  }

  /** In any run, a call whose topic is cached is answered from the cache, by either look; others go on to ask. */
  lemma CacheAnswersCalls(states: seq<State>, actions: seq<Action>, k: nat)
    requires Execution(states, actions) && k < |actions|
    ensures var s, s', a := states[k], states[k + 1], actions[k];
            && (a.LookUp? ==>
                  var topic := s.acts[a.i].topic;
                  s'.acts[a.i].pc == if topic in s.table then Hit(s.table[topic]) else Miss)
            && (a.LookAgain? ==>
                  var topic := s.acts[a.i].topic;
                  s'.acts[a.i].pc == Decide(if topic in s.table then Some(s.table[topic]) else None))
            && (a.Leave? && s.acts[a.i].pc.seen.Some? ==>
                  s'.acts[a.i].pc == Hit(s.acts[a.i].pc.seen.value) && s'.inflight == s.inflight)
            && (a.RunOwn? ==>
                  s'.log == s.log + [Delivery(a.i, s.acts[a.i].topic, Reply(false, s.acts[a.i].pc.route))])
  {
    assert TableInv(states[k]) by {
      InvAlways(states, actions, k);
    }
  }

  /** The callbacks waiting for a topic, first come first. */
  function Waiting(s: State, topic: string): seq<nat> {
    if topic in s.inflight then s.inflight[topic] else []
  }

  /**
   * In any run, the callbacks waiting for a topic are in the order of their coming: a call that saw no route comes
   * last, asks the name server itself exactly if nobody has, and a completion takes all of them and runs the first
   * each time, with its own answer. No other step touches them.
   */
  lemma ServedInOrder(states: seq<State>, actions: seq<Action>, k: nat, topic: string)
    requires Execution(states, actions) && k < |actions|
    ensures var s, s', a := states[k], states[k + 1], actions[k];
            if a.Leave? && s.acts[a.i].pc.seen.None? && s.acts[a.i].topic == topic then
              && Waiting(s', topic) == Waiting(s, topic) + [a.i]
              && s'.acts[a.i].pc == if topic in s.inflight then Done else Fetch
            else if a.TakePending? && s.acts[a.i].topic == topic then
              && topic !in s'.inflight && s'.acts[a.i].pc == Applying(Waiting(s, topic), s.acts[a.i].pc.reply)
            else
              Waiting(s', topic) == Waiting(s, topic)
    ensures var s, s', a := states[k], states[k + 1], actions[k];
            a.RunNext? ==>
              var Applying(batch, reply) := s.acts[a.i].pc;
              if batch == [] then s'.acts[a.i].pc == Done && s'.log == s.log
              else
                && s'.log == s.log + [Delivery(batch[0], s.acts[a.i].topic, reply)]
                && s'.acts[a.i].pc == Applying(batch[1..], reply)
  {
    var s, s', a := states[k], states[k + 1], actions[k];
    if a.TakePending? {
      assert s'.inflight == s.inflight - {s.acts[a.i].topic};
    }
  }

  /** In any run, a query goes out exactly if there is a name server, and its error comes without a route. */
  lemma QueriesGoOut(states: seq<State>, actions: seq<Action>, k: nat)
    requires Execution(states, actions) && k < |actions|
    ensures var s, s', a := states[k], states[k + 1], actions[k];
            && (a.Resolve? ==> s'.acts[a.i].pc == (if a.empty then Done else Wait) && s'.inflight == s.inflight)
            && (a.Complete? ==>
                  && s'.acts[a.i].pc.Ready? && s'.acts[a.i].pc.reply.failed == a.reply.failed
                  && s'.acts[a.i].pc.reply.route == if a.reply.failed then Null else a.reply.route)
  {
    assert Enabled(states[k], actions[k]);
  }

  // ---- Where the answers come from ----

  /** The answer an activity carries: the outcome of its query, or the route it saw in the cache. */
  function ReplyOf(a: Activity): Option<Reply> {
    match a.pc
    case Decide(seen) => if seen.Some? then Some(Reply(false, seen.value)) else None
    case Hit(route) => Some(Reply(false, route))
    case Ready(r) => Some(r)
    case Cached(r) => Some(r)
    case Applying(_, r) => Some(r)
    case _ => None
  }

  /** Reply `r` is what some query for this topic, completed before step `k`, came back with. */
  ghost predicate Answered(states: seq<State>, actions: seq<Action>, k: nat, topic: string, r: Reply)
    requires Execution(states, actions)
  {
    exists m :: 0 <= m < k && m < |actions| && actions[m].Complete?
                && states[m].acts[actions[m].i].topic == topic && r.failed == actions[m].reply.failed
                && r.route == if r.failed then Null else actions[m].reply.route
  }

  /** A cached route was there before, or the activity that updates the cache carries it for that topic. */
  lemma TableOrigin(s: State, a: Action, s': State, topic: string)
    requires Enabled(s, a) && s' == Apply(s, a) && topic in s'.table
    ensures || (topic in s.table && s.table[topic] == s'.table[topic])
            || (a.UpdateCache? && s.acts[a.i].topic == topic
                && ReplyOf(s.acts[a.i]) == Some(Reply(false, s'.table[topic])))
  {}

  /** What an activity carries it carried before, has just been told, or reads from the cache under its topic. */
  lemma ReplyOrigin(s: State, a: Action, s': State, i: nat)
    requires Enabled(s, a) && s' == Apply(s, a) && At(s', i) && ReplyOf(s'.acts[i]).Some?
    ensures At(s, i) && s.acts[i].topic == s'.acts[i].topic
    ensures var topic, r := s.acts[i].topic, ReplyOf(s'.acts[i]).value;
            || ReplyOf(s.acts[i]) == Some(r)
            || (a.Complete? && a.i == i && r == Relayed(a.reply))
            || (topic in s.table && r == Reply(false, s.table[topic]))
  {}

  /** A new delivery hands out what the acting activity carries, under the topic of that activity. */
  lemma DeliveryOrigin(s: State, a: Action, s': State, m: nat)
    requires Enabled(s, a) && s' == Apply(s, a) && m < |s'.log|
    ensures || (m < |s.log| && s.log[m] == s'.log[m])
            || ((a.RunOwn? || a.RunNext?) && s'.log[m].topic == s.acts[a.i].topic
                && ReplyOf(s.acts[a.i]) == Some(s'.log[m].reply))
  {}

  /** Every cached route is the outcome of a completed query for its own topic. */
  lemma {:induction false} CacheHoldsAnswers(states: seq<State>, actions: seq<Action>, k: nat, topic: string)
    requires Execution(states, actions) && k < |states| && topic in states[k].table
    ensures Answered(states, actions, k, topic, Reply(false, states[k].table[topic]))
    decreases k
  {
    assert k > 0;
    var s, a := states[k - 1], actions[k - 1];
    TableOrigin(s, a, states[k], topic);
    if topic in s.table && s.table[topic] == states[k].table[topic] {
      CacheHoldsAnswers(states, actions, k - 1, topic);
    } else {
      RepliesAreAnswers(states, actions, k - 1, a.i);
    }
  }

  /** So is every answer on its way to callbacks. */
  lemma {:induction false} RepliesAreAnswers(states: seq<State>, actions: seq<Action>, k: nat, i: nat)
    requires Execution(states, actions) && k < |states| && At(states[k], i)
    requires ReplyOf(states[k].acts[i]).Some?
    ensures Answered(states, actions, k, states[k].acts[i].topic, ReplyOf(states[k].acts[i]).value)
    decreases k
  {
    assert k > 0;
    var s, a := states[k - 1], actions[k - 1];
    ReplyOrigin(s, a, states[k], i);
    if ReplyOf(s.acts[i]) == ReplyOf(states[k].acts[i]) {
      RepliesAreAnswers(states, actions, k - 1, i);
    } else if !(a.Complete? && a.i == i) {
      CacheHoldsAnswers(states, actions, k - 1, s.acts[i].topic);
    }
  }

  /** Every callback, run from the cache or from a completion, gets the outcome of a query for its own topic. */
  lemma DeliveriesAreAnswers(states: seq<State>, actions: seq<Action>, k: nat, m: nat)
    requires Execution(states, actions) && k < |states| && m < |states[k].log|
    ensures Answered(states, actions, k, states[k].log[m].topic, states[k].log[m].reply)
    ensures At(states[k], states[k].log[m].call)
    ensures states[k].acts[states[k].log[m].call].topic == states[k].log[m].topic
  {
    InvAlways(states, actions, k);
    assert HandedOver(states[k], states[k].log[m].topic, states[k].log[m].call);
    DeliveryAnswered(states, actions, k, m);
  }

  lemma {:induction false} DeliveryAnswered(states: seq<State>, actions: seq<Action>, k: nat, m: nat)
    requires Execution(states, actions) && k < |states| && m < |states[k].log|
    ensures Answered(states, actions, k, states[k].log[m].topic, states[k].log[m].reply)
  {
    assert k > 0;
    var s, a := states[k - 1], actions[k - 1];
    DeliveryOrigin(s, a, states[k], m);
    if m < |s.log| && s.log[m] == states[k].log[m] {
      DeliveryAnswered(states, actions, k - 1, m);
    } else {
      RepliesAreAnswers(states, actions, k - 1, a.i);
    }
  }

  // ---- The critical sections as the client runs them ----

  class RouteTables {
    var topicRouteTable: map<string, RoutePtr>
    var inflightRouteRequests: map<string, seq<nat>>

    constructor ()
      ensures topicRouteTable == Init.table && inflightRouteRequests == Init.inflight
    {
      topicRouteTable, inflightRouteRequests := map[], map[];
    }

    /** First section of getRouteFor. */
    method LookUpRoute(topic: string) returns (route: RoutePtr)
      ensures route == if Look(topicRouteTable, topic).Some? then topicRouteTable[topic] else Null
    {
      route := Null;
      if topic in topicRouteTable {
        route := topicRouteTable[topic];
      }
    }

    /** The inflight section of getRouteFor, after the second look saw `seen`. */
    method JoinInflight(topic: string, cb: nat, seen: Option<RoutePtr>) returns (queryBackend: bool)
      modifies this`inflightRouteRequests
      ensures queryBackend == (seen.None? && Joined(old(inflightRouteRequests), topic, cb).1)
      ensures inflightRouteRequests ==
              if seen.None? then Joined(old(inflightRouteRequests), topic, cb).0 else old(inflightRouteRequests)
    {
      if seen.Some? {
        return false;
      }
      if topic in inflightRouteRequests {
        inflightRouteRequests := inflightRouteRequests[topic := inflightRouteRequests[topic] + [cb]];
        return false;
      }
      inflightRouteRequests := inflightRouteRequests[topic := [cb]];
      queryBackend := true;
    }

    method UpdateRouteCache(topic: string, failed: bool, route: RoutePtr)
      requires topic in topicRouteTable ==> topicRouteTable[topic].Ptr?
      modifies this`topicRouteTable
      ensures topicRouteTable == Updated(old(topicRouteTable), topic, Reply(failed, route))
      ensures Refreshes(old(topicRouteTable), topicRouteTable, topic, Reply(failed, route))
    {
      if failed || route.Null? || route.partitions == [] {
        return;
      }
      if topic !in topicRouteTable {
        topicRouteTable := topicRouteTable[topic := route];
      } else {
        var cached := topicRouteTable[topic];
        if !RouteEq(cached.partitions, route.partitions) {
          topicRouteTable := topicRouteTable[topic := route];
        }
      }
    }

    /**
     * The section of onTopicRouteReady that completing activity `i` runs in state `s`. The assertion there holds, and
     * the callbacks taken are those of distinct calls for its topic, its own among them.
     */
    method TakePendingRequests(topic: string, ghost s: State, ghost i: nat) returns (pending: seq<nat>)
      requires Inv(s) && Enabled(s, TakePending(i)) && topic == s.acts[i].topic
      requires inflightRouteRequests == s.inflight
      modifies this`inflightRouteRequests
      ensures var s' := Apply(s, TakePending(i));
              inflightRouteRequests == s'.inflight && s'.acts[i].pc == Applying(pending, s.acts[i].pc.reply)
      ensures i in pending && NoDup(pending) && forall c :: c in pending ==> HandedOver(s, topic, c)
      ensures topic !in inflightRouteRequests
    {
      assert Owner(s.acts[i]);
      assert topic in inflightRouteRequests;
      pending := inflightRouteRequests[topic];
      inflightRouteRequests := inflightRouteRequests - {topic};
    }
  }
}
