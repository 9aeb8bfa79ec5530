/** When a process queue expires: ProcessQueueImpl::expired() against the timing of the receive cycle. */
module CycleTiming {
  import opened Base
  import opened ProcessQueues
  import opened Pipeline

  /** How long after the idle clock was last set a cycle past its first receive may still be in this phase. */
  function Allowed(cfg: Config, phase: Phase): nat {
    match phase
    case Outstanding => ReceiveTimeout(cfg)
    case Later => ReceiveTimeout(cfg) + RETRY_DELAY
    case Issue => ReceiveTimeout(cfg) + RETRY_DELAY + cfg.slack
    case Check => ReceiveTimeout(cfg) + RETRY_DELAY + cfg.slack
    case CheckMemory => ReceiveTimeout(cfg) + RETRY_DELAY + cfg.slack
    case Query => ReceiveTimeout(cfg) + RETRY_DELAY + cfg.slack + cfg.ioTimeout
    case _ => ReceiveTimeout(cfg) + cfg.slack
  }

  /**
   * Whether a cycle that has received before can come to ask for an offset: in broadcasting mode, if a broker makes the
   * offset negative again; a zero quantity threshold stops the cycle before it asks.
   */
  predicate AsksAgain(cfg: Config) {
    cfg.broadcasting && cfg.negativeOffsets && cfg.quantityThreshold > 0
  }

  /** The longest time a live cycle can leave the idle clock alone. */
  function LongestGap(cfg: Config): nat {
    ReceiveTimeout(cfg) + RETRY_DELAY + cfg.slack + if AsksAgain(cfg) then cfg.ioTimeout else 0
  }

  /** Without negative offsets from brokers, a cycle that has received once has a known offset from then on. */
  predicate OffsetKnown(cfg: Config, s: State) {
    cfg.broadcasting && !cfg.negativeOffsets ==> s.offset >= 0
  }

  /** A cycle that has not received yet is issuing its first receive or asking for its first offset. */
  predicate Starting(cfg: Config, s: State, c: Cycle) {
    && (c.phase.Issue? || c.phase.Query?)
    && (c.stage.Fresh? ==> c.due <= s.idleSince + cfg.slack + if c.phase.Query? then cfg.ioTimeout else 0)
  }

  predicate Receiving(cfg: Config, s: State, c: Cycle) {
    && OffsetKnown(cfg, s)
    && c.due <= s.idleSince + Allowed(cfg, c.phase)
    && (c.phase.Issue? || c.phase.CheckMemory? ==> cfg.quantityThreshold > 0)
    && (c.phase.Query? ==> AsksAgain(cfg))
  }

  predicate OnTime(cfg: Config, s: State, c: Cycle) {
    !c.phase.Dead? ==>
      s.now <= c.due && if c.stage.Going? then Receiving(cfg, s, c) else Starting(cfg, s, c)
  }

  ghost predicate Timely(cfg: Config, s: State) {
    && s.idleSince <= s.now
    && forall i :: 0 <= i < |s.cycles| ==> OnTime(cfg, s, s.cycles[i])
  }

  lemma OwnTimely(cfg: Config, s: State, i: nat, what: CycleAction)
    requires i < |s.cycles| && CycleEnabled(cfg, s, s.cycles[i].phase, what)
    requires s.idleSince <= s.now && OnTime(cfg, s, s.cycles[i])
    ensures var s' := CycleApply(cfg, s, i, what);
            && s'.now == s.now && s.idleSince <= s'.idleSince <= s.now
            && (OffsetKnown(cfg, s) ==> OffsetKnown(cfg, s'))
            && |s'.cycles| == |s.cycles| && s'.cycles == s.cycles[i := s'.cycles[i]]
            && OnTime(cfg, s', s'.cycles[i])
  {
    if what.DoIssue? || what.Answer? || what.Receive? || what.ReceiveError? {
      RequestTimely(cfg, s, i, what);
    } else {
      LocalTimely(cfg, s, i, what);
    }
  }

  /** Sending and completing requests. */
  lemma RequestTimely(cfg: Config, s: State, i: nat, what: CycleAction)
    requires i < |s.cycles| && CycleEnabled(cfg, s, s.cycles[i].phase, what)
    requires s.idleSince <= s.now && OnTime(cfg, s, s.cycles[i])
    requires what.DoIssue? || what.Answer? || what.Receive? || what.ReceiveError?
    ensures var s' := CycleApply(cfg, s, i, what);
            && s'.now == s.now && s.idleSince <= s'.idleSince <= s.now
            && (OffsetKnown(cfg, s) ==> OffsetKnown(cfg, s'))
            && |s'.cycles| == |s.cycles| && s'.cycles == s.cycles[i := s'.cycles[i]]
            && OnTime(cfg, s', s'.cycles[i])
  {}

  /** Everything the cycle does in between. */
  lemma LocalTimely(cfg: Config, s: State, i: nat, what: CycleAction)
    requires i < |s.cycles| && CycleEnabled(cfg, s, s.cycles[i].phase, what)
    requires s.idleSince <= s.now && OnTime(cfg, s, s.cycles[i])
    requires !what.DoIssue? && !what.Answer? && !what.Receive? && !what.ReceiveError?
    ensures var s' := CycleApply(cfg, s, i, what);
            && s'.now == s.now && s.idleSince <= s'.idleSince <= s.now && s'.offset == s.offset
            && |s'.cycles| == |s.cycles| && s'.cycles == s.cycles[i := s'.cycles[i]]
            && OnTime(cfg, s', s'.cycles[i])
  {}

  lemma CycleTimely(cfg: Config, s: State, i: nat, what: CycleAction)
    requires Timely(cfg, s) && i < |s.cycles| && CycleEnabled(cfg, s, s.cycles[i].phase, what)
    ensures Timely(cfg, CycleApply(cfg, s, i, what))
  {
    OwnTimely(cfg, s, i, what);
    OthersTimely(cfg, s, CycleApply(cfg, s, i, what), i);
  }

  lemma OthersTimely(cfg: Config, s: State, s': State, i: nat)
    requires Timely(cfg, s) && i < |s.cycles| == |s'.cycles| && s'.cycles == s.cycles[i := s'.cycles[i]]
    requires s'.now == s.now && s.idleSince <= s'.idleSince <= s.now && OnTime(cfg, s', s'.cycles[i])
    requires OffsetKnown(cfg, s) ==> OffsetKnown(cfg, s')
    ensures Timely(cfg, s')
  {
    forall j | 0 <= j < |s'.cycles| ensures OnTime(cfg, s', s'.cycles[j]) {
      if j != i {
        assert OnTime(cfg, s, s.cycles[j]);
      }
    }
  }

  lemma SameTimely(cfg: Config, s: State, s': State)
    requires Timely(cfg, s)
    requires s'.cycles == s.cycles && s'.now == s.now && s'.idleSince == s.idleSince && s'.offset == s.offset
    ensures Timely(cfg, s')
  {
    forall j | 0 <= j < |s'.cycles| ensures OnTime(cfg, s', s'.cycles[j]) {
      assert OnTime(cfg, s, s.cycles[j]);
    }
  }

  lemma TimelyStep(cfg: Config, s: State, a: Action)
    requires Timely(cfg, s) && Enabled(cfg, s, a)
    ensures Timely(cfg, Apply(cfg, s, a))
  {
    var s' := Apply(cfg, s, a);
    match a {
      case OnCycle(i, what) => CycleTimely(cfg, s, i, what);
      case Tick(_) =>
        forall j | 0 <= j < |s'.cycles| ensures OnTime(cfg, s', s'.cycles[j]) {
          assert OnTime(cfg, s, s.cycles[j]);
        }
      case Start =>
        forall j | 0 <= j < |s'.cycles| ensures OnTime(cfg, s', s'.cycles[j]) {
          if j < |s.cycles| {
            assert OnTime(cfg, s, s.cycles[j]);
          }
        }
      case _ =>
        assert s'.cycles == s.cycles && s'.now == s.now && s'.idleSince == s.idleSince && s'.offset == s.offset;
        SameTimely(cfg, s, s');
    }
  }

  lemma {:induction false} TimelyAlways(cfg: Config, states: seq<State>, actions: seq<Action>, k: nat)
    requires Execution(cfg, states, actions) && k < |states|
    ensures Timely(cfg, states[k])
  {
    if k > 0 {
      TimelyAlways(cfg, states, actions, k - 1);
      TimelyStep(cfg, states[k - 1], actions[k - 1]);
    }
  }

  /** The cycle is going, and not one that was started later and has not received yet. */
  predicate Counts(c: Cycle) {
    !c.phase.Dead? && !c.stage.Late?
  }

  /** Some cycle keeps the queue alive, from its creation on. */
  ghost predicate Live(s: State) {
    exists i :: 0 <= i < |s.cycles| && Counts(s.cycles[i])
  }

  /** The idle clock of a live queue is never older than the longest gap. */
  lemma LiveGap(cfg: Config, states: seq<State>, actions: seq<Action>, k: nat)
    requires Execution(cfg, states, actions) && k < |states| && Live(states[k])
    ensures states[k].now - states[k].idleSince <= LongestGap(cfg)
  {
    TimelyAlways(cfg, states, actions, k);
    var s := states[k];
    var i :| 0 <= i < |s.cycles| && Counts(s.cycles[i]);
    assert OnTime(cfg, s, s.cycles[i]);
  }

  ghost predicate LiveNeverExpires(cfg: Config) {
    forall states: seq<State>, actions: seq<Action>, k: nat ::
      Execution(cfg, states, actions) && k < |states| && Live(states[k]) ==>
        !Expired(states[k].now, states[k].idleSince)
  }

  // ---- The gap is attained ----

  /** A start is prompt if the idle clock has just been set, as it has when the queue was made for it. */
  predicate Prompt(s: State, a: Action) {
    a.Start? ==> s.now == s.idleSince
  }

  ghost predicate AllPrompt(states: seq<State>, actions: seq<Action>)
    requires |states| == |actions| + 1
  {
    forall k :: 0 <= k < |actions| ==> Prompt(states[k], actions[k])
  }

  lemma Extend(cfg: Config, states: seq<State>, actions: seq<Action>, a: Action)
    requires Execution(cfg, states, actions) && Enabled(cfg, states[|actions|], a)
    ensures Execution(cfg, states + [Apply(cfg, states[|actions|], a)], actions + [a])
  {
    var states', actions' := states + [Apply(cfg, states[|actions|], a)], actions + [a];
    forall k | 0 <= k < |actions'|
      ensures Enabled(cfg, states'[k], actions'[k]) && states'[k + 1] == Apply(cfg, states'[k], actions'[k])
    {
      if k < |actions| {
        assert states'[k] == states[k] && states'[k + 1] == states[k + 1] && actions'[k] == actions[k];
      }
    }
  }

  lemma Perform(cfg: Config, states: seq<State>, actions: seq<Action>, a: Action)
    returns (states': seq<State>, actions': seq<Action>)
    requires Execution(cfg, states, actions) && Enabled(cfg, states[|actions|], a)
    ensures Execution(cfg, states', actions') && actions' == actions + [a]
    ensures states'[|actions'|] == Apply(cfg, states[|actions|], a)
    ensures AllPrompt(states, actions) && Prompt(states[|actions|], a) ==> AllPrompt(states', actions')
  {
    Extend(cfg, states, actions, a);
    states', actions' := states + [Apply(cfg, states[|actions|], a)], actions + [a];
  }

  /** The queue just created, with its cycle in this phase; a broadcasting queue has been told offset 0. */
  function Alone(now: nat, phase: Phase, offset: int): State {
    Init(0).(now := now, offset := offset, cycles := [Cycle(phase, now, Going)])
  }

  function Known(cfg: Config, offset: int): int {
    if cfg.broadcasting then offset else -1
  }

  /** A run whose only receive is about to time out; a broadcasting queue first asks for its offset. */
  lemma SlowReceive(cfg: Config) returns (states: seq<State>, actions: seq<Action>)
    ensures Execution(cfg, states, actions) && AllPrompt(states, actions)
    ensures states[|actions|] == Alone(ReceiveTimeout(cfg), Outstanding, Known(cfg, 0))
  {
    states, actions := [Init(0)], [];
    states, actions := Perform(cfg, states, actions, Start);
    states, actions := Perform(cfg, states, actions, OnCycle(0, DoIssue));
    if cfg.broadcasting {
      states, actions := Perform(cfg, states, actions, OnCycle(0, Answer(Some(0))));
    }
    states, actions := Perform(cfg, states, actions, Tick(ReceiveTimeout(cfg)));
  }

  /** It fails, and the retry is due. */
  lemma SlowError(cfg: Config, next: int) returns (states: seq<State>, actions: seq<Action>)
    requires cfg.negativeOffsets || next >= 0
    ensures Execution(cfg, states, actions) && AllPrompt(states, actions)
    ensures states[|actions|] == Alone(ReceiveTimeout(cfg) + RETRY_DELAY, Later, Known(cfg, next))
  {
    states, actions := SlowReceive(cfg);
    states, actions := Perform(cfg, states, actions, OnCycle(0, ReceiveError(next)));
    states, actions := Perform(cfg, states, actions, Tick(RETRY_DELAY));
  }

  /** The retry fires, and the cycle takes all its time before it checks the throttle. */
  lemma SlowestRetry(cfg: Config, next: int) returns (states: seq<State>, actions: seq<Action>)
    requires cfg.negativeOffsets || next >= 0
    ensures Execution(cfg, states, actions) && AllPrompt(states, actions)
    ensures states[|actions|] == Alone(ReceiveTimeout(cfg) + RETRY_DELAY + cfg.slack, Check, Known(cfg, next))
  {
    states, actions := SlowError(cfg, next);
    states, actions := Perform(cfg, states, actions, OnCycle(0, Fire));
    states, actions := Perform(cfg, states, actions, Tick(cfg.slack));
  }

  /** If the failed receive has made the offset negative, the cycle asks again and may wait for the io timeout. */
  lemma SlowestQuery(cfg: Config) returns (states: seq<State>, actions: seq<Action>)
    requires AsksAgain(cfg)
    ensures Execution(cfg, states, actions) && AllPrompt(states, actions)
    ensures states[|actions|] == Alone(LongestGap(cfg), Query, -1)
  {
    states, actions := SlowestRetry(cfg, -1);
    states, actions := Perform(cfg, states, actions, OnCycle(0, ReadQuantity));
    if cfg.memoryThreshold != 0 {
      states, actions := Perform(cfg, states, actions, OnCycle(0, ReadMemory));
    }
    states, actions := Perform(cfg, states, actions, OnCycle(0, DoIssue));
    states, actions := Perform(cfg, states, actions, Tick(cfg.ioTimeout));
  }

  /** The longest gap is attained by a live queue. */
  lemma GapAttained(cfg: Config) returns (states: seq<State>, actions: seq<Action>)
    ensures Execution(cfg, states, actions) && AllPrompt(states, actions)
    ensures var s := states[|actions|];
            Live(s) && s.now - s.idleSince == LongestGap(cfg)
  {
    if AsksAgain(cfg) {
      states, actions := SlowestQuery(cfg);
    } else {
      states, actions := SlowestRetry(cfg, 0);
    }
    assert Counts(states[|actions|].cycles[0]);
  }

  /**
   * A live queue never expires, in any run, exactly if the receive timeout, the retry delay and the processing slack
   * fit into the expiration threshold, together with the io timeout if brokers can make a broadcasting queue ask again.
   */
  lemma LiveNeverExpiresIff(cfg: Config)
    ensures LiveNeverExpires(cfg) <==>
            cfg.longPolling + cfg.ioTimeout + 1_000 + cfg.slack
            + (if cfg.broadcasting && cfg.negativeOffsets && cfg.quantityThreshold > 0 then cfg.ioTimeout else 0)
            <= 120_000
  {
    if LongestGap(cfg) <= EXPIRATION_THRESHOLD {
      forall states: seq<State>, actions: seq<Action>, k: nat
        | Execution(cfg, states, actions) && k < |states| && Live(states[k])
        ensures !Expired(states[k].now, states[k].idleSince)
      {
        LiveGap(cfg, states, actions, k);
      }
    } else {
      var states, actions := GapAttained(cfg);
      assert Expired(states[|actions|].now, states[|actions|].idleSince);
    }
  }

  /** While brokers send no negative offset, the io timeout of offset queries drops out, in either message model. */
  lemma KnownOffsetsNeverExpireIff(cfg: Config)
    requires !cfg.negativeOffsets
    ensures LiveNeverExpires(cfg) <==>
            cfg.longPolling + cfg.ioTimeout + 1_000 + cfg.slack <= 120_000
  {
    LiveNeverExpiresIff(cfg);
  }

  // ---- Cycles started on a queue whose clock is already running ----

  /** Some cycle of the queue has not died. */
  ghost predicate SomeCycle(s: State) {
    exists i :: 0 <= i < |s.cycles| && !s.cycles[i].phase.Dead?
  }

  /** In no run, with prompt starts only unless `late`, does a queue expire that has a cycle. */
  ghost predicate NeverExpires(cfg: Config, late: bool) {
    forall states: seq<State>, actions: seq<Action>, k: nat ::
      && Execution(cfg, states, actions) && (late || AllPrompt(states, actions))
      && k < |states| && SomeCycle(states[k]) ==>
        !Expired(states[k].now, states[k].idleSince)
  }

  ghost predicate NoneLate(s: State) {
    forall j :: 0 <= j < |s.cycles| ==> !s.cycles[j].stage.Late?
  }

  lemma PromptCycle(cfg: Config, s: State, i: nat, what: CycleAction)
    requires NoneLate(s) && i < |s.cycles| && CycleEnabled(cfg, s, s.cycles[i].phase, what)
    ensures NoneLate(CycleApply(cfg, s, i, what))
  {}

  lemma PromptStep(cfg: Config, s: State, a: Action, s': State)
    requires NoneLate(s) && Enabled(cfg, s, a) && Prompt(s, a) && s' == Apply(cfg, s, a)
    ensures NoneLate(s')
  {
    match a {
      case OnCycle(i, what) => PromptCycle(cfg, s, i, what);
      case Start =>
      case _ => assert s'.cycles == s.cycles;
    }
  }

  lemma {:induction false} PromptNeverLate(cfg: Config, states: seq<State>, actions: seq<Action>, k: nat)
    requires Execution(cfg, states, actions) && AllPrompt(states, actions) && k < |states|
    ensures NoneLate(states[k])
  {
    if k > 0 {
      PromptNeverLate(cfg, states, actions, k - 1);
      PromptStep(cfg, states[k - 1], actions[k - 1], states[k]);
    }
  }

  /** The failing run of a late start: the queue has been idle too long when the cycle is started on it. */
  lemma LateStartExpires(cfg: Config) returns (states: seq<State>, actions: seq<Action>)
    ensures Execution(cfg, states, actions) && actions == [Tick(EXPIRATION_THRESHOLD + 1), Start]
    ensures SomeCycle(states[2]) && Expired(states[2].now, states[2].idleSince)
  {
    states, actions := [Init(0)], [];
    states, actions := Perform(cfg, states, actions, Tick(EXPIRATION_THRESHOLD + 1));
    states, actions := Perform(cfg, states, actions, Start);
    assert !states[2].cycles[0].phase.Dead?;
  }

  /**
   * A queue with a cycle that has not died never expires, exactly if cycles are only started on queues whose clock has
   * just been set, and the longest gap fits into the expiration threshold.
   */
  lemma NeverExpiresIff(cfg: Config, late: bool)
    ensures NeverExpires(cfg, late) <==>
            && !late
            && cfg.longPolling + cfg.ioTimeout + 1_000 + cfg.slack
               + (if cfg.broadcasting && cfg.negativeOffsets && cfg.quantityThreshold > 0 then cfg.ioTimeout else 0)
               <= 120_000
  {
    if late {
      var states, actions := LateStartExpires(cfg);
    } else if LongestGap(cfg) <= EXPIRATION_THRESHOLD {
      forall states: seq<State>, actions: seq<Action>, k: nat
        | Execution(cfg, states, actions) && AllPrompt(states, actions) && k < |states| && SomeCycle(states[k])
        ensures !Expired(states[k].now, states[k].idleSince)
      {
        var i :| 0 <= i < |states[k].cycles| && !states[k].cycles[i].phase.Dead?;
        PromptNeverLate(cfg, states, actions, k);
        assert Counts(states[k].cycles[i]);
        LiveGap(cfg, states, actions, k);
      }
    } else {
      var states, actions := GapAttained(cfg);
      var s := states[|actions|];
      var i :| 0 <= i < |s.cycles| && Counts(s.cycles[i]);
      assert SomeCycle(s) && Expired(s.now, s.idleSince);
    }
  }

  // ---- And a queue whose cycles have died does expire ----

  ghost predicate AllDead(s: State) {
    forall i :: 0 <= i < |s.cycles| ==> s.cycles[i].phase.Dead?
  }

  /** Nothing but a new start sets the idle clock of a dead queue again. */
  lemma {:induction false} DeadStaysIdle(cfg: Config, states: seq<State>, actions: seq<Action>, k: nat, m: nat)
    requires Execution(cfg, states, actions) && k <= m < |states| && AllDead(states[k])
    requires forall j :: k <= j < m ==> !actions[j].Start?
    ensures AllDead(states[m]) && states[m].idleSince == states[k].idleSince
    ensures Expired(states[m].now, states[m].idleSince) <==> states[m].now > states[k].idleSince + EXPIRATION_THRESHOLD
    decreases m
  {
    if k < m {
      DeadStaysIdle(cfg, states, actions, k, m - 1);
      assert states[m] == Apply(cfg, states[m - 1], actions[m - 1]);
      assert !actions[m - 1].OnCycle?;
    }
  }
}
