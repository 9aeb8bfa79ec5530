/** Sending with retries: ProducerImpl::send0, ProducerImpl::sendImpl and RetrySendCallback. */
module SendRetry {
  import opened Base
  import opened RouteData
  import PublishInfo

  datatype Error = BadRequest | NotFound | BadConfiguration | BadGateway | Remote(code: int)

  /** Invocations of the user's callback. */
  datatype UserCall = OnSuccess(queue: MessageQueue) | OnFailure(error: Error)

  datatype Outcome = Delivered | Failed(error: Error)

  /** One attempt: the queue it went to, and how it ended if it has. */
  datatype Attempt = Attempt(queue: MessageQueue, outcome: Option<Outcome>)

  datatype Session = Session(
    candidates: seq<MessageQueue>,
    maxAttempts: int,
    attemptTimes: nat,
    attempts: seq<Attempt>,
    calls: seq<UserCall>)

  /** Whether the producer is still there when attempt `k` fails. */
  type Liveness = nat -> bool

  function Target(s: Session): MessageQueue
    requires s.candidates != []
  {
    s.candidates[s.attemptTimes % |s.candidates|]
  }

  /** Records how the running attempt ended. */
  function Ended(s: Session, o: Outcome): Session
    requires s.attempts != []
  {
    s.(attempts := s.attempts[..|s.attempts| - 1] + [s.attempts[|s.attempts| - 1].(outcome := Some(o))])
  }

  /** sendImpl: an unresolved address counts as a failed attempt and is retried at once. */
  function SendImpl(s: Session, live: Liveness): (r: Session)
    requires s.candidates != []
    ensures r.candidates == s.candidates && r.maxAttempts == s.maxAttempts
    decreases s.maxAttempts - s.attemptTimes, 1
  {
    var tried := s.(attempts := s.attempts + [Attempt(Target(s), None)]);
    if Target(s).serviceAddress == "" then Fail(tried, BadGateway, live) else tried
  }

  /** RetrySendCallback::onFailure. */
  function Fail(s: Session, error: Error, live: Liveness): (r: Session)
    requires s.candidates != [] && s.attempts != []
    ensures r.candidates == s.candidates && r.maxAttempts == s.maxAttempts
    decreases s.maxAttempts - s.attemptTimes, 0
  {
    var next := Ended(s, Failed(error)).(attemptTimes := s.attemptTimes + 1);
    if next.attemptTimes >= s.maxAttempts || !live(s.attemptTimes) then next.(calls := next.calls + [OnFailure(error)])
    else SendImpl(next, live)
  }

  /** RetrySendCallback::onSuccess. */
  function Succeed(s: Session): Session
    requires s.candidates != [] && s.attempts != []
  {
    Ended(s, Delivered).(calls := s.calls + [OnSuccess(Target(s))])
  }

  function Begin(list: seq<MessageQueue>, maxAttempts: int, live: Liveness): Session
    requires list != []
  {
    SendImpl(Session(list, maxAttempts, 0, [], []), live)
  }

  function Send0(valid: bool, list: seq<MessageQueue>, maxAttempts: int, live: Liveness): Session {
    var rejected := Session(list, maxAttempts, 0, [], []);
    if !valid then rejected.(calls := [OnFailure(BadRequest)])
    else if list == [] then rejected.(calls := [OnFailure(NotFound)])
    else if maxAttempts <= 0 then rejected.(calls := [OnFailure(BadConfiguration)])
    else Begin(list, maxAttempts, live)
  }

  /** A request is out and not answered. */
  predicate Waiting(s: Session) {
    s.attempts != [] && s.attempts[|s.attempts| - 1].outcome.None?
  }

  /** One RPC completion; after the last attempt has ended there is none left to complete. */
  function Completed(s: Session, o: Outcome, live: Liveness): Session
    requires s.candidates != []
  {
    if !Waiting(s) then s
    else if o.Delivered? then Succeed(s) else Fail(s, o.error, live)
  }

  /** The session after the given completions. */
  function Driven(s: Session, completions: seq<Outcome>, live: Liveness): (r: Session)
    requires s.candidates != []
    ensures r.candidates == s.candidates && r.maxAttempts == s.maxAttempts
    decreases |completions|
  {
    if completions == [] then s
    else
      var before := Driven(s, completions[..|completions| - 1], live);
      Completed(before, completions[|completions| - 1], live)
  }

  // ---- What every session looks like ----

  /** Attempts go round robin over the candidates; all but the last have failed. */
  ghost predicate RoundRobin(s: Session) {
    && s.candidates != []
    && (forall k :: 0 <= k < |s.attempts| ==> s.attempts[k].queue == s.candidates[k % |s.candidates|])
    && (forall k :: 0 <= k < |s.attempts| - 1 ==> s.attempts[k].outcome.Some? && s.attempts[k].outcome.value.Failed?)
  }

  /** An attempt is running. */
  ghost predicate Running(s: Session) {
    RoundRobin(s) && Waiting(s) && s.calls == [] && |s.attempts| == s.attemptTimes + 1 <= s.maxAttempts
  }

  /** The user's callback has been called, once, with how the last attempt ended. */
  ghost predicate Finished(s: Session, live: Liveness) {
    && RoundRobin(s) && 0 < |s.attempts| <= s.maxAttempts && |s.calls| == 1
    && var last := s.attempts[|s.attempts| - 1];
       last.outcome.Some? &&
       match last.outcome.value
       case Delivered => s.calls[0] == OnSuccess(last.queue)
       case Failed(e) => s.calls[0] == OnFailure(e) && (|s.attempts| == s.maxAttempts || !live(|s.attempts| - 1))
  }

  ghost predicate Inv(s: Session, live: Liveness) {
    Running(s) || Finished(s, live)
  }

  lemma {:induction false} SendStep(s: Session, live: Liveness)
    requires RoundRobin(s) && s.calls == [] && |s.attempts| == s.attemptTimes < s.maxAttempts
    requires forall k :: 0 <= k < |s.attempts| ==> s.attempts[k].outcome.Some? && s.attempts[k].outcome.value.Failed?
    ensures Inv(SendImpl(s, live), live) && |SendImpl(s, live).attempts| > |s.attempts|
    decreases s.maxAttempts - s.attemptTimes, 1
  {
    var tried := s.(attempts := s.attempts + [Attempt(Target(s), None)]);
    assert Running(tried);
    if Target(s).serviceAddress == "" {
      FailStep(tried, BadGateway, live);
    }
  }

  lemma {:induction false} FailStep(s: Session, error: Error, live: Liveness)
    requires Running(s)
    ensures var r := Fail(s, error, live);
            Inv(r, live) && |r.attempts| >= |s.attempts| && (Running(r) ==> |r.attempts| > |s.attempts|)
    decreases s.maxAttempts - s.attemptTimes, 0
  {
    var next := Ended(s, Failed(error)).(attemptTimes := s.attemptTimes + 1);
    assert RoundRobin(next);
    if !(next.attemptTimes >= s.maxAttempts || !live(s.attemptTimes)) {
      SendStep(next, live);
    }
  }

  lemma CompleteStep(s: Session, o: Outcome, live: Liveness)
    requires Inv(s, live)
    ensures var r := Completed(s, o, live);
            Inv(r, live) && |r.attempts| >= |s.attempts| && (Running(r) ==> |r.attempts| > |s.attempts|)
  {
    if Waiting(s) && o.Failed? {
      FailStep(s, o.error, live);
    }
  }

  lemma {:induction false} DrivenInv(list: seq<MessageQueue>, maxAttempts: int, completions: seq<Outcome>,
                                     live: Liveness)
    requires list != [] && maxAttempts > 0
    ensures var s := Driven(Begin(list, maxAttempts, live), completions, live);
            && s.candidates == list && s.maxAttempts == maxAttempts && Inv(s, live)
            && (Running(s) ==> |s.attempts| > |completions|)
  {
    var start := Session(list, maxAttempts, 0, [], []);
    if completions == [] {
      SendStep(start, live);
    } else {
      var front := completions[..|completions| - 1];
      DrivenInv(list, maxAttempts, front, live);
      CompleteStep(Driven(Begin(list, maxAttempts, live), front, live), completions[|completions| - 1], live);
    }
  }

  /**
   * Retries. For every candidate list, limit, liveness of the producer and sequence of RPC completions: at most
   * `maxAttempts` attempts are made, attempt `k` goes to candidate `k` modulo their number, all but the last failed,
   * and the user's callback has been called once, as the last attempt ended, or not at all while a request is out.
   */
  lemma SendIsBounded(list: seq<MessageQueue>, maxAttempts: int, completions: seq<Outcome>, live: Liveness)
    requires list != [] && maxAttempts > 0
    ensures var s := Driven(Begin(list, maxAttempts, live), completions, live);
            && 1 <= |s.attempts| <= maxAttempts
            && (forall k :: 0 <= k < |s.attempts| ==> s.attempts[k].queue == list[k % |list|])
            && (if Waiting(s) then s.calls == [] else Finished(s, live))
  {
    DrivenInv(list, maxAttempts, completions, live);
  }

  /** If completions keep arriving the user is told, at the latest by the `maxAttempts`-th of them. */
  lemma SendFinishes(list: seq<MessageQueue>, maxAttempts: int, completions: seq<Outcome>, live: Liveness)
    requires list != [] && maxAttempts > 0 && |completions| >= maxAttempts
    ensures Finished(Driven(Begin(list, maxAttempts, live), completions, live), live)
  {
    DrivenInv(list, maxAttempts, completions, live);
  }

  // ---- Where the outcomes come from ----

  /** What came back from the attempts that had an address to go to, in order. */
  function Reports(attempts: seq<Attempt>): seq<Outcome> {
    if attempts == [] then []
    else
      var before, last := Reports(attempts[..|attempts| - 1]), attempts[|attempts| - 1];
      if last.queue.serviceAddress != "" && last.outcome.Some? then before + [last.outcome.value] else before
  }

  lemma ReportsGrow(attempts: seq<Attempt>, a: Attempt)
    ensures Reports(attempts + [a]) ==
            Reports(attempts) + if a.queue.serviceAddress != "" && a.outcome.Some? then [a.outcome.value] else []
  {
    assert (attempts + [a])[..|attempts|] == attempts;
  }

  /** An attempt without an address ended with the bad-gateway error. */
  ghost predicate Gateway(attempts: seq<Attempt>) {
    forall k :: 0 <= k < |attempts| && attempts[k].queue.serviceAddress == "" ==>
      attempts[k].outcome == Some(Failed(BadGateway))
  }

  lemma {:induction false} SendReports(s: Session, live: Liveness)
    requires s.candidates != [] && Gateway(s.attempts)
    ensures var r := SendImpl(s, live); Gateway(r.attempts) && Reports(r.attempts) == Reports(s.attempts)
    decreases s.maxAttempts - s.attemptTimes, 1
  {
    var a := Attempt(Target(s), None);
    var tried := s.(attempts := s.attempts + [a]);
    ReportsGrow(s.attempts, a);
    if a.queue.serviceAddress == "" {
      FailReports(tried, s.attempts, a, BadGateway, live);
    }
  }

  /** The end of the running attempt is reported as it came back. */
  lemma {:induction false} FailReports(s: Session, before: seq<Attempt>, a: Attempt, error: Error, live: Liveness)
    requires s.candidates != [] && s.attempts == before + [a] && Gateway(before)
    requires a.queue.serviceAddress == "" ==> error == BadGateway
    ensures var r := Fail(s, error, live);
            && Gateway(r.attempts)
            && Reports(r.attempts) ==
               Reports(before) + if a.queue.serviceAddress != "" then [Failed(error)] else []
    decreases s.maxAttempts - s.attemptTimes, 0
  {
    var next := Ended(s, Failed(error)).(attemptTimes := s.attemptTimes + 1);
    assert next.attempts == before + [a.(outcome := Some(Failed(error)))];
    ReportsGrow(before, a.(outcome := Some(Failed(error))));
    if !(next.attemptTimes >= s.maxAttempts || !live(s.attemptTimes)) {
      SendReports(next, live);
    }
  }

  lemma CompletedReports(s: Session, o: Outcome, live: Liveness)
    requires s.candidates != [] && Gateway(s.attempts) && Waiting(s)
    ensures var r := Completed(s, o, live); Gateway(r.attempts) && Reports(r.attempts) == Reports(s.attempts) + [o]
  {
    var before, a := s.attempts[..|s.attempts| - 1], s.attempts[|s.attempts| - 1];
    assert s.attempts == before + [a];
    ReportsGrow(before, a);
    if o.Delivered? {
      ReportsGrow(before, a.(outcome := Some(o)));
    } else {
      FailReports(s, before, a, o.error, live);
    }
  }

  /**
   * An attempt for a queue without an address ends at once with the bad-gateway error; the others end with the RPC
   * completions, in their order, until the user has been told.
   */
  lemma {:induction false} AttemptsEndAsReported(list: seq<MessageQueue>, maxAttempts: int, completions: seq<Outcome>,
                                                 live: Liveness)
    requires list != [] && maxAttempts > 0
    ensures var s := Driven(Begin(list, maxAttempts, live), completions, live);
            && (forall k :: 0 <= k < |s.attempts| && s.attempts[k].queue.serviceAddress == "" ==>
                  s.attempts[k].outcome == Some(Failed(BadGateway)))
            && Reports(s.attempts) <= completions && (Waiting(s) ==> Reports(s.attempts) == completions)
  {
    if completions == [] {
      SendReports(Session(list, maxAttempts, 0, [], []), live);
    } else {
      var front, o := completions[..|completions| - 1], completions[|completions| - 1];
      AttemptsEndAsReported(list, maxAttempts, front, live);
      var before := Driven(Begin(list, maxAttempts, live), front, live);
      assert Gateway(before.attempts) && completions == front + [o];
      if Waiting(before) {
        CompletedReports(before, o, live);
      }
    }
  }

  /** A send that send0 rejects makes no attempt and tells the user why, in the order of its checks. */
  lemma Send0Rejects(valid: bool, list: seq<MessageQueue>, maxAttempts: int, live: Liveness)
    ensures var s := Send0(valid, list, maxAttempts, live);
            s.attempts == [] <==> !valid || list == [] || maxAttempts <= 0
    ensures var s := Send0(valid, list, maxAttempts, live);
            s.attempts == [] ==>
              && |s.calls| == 1 && s.calls[0].OnFailure?
              && (s.calls[0].error == BadRequest <==> !valid)
              && (valid ==> (s.calls[0].error == NotFound <==> list == []))
              && (valid && list != [] ==> s.calls[0].error == BadConfiguration)
  {
    if valid && list != [] && maxAttempts > 0 {
      DrivenInv(list, maxAttempts, [], live);
    }
  }

  /** Every attempt of a keyed send goes to the queue of its group: the candidate list has one element. */
  lemma GroupSendIsSticky(hash: nat, list: seq<MessageQueue>, maxAttempts: int, completions: seq<Outcome>,
                          live: Liveness)
    requires list != [] && maxAttempts > 0
    ensures var q := PublishInfo.GroupQueue(hash, list);
            var s := Driven(Begin([q], maxAttempts, live), completions, live);
            && (forall k :: 0 <= k < |s.attempts| ==> s.attempts[k].queue == q)
            && (forall k :: 0 <= k < |s.calls| && s.calls[k].OnSuccess? ==> s.calls[k].queue == q)
  {
    DrivenInv([PublishInfo.GroupQueue(hash, list)], maxAttempts, completions, live);
  }

  // ---- The callback object ----

  class RetrySendCallback {
    const candidates: seq<MessageQueue>
    const maxAttemptTimes: int
    var attemptTimes: nat
    var attempts: seq<Attempt>
    var calls: seq<UserCall>

    constructor (maxAttemptTimes: int, candidates: seq<MessageQueue>)
      ensures Value() == Session(candidates, maxAttemptTimes, 0, [], [])
    {
      this.maxAttemptTimes, this.candidates := maxAttemptTimes, candidates;
      attemptTimes, attempts, calls := 0, [], [];
    }

    function Value(): Session
      reads this
    {
      Session(candidates, maxAttemptTimes, attemptTimes, attempts, calls)
    }

    method RunSendImpl(live: Liveness)
      requires candidates != []
      modifies this`attemptTimes, this`attempts, this`calls
      ensures Value() == SendImpl(old(Value()), live)
      decreases maxAttemptTimes - attemptTimes, 1
    {
      var target := candidates[attemptTimes % |candidates|];
      attempts := attempts + [Attempt(target, None)];
      if target.serviceAddress == "" {
        RunOnFailure(BadGateway, live);
      }
    }

    method RunOnFailure(error: Error, live: Liveness)
      requires candidates != [] && attempts != []
      modifies this`attemptTimes, this`attempts, this`calls
      ensures Value() == Fail(old(Value()), error, live)
      decreases maxAttemptTimes - attemptTimes, 0
    {
      var failed := attemptTimes;
      attempts := attempts[..|attempts| - 1] + [attempts[|attempts| - 1].(outcome := Some(Failed(error)))];
      attemptTimes := attemptTimes + 1;
      if attemptTimes >= maxAttemptTimes {
        calls := calls + [OnFailure(error)];
        return;
      }
      if !live(failed) {
        calls := calls + [OnFailure(error)];
        return;
      }
      RunSendImpl(live);
    }

    method RunOnSuccess()
      requires candidates != [] && attempts != []
      modifies this`attempts, this`calls
      ensures Value() == Succeed(old(Value()))
    {
      attempts := attempts[..|attempts| - 1] + [attempts[|attempts| - 1].(outcome := Some(Delivered))];
      calls := calls + [OnSuccess(candidates[attemptTimes % |candidates|])];
    }
  }
}
