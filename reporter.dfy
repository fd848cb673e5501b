/**
 * The reporting loop (src/lib.rs): a bounded queue of reports waiting to
 * be sent, and a retry state machine for reports whose send failed. The
 * async `select!` loop becomes two events on one object, "a report was
 * popped" and "the retry timer fired"; the outcome of each HTTP send and
 * the clock reading are parameters of the event.
 */
module Reporter {
  import opened Optional
  import opened Report

  /** Capacity of both the report queue and the failed-report queue. */
  const QueueCapacity := 256

  /** `RETRY_TIMEOUT`, in milliseconds. */
  const RetryTimeoutMs := 5000

  /** The delay used when a retry is already overdue. */
  const OverdueDelayMs := 10

  /** What the collector's endpoint did with one POST. */
  datatype SendOutcome = TransportError | Response(status: nat)

  /** `ReportErr`. */
  datatype ReportErr = Http | UnexpectedStatus(status: nat)

  datatype HandleResult = Sent | NotSent(error: ReportErr)

  /** `handle_report`, past the network: only a 2xx status is a success. */
  function HandleReport(outcome: SendOutcome): (r: HandleResult)
    ensures r.Sent? <==> outcome.Response? && 200 <= outcome.status <= 299
    ensures outcome.TransportError? ==> r == NotSent(Http)
    ensures outcome.Response? && r.NotSent? ==> r.error == UnexpectedStatus(outcome.status)
  {
    match outcome
    case TransportError => NotSent(Http)
    case Response(status) =>
      if 200 <= status <= 299 then Sent else NotSent(UnexpectedStatus(status))
  }

  function Succeeded(outcome: SendOutcome): bool {
    HandleReport(outcome).Sent?
  }

  /** `try_push` on a queue of `QueueCapacity`: appends, or drops when full. */
  function TryPush<T>(q: seq<T>, x: T): (r: seq<T>)
    ensures |q| < QueueCapacity ==> r == q + [x]
    ensures |q| >= QueueCapacity ==> r == q
  {
    if |q| < QueueCapacity then q + [x] else q
  }

  lemma TryPushBounded<T>(q: seq<T>, x: T)
    requires |q| <= QueueCapacity
    ensures |TryPush(q, x)| <= QueueCapacity
    ensures x in TryPush(q, x) <==> |q| < QueueCapacity || x in q
  {
  }

  /**
   * The delay before retrying a report last tried at `lastTry`: what is
   * left of `RETRY_TIMEOUT`, or `OverdueDelayMs` once it has run out.
   */
  function RetryDelay(now: int, lastTry: int): (d: nat)
    ensures d <= RetryTimeoutMs
    ensures ElapsedMillis(lastTry, now) <= RetryTimeoutMs ==> d == RetryTimeoutMs - ElapsedMillis(lastTry, now)
    ensures ElapsedMillis(lastTry, now) > RetryTimeoutMs ==> d == OverdueDelayMs
  {
    var elapsed := ElapsedMillis(lastTry, now);
    if elapsed <= RetryTimeoutMs then RetryTimeoutMs - elapsed else OverdueDelayMs
  }

  /**
   * A retry is never due earlier than `RETRY_TIMEOUT` after the last try,
   * and an overdue one is due `OverdueDelayMs` from now.
   */
  lemma RetryNotBeforeTimeout(now: int, lastTry: int)
    requires lastTry <= now
    ensures now + RetryDelay(now, lastTry) >= lastTry + RetryTimeoutMs
    ensures now - lastTry <= RetryTimeoutMs ==> now + RetryDelay(now, lastTry) == lastTry + RetryTimeoutMs
    ensures now - lastTry > RetryTimeoutMs ==> now + RetryDelay(now, lastTry) == now + OverdueDelayMs
  {
  }

  /** `fail_timeout`: terminated, or a sleep of `delayMs` started at `armedAt`. */
  datatype Timer = Disarmed | Armed(armedAt: int, delayMs: nat)

  /** Everything the loop keeps between events. */
  datatype LoopState = LoopState(
    reportQueue: seq<NELReport>,
    failedQueue: seq<FailedReport>,
    nextFailed: Option<FailedReport>,
    timer: Timer)

  /**
   * The loop's invariant: both queues within capacity; the timer armed
   * exactly when a retry is pending; nothing waits in the failed queue
   * without a pending retry; no delay beyond `RETRY_TIMEOUT`.
   */
  predicate Valid(s: LoopState) {
    && |s.reportQueue| <= QueueCapacity
    && |s.failedQueue| <= QueueCapacity
    && (s.timer.Armed? <==> s.nextFailed.Some?)
    && (s.failedQueue != [] ==> s.nextFailed.Some?)
    && (s.timer.Armed? ==> s.timer.delayMs <= RetryTimeoutMs)
  }

  /** The state `handle_reports` starts in. */
  const Initial := LoopState([], [], None, Disarmed)

  /** The failed reports the loop still holds, in the order they will be retried. */
  function Retained(s: LoopState): (r: seq<NELReport>)
    ensures |r| == |s.failedQueue| + (if s.nextFailed.Some? then 1 else 0)
    ensures s.nextFailed.Some? ==> r[0] == s.nextFailed.value.original
  {
    (if s.nextFailed.Some? then [s.nextFailed.value.original] else [])
      + seq(|s.failedQueue|, i requires 0 <= i < |s.failedQueue| => s.failedQueue[i].original)
  }

  /** At most one pending retry and a full failed queue: 257 reports. */
  lemma RetainedBound(s: LoopState)
    requires Valid(s)
    ensures |Retained(s)| <= QueueCapacity + 1
  {
  }

  /** `submit_report`. */
  function Submitted(s: LoopState, report: NELReport): (r: LoopState)
    ensures |s.reportQueue| < QueueCapacity ==> r.reportQueue == s.reportQueue + [report]
    ensures |s.reportQueue| >= QueueCapacity ==> r.reportQueue == s.reportQueue
    ensures r.(reportQueue := s.reportQueue) == s
    ensures Valid(s) ==> Valid(r)
  {
    s.(reportQueue := TryPush(s.reportQueue, report))
  }

  /** The `report = pop` arm: the head report was sent with `outcome` at `now`. */
  function Popped(s: LoopState, outcome: SendOutcome, now: int): (r: LoopState)
    requires s.reportQueue != []
    ensures r.reportQueue == s.reportQueue[1..]
    ensures Valid(s) ==> Valid(r)
  {
    var report := s.reportQueue[0];
    var rest := s.reportQueue[1..];
    if Succeeded(outcome) then
      s.(reportQueue := rest)
    else
      var failed := FailedReport(now, report);
      if s.nextFailed.None? then
        s.(reportQueue := rest, nextFailed := Some(failed), timer := Armed(now, RetryTimeoutMs))
      else
        s.(reportQueue := rest, failedQueue := TryPush(s.failedQueue, failed))
  }

  /** The `() = fail_timeout` arm: the pending retry was sent with `outcome` at `now`. */
  function Fired(s: LoopState, outcome: SendOutcome, now: int): (r: LoopState)
    requires s.nextFailed.Some?
    ensures r.reportQueue == s.reportQueue
    ensures Valid(s) ==> Valid(r)
  {
    var retried := s.nextFailed.value;
    var queue := if Succeeded(outcome) then s.failedQueue
                 else TryPush(s.failedQueue, FailedReport(now, retried.original));
    if queue != [] then
      s.(failedQueue := queue[1..], nextFailed := Some(queue[0]),
         timer := Armed(now, RetryDelay(now, queue[0].lastTry)))
    else
      s.(failedQueue := [], nextFailed := None, timer := Disarmed)
  }

  /** A report whose first send succeeds is not retained, and nothing but the report queue changes. */
  lemma PoppedSentIsNotRetained(s: LoopState, outcome: SendOutcome, now: int)
    requires s.reportQueue != [] && Succeeded(outcome)
    ensures Popped(s, outcome, now) == s.(reportQueue := s.reportQueue[1..])
    ensures Retained(Popped(s, outcome, now)) == Retained(s)
  {
  }

  /**
   * A report whose first send fails becomes the pending retry, with a
   * full `RETRY_TIMEOUT` armed, when none is pending; otherwise it joins
   * the back of the failed queue, or is dropped when that queue is full.
   */
  lemma PoppedFailureIsRetained(s: LoopState, outcome: SendOutcome, now: int)
    requires s.reportQueue != [] && !Succeeded(outcome)
    ensures var r := Popped(s, outcome, now);
      if s.nextFailed.None? then
        r.nextFailed == Some(FailedReport(now, s.reportQueue[0])) && r.timer == Armed(now, RetryTimeoutMs)
        && r.failedQueue == s.failedQueue
      else if |s.failedQueue| < QueueCapacity then
        r.failedQueue == s.failedQueue + [FailedReport(now, s.reportQueue[0])] && r.nextFailed == s.nextFailed
        && r.timer == s.timer
      else
        r.failedQueue == s.failedQueue && r.nextFailed == s.nextFailed && r.timer == s.timer
  {
  }

  /** In terms of retained reports: a failed report joins at the back unless the failed queue is full. */
  lemma PoppedFailureRetainedAtBack(s: LoopState, outcome: SendOutcome, now: int)
    requires s.reportQueue != [] && !Succeeded(outcome)
    requires s.failedQueue != [] ==> s.nextFailed.Some?
    ensures var r := Popped(s, outcome, now);
      Retained(r) == if s.nextFailed.None? || |s.failedQueue| < QueueCapacity
                     then Retained(s) + [s.reportQueue[0]] else Retained(s)
  {
  }

  /**
   * When the timer fires, a failed retry goes to the back of the failed
   * queue (unless it is full) and the head of that queue becomes the
   * next retry: first in, first out. The retried report leaves only by a
   * successful send or an overflow drop.
   */
  lemma FiredRetainedAccounting(s: LoopState, outcome: SendOutcome, now: int)
    requires s.nextFailed.Some?
    ensures var r := Fired(s, outcome, now);
      Retained(r) == Retained(s)[1..]
        + (if !Succeeded(outcome) && |s.failedQueue| < QueueCapacity then [s.nextFailed.value.original] else [])
  {
  }

  /**
   * The failed queue after a firing: its head has moved to the pending
   * retry, and a failed retry, stamped with the time of this try, joins the
   * back unless the queue was full; every other entry keeps its time.
   */
  lemma FiredFailedQueue(s: LoopState, outcome: SendOutcome, now: int)
    requires s.nextFailed.Some? && s.failedQueue != []
    ensures Fired(s, outcome, now).failedQueue ==
      s.failedQueue[1..]
        + (if !Succeeded(outcome) && |s.failedQueue| < QueueCapacity
           then [FailedReport(now, s.nextFailed.value.original)] else [])
  {
  }

  /** The pending retry after the timer fires is the head of the failed queue, or the retried report itself. */
  lemma FiredTakesHead(s: LoopState, outcome: SendOutcome, now: int)
    requires s.nextFailed.Some?
    ensures var r := Fired(s, outcome, now);
      && (s.failedQueue != [] ==>
            r.nextFailed == Some(s.failedQueue[0])
            && r.timer == Armed(now, RetryDelay(now, s.failedQueue[0].lastTry)))
      && (s.failedQueue == [] && !Succeeded(outcome) ==>
            r.nextFailed == Some(FailedReport(now, s.nextFailed.value.original))
            && r.timer == Armed(now, RetryTimeoutMs))
      && (s.failedQueue == [] && Succeeded(outcome) ==>
            r.nextFailed == None && r.timer == Disarmed)
      && (s.failedQueue == [] ==> r.failedQueue == [])
  {
  }

  /**
   * The reporting loop's state: `REPORT_QUEUE` and the locals of
   * `handle_reports` that live across iterations.
   */
  class ReportLoop {
    var reportQueue: seq<NELReport>
    var failedQueue: seq<FailedReport>
    var nextFailed: Option<FailedReport>
    var timer: Timer

    function State(): LoopState
      reads this
    {
      LoopState(reportQueue, failedQueue, nextFailed, timer)
    }

    constructor ()
      ensures State() == Initial && Valid(State())
    {
      reportQueue := [];
      failedQueue := [];
      nextFailed := None;
      timer := Disarmed;
    }

    /** `submit_report`: never blocks; a report that finds the queue full is dropped. */
    method SubmitReport(report: NELReport)
      modifies this`reportQueue
      ensures State() == Submitted(old(State()), report)
      ensures Valid(old(State())) ==> Valid(State())
    {
      if |reportQueue| < QueueCapacity {
        reportQueue := reportQueue + [report];
      }
    }

    /** The pop arm of the loop; `outcome` is what sending the popped report gave. */
    method OnReportPopped(outcome: SendOutcome, now: int) returns (report: NELReport)
      requires reportQueue != []
      modifies this
      ensures report == old(reportQueue[0])
      ensures State() == Popped(old(State()), outcome, now)
      ensures Valid(old(State())) ==> Valid(State())
    {
      report := reportQueue[0];
      reportQueue := reportQueue[1..];
      var success := Succeeded(outcome);
      if !success {
        var failed := FailedReport(now, report);
        if nextFailed.None? {
          timer := Armed(now, RetryTimeoutMs);
          nextFailed := Some(failed);
        } else if |failedQueue| < QueueCapacity {
          failedQueue := failedQueue + [failed];
        }
      }
    }

    /** The timer arm of the loop; `outcome` is what resending `next_failed` gave. */
    method OnRetryTimerFired(outcome: SendOutcome, now: int)
      requires timer.Armed? && nextFailed.Some?
      modifies this
      ensures State() == Fired(old(State()), outcome, now)
      ensures Valid(old(State())) ==> Valid(State())
    {
      var success := Succeeded(outcome);
      if !success && |failedQueue| < QueueCapacity {
        failedQueue := failedQueue + [FailedReport(now, nextFailed.value.original)];
      }
      if failedQueue != [] {
        var failed := failedQueue[0];
        failedQueue := failedQueue[1..];
        timer := Armed(now, RetryDelay(now, failed.lastTry));
        nextFailed := Some(failed);
      } else {
        timer := Disarmed;
        nextFailed := None;
      }
    }
  }
}
