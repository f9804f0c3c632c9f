/** The buffer of platform-metric batches that failed to reach the Metric API (src/apm/metric_api_buffer.rs). */
module MetricBuffer {
  import opened Types
  import opened Json
  import opened RetryStore

  const MAX_RETRY_ATTEMPTS := 10
  const MAX_AGE_MINUTES := 60
  const MAX_BUFFERED_BATCHES := 1000
  const MINUTE_MS := 60 * 1000
  const MAX_DELAY_MS := 0x7FFF_FFFF_FFFF_FFFF

  /** `serial` is the number of batches buffered before this one. */
  datatype Item = Item(
    serial: nat,
    metrics: seq<Value>,
    endpoint: string,
    failedAt: int,
    retryCount: nat,
    nextRetryAt: Option<int>)

  function SerialOf(item: Item): nat { item.serial }

  /** `Retry-After` in its delay-seconds form, section 10.2.3 of RFC 9110; any other form counts as absent. */
  datatype Answer = Delivered | Retryable(retryAfter: Option<nat>) | Permanent | NetworkError

  predicate IsSuccess(status: nat) { 200 <= status < 300 }

  predicate IsRetryableStatus(status: nat) {
    status in {408, 429, 500, 502, 503, 504}
  }

  /** How `send_platform_metrics` classifies a response. */
  function Classify(status: nat, retryAfter: Option<nat>): Answer {
    if IsSuccess(status) then Delivered
    else if IsRetryableStatus(status) then Retryable(retryAfter)
    else Permanent
  }

  function RetryAfterOf(answer: Answer): Option<nat> {
    if answer.Retryable? then answer.retryAfter else None
  }

  /** A delay too long to represent is as good as none. */
  function NextRetry(now: int, delay: Option<nat>): Option<int> {
    if delay.Some? && delay.value * 1000 <= MAX_DELAY_MS then Some(now + delay.value * 1000) else None
  }

  predicate Deferred(item: Item, now: int) {
    item.nextRetryAt.Some? && now < item.nextRetryAt.value
  }

  predicate TooOld(item: Item, now: int) {
    TruncatedUnits(now - item.failedAt, MINUTE_MS) > MAX_AGE_MINUTES
  }

  function Counted(item: Item): Item {
    item.(retryCount := item.retryCount + 1)
  }

  /** The answer to one send and the clock read when it arrives. */
  datatype Reply = Reply(answer: Answer, now: int)

  /** What one turn leaves of a batch; `start` is the clock read once for the whole pass. */
  function After(start: int): (Item, Reply) -> Option<Item> {
    (item: Item, reply: Reply) =>
      if Deferred(item, start) then Some(item)
      else if TooOld(item, start) || reply.answer.Delivered? || reply.answer.Permanent? then None
      else if item.retryCount + 1 < MAX_RETRY_ATTEMPTS then
        Some(Counted(item).(nextRetryAt := NextRetry(reply.now, RetryAfterOf(reply.answer))))
      else None
  }

  /** A batch is retried no earlier than `Retry-After` asked for; more than 60 whole minutes are at least 61. */
  lemma WhenToRetry(item: Item, start: int, now: int, delay: Option<nat>)
    ensures Deferred(item, start) <==> item.nextRetryAt.Some? && start < item.nextRetryAt.value
    ensures TooOld(item, start) <==> start - item.failedAt >= 61 * 60_000
    ensures NextRetry(now, delay) ==
      if delay.Some? && delay.value * 1000 <= 0x7FFF_FFFF_FFFF_FFFF then Some(now + 1000 * delay.value) else None
  {
  }

  lemma AfterExactly(item: Item, start: int, reply: Reply)
    ensures var left := After(start)(item, reply);
      var deferred := item.nextRetryAt.Some? && start < item.nextRetryAt.value;
      && (deferred ==> left == Some(item))
      && (!deferred ==>
        && (left.Some? <==>
          && start - item.failedAt < 61 * 60_000 && !reply.answer.Delivered? && !reply.answer.Permanent?
          && item.retryCount + 1 < 10)
        && (left.Some? ==>
          left.value == item.(
            retryCount := item.retryCount + 1,
            nextRetryAt := NextRetry(reply.now,
                                     if reply.answer.Retryable? then reply.answer.retryAfter else None))))
  {
    WhenToRetry(item, start, 0, None);
    hide Deferred, TooOld, NextRetry;
  }

  /**
   * A pass that nothing interrupts keeps the order of what is left: the deferred batches as they were, and those
   * that were sent, for less than the tenth time, and got an answer that is worth a retry.
   */
  lemma PassLeavesASubsequence(items: seq<Item>, start: int, script: seq<Reply>) returns (at: seq<nat>)
    requires |items| <= |script|
    ensures var left := Leftover(items, script, After(start));
      && |at| == |left| && (forall i, j :: 0 <= i < j < |at| ==> at[i] < at[j])
      && (forall i :: 0 <= i < |at| ==>
        && at[i] < |items|
        && var item := items[at[i]];
           if item.nextRetryAt.Some? && start < item.nextRetryAt.value then left[i] == item
           else left[i].metrics == item.metrics && left[i].retryCount == item.retryCount + 1)
    ensures forall k :: 0 <= k < |items| ==>
      (k in at <==>
        || (items[k].nextRetryAt.Some? && start < items[k].nextRetryAt.value)
        || (start - items[k].failedAt < 61 * 60_000 && items[k].retryCount + 1 < 10
            && !script[k].answer.Delivered? && !script[k].answer.Permanent?))
  {
    at := LeftoverIsASubsequence(items, script, After(start));
    hide Leftover, After;
    forall k | 0 <= k < |items|
      ensures var left, item := After(start)(items[k], script[k]), items[k];
        var deferred := item.nextRetryAt.Some? && start < item.nextRetryAt.value;
        && (left.Some? <==>
          || deferred
          || (start - item.failedAt < 61 * 60_000 && item.retryCount + 1 < 10
              && !script[k].answer.Delivered? && !script[k].answer.Permanent?))
        && (left.Some? ==>
          if deferred then left.value == item
          else left.value.metrics == item.metrics && left.value.retryCount == item.retryCount + 1)
    {
      AfterExactly(items[k], start, script[k]);
    }
  }

  class FailedMetricApiBuffer {
    var buf: seq<Item>

    constructor ()
      ensures buf == []
    {
      buf := [];
    }

    /** `buffer_failed_metric_api`. */
    method BufferFailed(serial: nat, metrics: seq<Value>, endpoint: string, retryAfter: Option<nat>, now: int)
      modifies this
      ensures metrics == [] ==> buf == old(buf)
      ensures metrics != [] ==>
        buf == CappedPush(old(buf), Item(serial, metrics, endpoint, now, 0, NextRetry(now, retryAfter)),
          MAX_BUFFERED_BATCHES)
      ensures metrics != [] ==>
        var next := if retryAfter.Some? && retryAfter.value * 1000 <= 0x7FFF_FFFF_FFFF_FFFF
                    then Some(now + 1000 * retryAfter.value) else None;
        buf == (if |old(buf)| >= 1000 then old(buf)[1..] else old(buf))
               + [Item(serial, metrics, endpoint, now, 0, next)]
    {
      if metrics == [] {
        return;
      }
      var item := Item(serial, metrics, endpoint, now, 0, NextRetry(now, retryAfter));
      if |buf| >= MAX_BUFFERED_BATCHES {
        buf := buf[1..];
      }
      buf := buf + [item];
    }

    /**
     * `send_platform_report_metrics` once the request is answered; no status stands for a network error. The buffer's
     * documentation promises that 5xx failures are buffered; of those the code keeps four.
     */
    method SendReportMetrics(serial: nat, metrics: seq<Value>, endpoint: string, status: Option<nat>,
                             retryAfter: Option<nat>, now: int)
      returns (kept: bool)
      modifies this
      ensures kept <==> metrics != [] && (status.None? || status.value in {408, 429, 500, 502, 503, 504})
      ensures kept && status.Some? && status.value >= 500 <==>
        metrics != [] && status.Some? && status.value in {500, 502, 503, 504}
      ensures !kept ==> buf == old(buf)
      ensures kept ==>
        var delay := if status.Some? then retryAfter else None;
        var next := if delay.Some? && delay.value * 1000 <= 0x7FFF_FFFF_FFFF_FFFF
                    then Some(now + 1000 * delay.value) else None;
        buf == (if |old(buf)| >= 1000 then old(buf)[1..] else old(buf))
               + [Item(serial, metrics, endpoint, now, 0, next)]
    {
      var answer := if status.Some? then Classify(status.value, retryAfter) else NetworkError;
      kept := false;
      match answer {
        case Delivered =>
        case Permanent =>   // dropped
        case _ =>
          BufferFailed(serial, metrics, endpoint, RetryAfterOf(answer), now);
          kept := metrics != [];
      }
    }

    /** One turn of the retry loop; `sent` says whether the batch was sent at all. */
    method RetryOne(item: Item, start: int, reply: Reply) returns (sent: bool)
      modifies this
      ensures sent <==> !Deferred(item, start) && !TooOld(item, start)
      ensures var left := After(start)(item, reply);
        buf == if left.Some? then old(buf) + [left.value] else old(buf)
      ensures item.nextRetryAt.Some? && start < item.nextRetryAt.value ==> !sent && buf == old(buf) + [item]
      ensures !(item.nextRetryAt.Some? && start < item.nextRetryAt.value) ==>
        && (sent <==> start - item.failedAt < 61 * 60_000)
        && var delay := if reply.answer.Retryable? then reply.answer.retryAfter else None;
           var next := if delay.Some? && delay.value * 1000 <= 0x7FFF_FFFF_FFFF_FFFF
                       then Some(reply.now + 1000 * delay.value) else None;
           buf == old(buf)
             + if sent && !reply.answer.Delivered? && !reply.answer.Permanent? && item.retryCount + 1 < 10
               then [item.(retryCount := item.retryCount + 1, nextRetryAt := next)] else []
    {
      sent := false;
      if item.nextRetryAt.Some? && start < item.nextRetryAt.value {
        buf := buf + [item];
        return;
      }
      if TruncatedUnits(start - item.failedAt, MINUTE_MS) > MAX_AGE_MINUTES {
        return;
      }
      var again := item.(retryCount := item.retryCount + 1);
      sent := true;
      if reply.answer.Delivered? || reply.answer.Permanent? {
        return;
      }
      if again.retryCount < MAX_RETRY_ATTEMPTS {
        again := again.(nextRetryAt := NextRetry(reply.now, RetryAfterOf(reply.answer)));
        buf := buf + [again];
      }
    }

    /** `retry_buffered_metric_api` when nothing else runs while it sends. */
    method RetryBuffered(start: int, script: seq<Reply>)
      requires |buf| <= |script|
      modifies this
      ensures buf == Leftover(old(buf), script, After(start)) && |buf| <= |old(buf)|
    {
      hide After, Deferred, TooOld;
      var taken := buf;
      buf := [];
      for i := 0 to |taken|
        invariant buf == Leftover(taken[..i], script, After(start)) && |buf| <= i
      {
        assert taken[..i + 1][..i] == taken[..i];
        var _ := RetryOne(taken[i], start, script[i]);
      }
      assert taken[..|taken|] == taken;
    }
  }
}
