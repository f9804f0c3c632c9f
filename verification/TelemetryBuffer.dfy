/** The buffer of telemetry that failed to reach the APM collector (src/apm/telemetry_buffer.rs). */
module TelemetryBuffer {
  import opened Types
  import opened Json
  import opened RetryStore

  const MAX_BUFFERED_ITEMS := 500
  const MAX_RETRIES := 10
  const MAX_AGE_MINUTES := 60
  const MINUTE_MS := 60 * 1000
  const SYNTHESIZED_ERROR_EVENTS := "__synthesized_error_event_data"
  const RESERVOIR_SIZE := 100

  /** `serial` is the number of items buffered before this one. */
  datatype Item = Item(
    serial: nat,
    telemetryType: string,
    data: seq<Value>,
    requestId: string,
    runId: string,
    collectorHost: string,
    failedAt: int,
    retryCount: nat)

  datatype Session = Session(runId: string, collectorHost: string)

  /** The answers the collector can give: a restart is a 409 or a 401. */
  datatype Answer = Accepted | Restart | Refused

  predicate TooOld(item: Item, now: int) {
    TruncatedUnits(now - item.failedAt, MINUTE_MS) > MAX_AGE_MINUTES
  }

  predicate KnownType(telemetryType: string) {
    telemetryType in {
      "metric_data", "span_event_data", "error_data", "error_event_data", "analytic_event_data",
      "custom_event_data", "log_event_data", "transaction_sample_data", "sql_trace_data",
      SYNTHESIZED_ERROR_EVENTS }
  }

  predicate IsSent(item: Item, now: int) {
    !TooOld(item, now) && KnownType(item.telemetryType)
  }

  /** An empty list of synthesized errors is reported as delivered without a request. */
  predicate NothingToSend(telemetryType: string, data: seq<Value>) {
    telemetryType == SYNTHESIZED_ERROR_EVENTS && data == []
  }

  /** Whole minutes, truncated: more than 60 of them are at least 61 minutes. */
  lemma SentExactlyIf(item: Item, now: int)
    ensures TooOld(item, now) <==> now - item.failedAt >= 61 * 60_000
    ensures IsSent(item, now) <==>
      && now - item.failedAt < 61 * 60_000
      && item.telemetryType in {
        "metric_data", "span_event_data", "error_data", "error_event_data", "analytic_event_data",
        "custom_event_data", "log_event_data", "transaction_sample_data", "sql_trace_data",
        "__synthesized_error_event_data" }
  {
    hide KnownType;
    KnownTypes(item.telemetryType);
  }

  lemma KnownTypes(telemetryType: string)
    ensures KnownType(telemetryType) <==> telemetryType in {
      "metric_data", "span_event_data", "error_data", "error_event_data", "analytic_event_data",
      "custom_event_data", "log_event_data", "transaction_sample_data", "sql_trace_data",
      "__synthesized_error_event_data" }
  {
  }

  // ---- The form on the wire --------------------------------------------------------------

  predicate Placeholder(value: Value) {
    value == Null || value == Text("")
  }

  /** What an agent's data says besides the run id. */
  function Body(data: seq<Value>): seq<Value> {
    if data != [] && Placeholder(data[0]) then data[1..] else data
  }

  /** The data as sent under `runId`: empty data stays empty, otherwise the run id precedes the body. */
  function WireForm(runId: string, data: seq<Value>): seq<Value> {
    if data == [] then [] else [Text(runId)] + Body(data)
  }

  /** The form of `send_error_events`: the run id, how many events there are, and the events. */
  function ErrorForm(runId: string, events: seq<Value>): seq<Value> {
    [ Text(runId),
      Object(map["events_seen" := Number(|events|), "reservoir_size" := Number(RESERVOIR_SIZE)]),
      List(events) ]
  }

  function FormOf(telemetryType: string, runId: string, data: seq<Value>): seq<Value> {
    if telemetryType == SYNTHESIZED_ERROR_EVENTS then ErrorForm(runId, data) else WireForm(runId, data)
  }

  /**
   * An agent's data is sent with the run id in place of a placeholder, and in front if there is none; synthesized
   * errors are sent with their number. Nothing else of either is touched.
   */
  lemma FormIsRunIdAndContent(telemetryType: string, runId: string, data: seq<Value>)
    ensures var form := FormOf(telemetryType, runId, data);
      if telemetryType == "__synthesized_error_event_data" then
        form == [
          Text(runId), Object(map["events_seen" := Number(|data|), "reservoir_size" := Number(100)]), List(data)]
      else if data == [] then form == []
      else if data[0] == Null || data[0] == Text("") then form == data[0 := Text(runId)]
      else form == [Text(runId)] + data
  {
    if data != [] {
      assert data[0 := Text(runId)] == [Text(runId)] + data[1..];
    }
  }

  /** The step of `send_apm_telemetry` that puts the run id in place. */
  method ProcessedData(runId: string, data: seq<Value>) returns (processed: seq<Value>)
    ensures processed == WireForm(runId, data)
    ensures data == [] ==> processed == []
    ensures data != [] && (data[0] == Null || data[0] == Text("")) ==> processed == data[0 := Text(runId)]
    ensures data != [] && data[0] != Null && data[0] != Text("") ==> processed == [Text(runId)] + data
  {
    processed := data;
    if processed != [] {
      if processed[0].Null? || processed[0] == Text("") {
        processed := processed[0 := Text(runId)];
        assert processed == [Text(runId)] + data[1..];
      } else {
        processed := [Text(runId)] + processed;
      }
    }
  }

  /** Forming the wire data of what is already in wire form would show: it puts a second run id in front. */
  lemma DoublePrefixShows(first: string, second: string, data: seq<Value>)
    requires data != [] && first != ""
    ensures WireForm(second, WireForm(first, data)) == [Text(second)] + WireForm(first, data)
    ensures WireForm(second, WireForm(first, data)) != WireForm(second, data)
  {
    var once := WireForm(first, data);
    assert once[0] == Text(first) && !Placeholder(once[0]);
    assert Body(once) == once;
    assert WireForm(second, once) == [Text(second)] + once;
    assert |once| == |Body(data)| + 1 && |WireForm(second, data)| == |Body(data)| + 1;
    hide WireForm, Body;
  }

  function SerialOf(item: Item): nat { item.serial }

  // ---- One pass ---------------------------------------------------------------------------

  function Failed(item: Item): Item {
    item.(retryCount := item.retryCount + 1)
  }

  /** The clock an item is checked against, and the answer to its send. */
  datatype Try = Try(now: int, answer: Answer)

  /** What a try leaves of an item. */
  function After(item: Item, try: Try): Option<Item> {
    if !IsSent(item, try.now) || NothingToSend(item.telemetryType, item.data) || try.answer.Accepted? then None
    else if try.answer.Restart? then Some(item)
    else if item.retryCount + 1 < MAX_RETRIES then Some(Failed(item))
    else None
  }

  /**
   * A pass that nothing interrupts leaves a subsequence of the old buffer, with every datum unchanged: exactly what was
   * sent and either met a restart or was refused for less than the tenth time.
   */
  lemma PassLeavesASubsequence(items: seq<Item>, script: seq<Try>) returns (at: seq<nat>)
    requires |items| <= |script|
    ensures var left := Leftover(items, script, After);
      && |at| == |left| && (forall i, j :: 0 <= i < j < |at| ==> at[i] < at[j])
      && forall i :: 0 <= i < |at| ==>
           && at[i] < |items|
           && left[i] == items[at[i]].(
                retryCount := items[at[i]].retryCount + if script[at[i]].answer.Restart? then 0 else 1)
    ensures forall k :: 0 <= k < |items| ==>
      (k in at <==>
        && script[k].now - items[k].failedAt < 61 * 60_000 && KnownType(items[k].telemetryType)
        && !(items[k].telemetryType == "__synthesized_error_event_data" && items[k].data == [])
        && (script[k].answer.Restart? || (script[k].answer.Refused? && items[k].retryCount + 1 < 10)))
  {
    hide KnownType, TooOld, Leftover;
    at := LeftoverIsASubsequence(items, script, After);
    forall k | 0 <= k < |items|
      ensures TooOld(items[k], script[k].now) <==> script[k].now - items[k].failedAt >= 61 * 60_000
    {
      SentExactlyIf(items[k], script[k].now);
    }
  }

  /** A restart puts the item back with the capped push, which evicts the oldest of a full buffer. */
  predicate PushedCapped(item: Item, try: Try) {
    After(item, try).Some? && try.answer.Restart?
  }

  /**
   * How many items a pass evicts. The buffer it works through may be over the cap, since the push after any other
   * failure is not capped.
   */
  function EvictedIn(items: seq<Item>, script: seq<Try>): (n: nat)
    requires |items| <= |script|
    ensures n <= |Leftover(items, script, After)|
  {
    if items == [] then 0
    else
      var k := |items| - 1;
      var earlier := EvictedIn(items[..k], script);
      if PushedCapped(items[k], script[k]) && |Leftover(items[..k], script, After)| - earlier >= MAX_BUFFERED_ITEMS
      then earlier + 1
      else earlier
  }

  lemma EvictedOneMore(items: seq<Item>, i: nat, script: seq<Try>)
    requires i < |items| <= |script|
    ensures var earlier, left := EvictedIn(items[..i], script), Leftover(items[..i], script, After);
      && EvictedIn(items[..i + 1], script) == earlier
           + (if PushedCapped(items[i], script[i]) && |left| - earlier >= MAX_BUFFERED_ITEMS then 1 else 0)
      && Leftover(items[..i + 1], script, After)
           == left + (if After(items[i], script[i]).Some? then [After(items[i], script[i]).value] else [])
  {
    assert items[..i + 1][..i] == items[..i];
    hide After;
  }

  /** A pass evicts nothing exactly if no restart finds 500 items put back before it. */
  lemma {:induction false} NothingEvictedExactlyIf(items: seq<Item>, script: seq<Try>)
    requires |items| <= |script|
    ensures EvictedIn(items, script) == 0 <==>
      forall k :: 0 <= k < |items| && PushedCapped(items[k], script[k]) ==>
        |Leftover(items[..k], script, After)| < 500
  {
    if items != [] {
      var init := items[..|items| - 1];
      NothingEvictedExactlyIf(init, script);
      hide PushedCapped, Leftover;
      forall k | 0 <= k < |init| ensures init[..k] == items[..k] && init[k] == items[k] {
      }
    }
  }

  lemma {:induction false} LeftAtMost(items: seq<Item>, script: seq<Try>)
    requires |items| <= |script|
    ensures |Leftover(items, script, After)| <= |items|
  {
    if items != [] {
      LeftAtMost(items[..|items| - 1], script);
    }
  }

  /** So a pass over a buffer within the cap evicts nothing. */
  lemma CappedEvictsNothing(items: seq<Item>, script: seq<Try>)
    requires |items| <= |script| && |items| <= 500
    ensures EvictedIn(items, script) == 0
  {
    hide Leftover, PushedCapped, EvictedIn;
    forall k | 0 <= k < |items| ensures |Leftover(items[..k], script, After)| < 500 {
      LeftAtMost(items[..k], script);
    }
    NothingEvictedExactlyIf(items, script);
  }

  class FailedTelemetryBuffer {
    var buf: seq<Item>

    constructor ()
      ensures buf == []
    {
      buf := [];
    }

    /** `buffer_failed_telemetry`. */
    method BufferFailed(item: Item)
      modifies this
      ensures buf == CappedPush(old(buf), item, MAX_BUFFERED_ITEMS)
      ensures buf == (if |old(buf)| >= 500 then old(buf)[1..] else old(buf)) + [item]
    {
      if |buf| >= MAX_BUFFERED_ITEMS {
        buf := buf[1..];
      }
      buf := buf + [item];
    }

    /** One turn of the retry loop, whatever the buffer holds by then. */
    method RetryOne(item: Item, session: Option<Session>, try: Try) returns (wires: seq<seq<Value>>)
      modifies this
      ensures wires == Wires(item, session, try)
      ensures var left := After(item, try);
        buf == if left.None? then old(buf)
               else if try.answer.Restart? then CappedPush(old(buf), left.value, MAX_BUFFERED_ITEMS)
               else old(buf) + [left.value]
      ensures var goes :=
          && try.now - item.failedAt < 61 * 60_000 && KnownType(item.telemetryType)
          && !(item.telemetryType == "__synthesized_error_event_data" && item.data == []);
        var runId := if session.Some? then session.value.runId else item.runId;
        && wires == (if goes then [FormOf(item.telemetryType, runId, item.data)] else [])
        && (!goes || try.answer.Accepted? ==> buf == old(buf))
        && (goes && try.answer.Restart? ==>
          buf == (if |old(buf)| >= 500 then old(buf)[1..] else old(buf)) + [item])
        && (goes && try.answer.Refused? ==>
          buf == old(buf)
            + if item.retryCount + 1 < 10 then [item.(retryCount := item.retryCount + 1)] else [])
    {
      SentExactlyIf(item, try.now);
      hide KnownType;
      wires := [];
      if TruncatedUnits(try.now - item.failedAt, MINUTE_MS) > MAX_AGE_MINUTES || !KnownType(item.telemetryType) {
        return;
      }
      var runId := if session.Some? then session.value.runId else item.runId;
      if item.telemetryType == SYNTHESIZED_ERROR_EVENTS {
        if item.data == [] {
          return;
        }
        wires := [ErrorForm(runId, item.data)];
      } else {
        var wire := ProcessedData(runId, item.data);
        wires := [wire];
      }
      match try.answer {
        case Accepted =>
        case Restart => BufferFailed(item);
        case Refused =>
          var again := item.(retryCount := item.retryCount + 1);
          if again.retryCount < MAX_RETRIES {
            buf := buf + [again];
          }
      }
    }

    /**
     * `retry_buffered_telemetry` when nothing else runs while it sends; returns what went over the wire. What is left
     * is what the turns leave, less the oldest of it that restarts evict.
     */
    method RetryBuffered(session: Option<Session>, script: seq<Try>) returns (wires: seq<seq<Value>>)
      requires |buf| <= |script|
      modifies this
      ensures buf == Leftover(old(buf), script, After)[EvictedIn(old(buf), script)..]
      ensures |buf| <= |old(buf)|
      ensures |old(buf)| <= 500 ==> buf == Leftover(old(buf), script, After)
      ensures wires == WiresOf(old(buf), session, script)
    {
      hide After, Wires, Leftover, EvictedIn, KnownType, FormOf, WiresOf, PushedCapped;
      var taken := buf;
      buf := [];
      wires := [];
      NothingYet(session, script);
      for i := 0 to |taken|
        invariant buf == Leftover(taken[..i], script, After)[EvictedIn(taken[..i], script)..]
        invariant wires == WiresOf(taken[..i], session, script)
      {
        EvictedOneMore(taken, i, script);
        WiresOneMore(taken, i, session, script);
        RestartIsCapped(taken[i], script[i]);
        var sent := RetryOne(taken[i], session, script[i]);
        wires := wires + sent;
      }
      assert taken[..|taken|] == taken;
      LeftAtMost(taken, script);
      if |taken| <= MAX_BUFFERED_ITEMS {
        CappedEvictsNothing(taken, script);
      }
    }
  }

  lemma NothingYet(session: Option<Session>, script: seq<Try>)
    ensures Leftover([], script, After) == [] && EvictedIn([], script) == 0 && WiresOf([], session, script) == []
  {
  }

  lemma RestartIsCapped(item: Item, try: Try)
    ensures PushedCapped(item, try) <==> After(item, try).Some? && try.answer.Restart?
  {
  }

  lemma WiresOneMore(items: seq<Item>, i: nat, session: Option<Session>, script: seq<Try>)
    requires i < |items| <= |script|
    ensures WiresOf(items[..i + 1], session, script)
      == WiresOf(items[..i], session, script) + Wires(items[i], session, script[i])
  {
    assert items[..i + 1][..i] == items[..i];
    hide Wires;
  }

  function RunFor(item: Item, session: Option<Session>): string {
    if session.Some? then session.value.runId else item.runId
  }

  /** What one try sends. */
  function Wires(item: Item, session: Option<Session>, try: Try): seq<seq<Value>> {
    if IsSent(item, try.now) && !NothingToSend(item.telemetryType, item.data)
    then [FormOf(item.telemetryType, RunFor(item, session), item.data)]
    else []
  }

  function WiresOf(items: seq<Item>, session: Option<Session>, script: seq<Try>): seq<seq<Value>>
    requires |items| <= |script|
  {
    if items == [] then []
    else
      var k := |items| - 1;
      WiresOf(items[..k], session, script) + Wires(items[k], session, script[k])
  }

  /** A pass sends, in the order of the buffer, each item that is young enough, under the run its session says. */
  lemma {:induction false} WiresAreInOrder(items: seq<Item>, session: Option<Session>, script: seq<Try>)
    returns (at: seq<nat>)
    requires |items| <= |script|
    ensures var wires := WiresOf(items, session, script);
      && |at| == |wires| && (forall i, j :: 0 <= i < j < |at| ==> at[i] < at[j])
      && forall i :: 0 <= i < |at| ==>
           && at[i] < |items|
           && var item := items[at[i]];
              var runId := if session.Some? then session.value.runId else item.runId;
              wires[i] == FormOf(item.telemetryType, runId, item.data)
    ensures forall k :: 0 <= k < |items| ==>
      (k in at <==>
        && script[k].now - items[k].failedAt < 61 * 60_000 && KnownType(items[k].telemetryType)
        && !(items[k].telemetryType == "__synthesized_error_event_data" && items[k].data == []))
  {
    at := [];
    if items != [] {
      hide KnownType, TooOld, FormOf, IsSent;
      var k := |items| - 1;
      var init := items[..k];
      at := WiresAreInOrder(init, session, script);
      SentExactlyIf(items[k], script[k].now);
      assert forall j :: 0 <= j < k ==> init[j] == items[j];
      assert k !in at;
      if IsSent(items[k], script[k].now) && !NothingToSend(items[k].telemetryType, items[k].data) {
        at := at + [k];
      }
    }
  }
}
