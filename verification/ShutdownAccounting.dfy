/** The loss summary at shutdown (src/event_loop.rs) and the request ids it is built from. */
module ShutdownAccounting {
  import opened Types
  import opened Json
  import RetryStore
  import FailedPayloads
  import TelemetryBuffer
  import MetricBuffer
  import MetricRetry
  import NormalRetry
  import TelemetryRetry

  // ---- Sorted, distinct ids --------------------------------------------------------------

  /** The order of strings: the first difference decides, a proper prefix comes first. */
  predicate Before(a: string, b: string) {
    if b == [] then false
    else if a == [] then true
    else a[0] < b[0] || (a[0] == b[0] && Before(a[1..], b[1..]))
  }

  lemma {:induction false} BeforeIsTotal(a: string, b: string)
    ensures Before(a, b) || a == b || Before(b, a)
    ensures !(Before(a, b) && Before(b, a)) && !Before(a, a)
  {
    if a != [] && b != [] {
      BeforeIsTotal(a[1..], b[1..]);
      BeforeIsTotal(a[1..], a[1..]);
      assert a[0] == b[0] && a[1..] == b[1..] ==> a == [b[0]] + b[1..] == b;
    } else if a != [] {
      BeforeIsTotal(a[1..], a[1..]);
    }
  }

  lemma {:induction false} BeforeIsTransitive(a: string, b: string, c: string)
    requires Before(a, b) && Before(b, c)
    ensures Before(a, c)
  {
    if a != [] && a[0] == b[0] == c[0] {
      BeforeIsTransitive(a[1..], b[1..], c[1..]);
    }
  }

  /** The first difference decides. */
  lemma {:induction false} FirstDifferenceDecides(a: string, b: string, k: nat)
    requires k <= |a| && k < |b| && a[..k] == b[..k] && (k < |a| ==> a[k] != b[k])
    ensures Before(a, b) <==> k == |a| || a[k] < b[k]
  {
    if k > 0 {
      assert a[0] == a[..k][0] == b[..k][0] == b[0];
      assert a[1..][..k - 1] == a[..k][1..] == b[..k][1..] == b[1..][..k - 1];
      FirstDifferenceDecides(a[1..], b[1..], k - 1);
    }
  }

  ghost predicate Sorted(ids: seq<string>) {
    forall i, j :: 0 <= i < j < |ids| ==> !Before(ids[j], ids[i])
  }

  ghost predicate StrictlyIncreasing(ids: seq<string>) {
    forall i, j :: 0 <= i < j < |ids| ==> Before(ids[i], ids[j])
  }

  function InsertId(ids: seq<string>, id: string): seq<string> {
    if ids == [] || !Before(ids[0], id) then [id] + ids else [ids[0]] + InsertId(ids[1..], id)
  }

  /** `sort`. */
  function Sort(ids: seq<string>): seq<string> {
    if ids == [] then [] else InsertId(Sort(ids[1..]), ids[0])
  }

  /** `dedup` drops an id that equals the one before it. */
  function Dedup(ids: seq<string>): seq<string> {
    if |ids| <= 1 then ids
    else if ids[0] == ids[1] then Dedup(ids[1..])
    else [ids[0]] + Dedup(ids[1..])
  }

  lemma {:induction false} InsertAdds(ids: seq<string>, id: string)
    ensures multiset(InsertId(ids, id)) == multiset(ids) + multiset{id}
  {
    if ids != [] && Before(ids[0], id) {
      InsertAdds(ids[1..], id);
      assert ids == [ids[0]] + ids[1..];
    }
  }

  lemma {:induction false} InsertKeepsSorted(ids: seq<string>, id: string)
    requires Sorted(ids)
    ensures Sorted(InsertId(ids, id))
  {
    if ids != [] && Before(ids[0], id) {
      InsertKeepsSorted(ids[1..], id);
      InsertAdds(ids[1..], id);
      var rest := InsertId(ids[1..], id);
      forall i | 0 <= i < |rest| ensures !Before(rest[i], ids[0]) {
        assert rest[i] in multiset(rest);
        assert rest[i] == id || rest[i] in ids[1..];
        BeforeIsTotal(ids[0], id);
      }
    } else {
      BeforeAllOf(ids, id);
    }
  }

  lemma BeforeAllOf(ids: seq<string>, id: string)
    requires Sorted(ids) && (ids == [] || !Before(ids[0], id))
    ensures Sorted([id] + ids)
  {
    forall j | 0 <= j < |ids| ensures !Before(ids[j], id) {
      if Before(ids[j], id) {
        BeforeIsTotal(ids[0], ids[j]);
        if ids[0] != ids[j] && Before(ids[0], ids[j]) {
          BeforeIsTransitive(ids[0], ids[j], id);
        }
      }
    }
  }

  lemma {:induction false} SortSorts(ids: seq<string>)
    ensures Sorted(Sort(ids)) && multiset(Sort(ids)) == multiset(ids)
  {
    if ids != [] {
      SortSorts(ids[1..]);
      InsertKeepsSorted(Sort(ids[1..]), ids[0]);
      InsertAdds(Sort(ids[1..]), ids[0]);
      assert ids == [ids[0]] + ids[1..];
    }
  }

  lemma {:induction false} DedupOfSorted(ids: seq<string>)
    requires Sorted(ids)
    ensures StrictlyIncreasing(Dedup(ids)) && (forall id :: id in Dedup(ids) <==> id in ids)
    ensures ids != [] ==> Dedup(ids) != [] && Dedup(ids)[0] == ids[0]
  {
    if |ids| > 1 {
      DedupOfSorted(ids[1..]);
      var rest := Dedup(ids[1..]);
      assert ids == [ids[0]] + ids[1..];
      if ids[0] != ids[1] {
        BeforeIsTotal(ids[0], ids[1]);
        forall j | 0 <= j < |rest| ensures Before(ids[0], rest[j]) {
          if j > 0 {
            BeforeIsTransitive(ids[0], rest[0], rest[j]);
          }
        }
      }
    }
  }

  /** The lists the buffers report: strictly increasing, with exactly the ids that are present. */
  lemma ReportedIdsAreExact(ids: seq<string>)
    ensures StrictlyIncreasing(Dedup(Sort(ids)))
    ensures forall id :: id in Dedup(Sort(ids)) <==> id in ids
  {
    SortSorts(ids);
    DedupOfSorted(Sort(ids));
    forall id ensures id in Sort(ids) <==> id in ids {
      assert id in ids <==> id in multiset(ids);
      assert id in Sort(ids) <==> id in multiset(Sort(ids));
    }
  }

  // ---- The ids of the three buffers ------------------------------------------------------

  function PayloadIds(payloads: seq<FailedPayloads.Item>): seq<string> {
    seq(|payloads|, i requires 0 <= i < |payloads| => payloads[i].requestId)
  }

  function TelemetryIds(items: seq<TelemetryBuffer.Item>): seq<string> {
    seq(|items|, i requires 0 <= i < |items| => items[i].requestId)
  }

  /** The `aws.requestId` attribute of a metric, if it has one that is a string. */
  function RequestIdOf(metric: Value): Option<string> {
    if metric.Object? && "attributes" in metric.fields && metric.fields["attributes"].Object?
       && "aws.requestId" in metric.fields["attributes"].fields
       && metric.fields["attributes"].fields["aws.requestId"].Text?
    then Some(metric.fields["attributes"].fields["aws.requestId"].text)
    else None
  }

  function IdsOfBatch(metrics: seq<Value>): seq<string> {
    if metrics == [] then []
    else
      var id := RequestIdOf(metrics[|metrics| - 1]);
      IdsOfBatch(metrics[..|metrics| - 1]) + if id.Some? then [id.value] else []
  }

  function MetricIds(batches: seq<MetricBuffer.Item>): seq<string> {
    if batches == [] then []
    else MetricIds(batches[..|batches| - 1]) + IdsOfBatch(batches[|batches| - 1].metrics)
  }

  function Members(ids: seq<string>): set<string> {
    set id | id in ids
  }

  /** What the summary counts as affected invocations. */
  function AffectedIds(payloads: seq<FailedPayloads.Item>, telemetry: seq<TelemetryBuffer.Item>,
                       metrics: seq<MetricBuffer.Item>): set<string>
  {
    Members(Dedup(Sort(PayloadIds(payloads)))) + Members(Dedup(Sort(TelemetryIds(telemetry))))
      + Members(Dedup(Sort(MetricIds(metrics))))
  }

  lemma RequestIdIs(metric: Value, id: string)
    ensures RequestIdOf(metric) == Some(id) <==>
      && metric.Object? && "attributes" in metric.fields && metric.fields["attributes"].Object?
      && "aws.requestId" in metric.fields["attributes"].fields
      && metric.fields["attributes"].fields["aws.requestId"] == Text(id)
  {
  }

  lemma {:induction false} IdsOfBatchAre(metrics: seq<Value>, id: string)
    ensures id in IdsOfBatch(metrics) <==> exists metric <- metrics :: RequestIdOf(metric) == Some(id)
  {
    hide RequestIdOf;
    if metrics != [] {
      var init := metrics[..|metrics| - 1];
      assert metrics == init + [metrics[|init|]];
      IdsOfBatchAre(init, id);
    }
  }

  lemma {:induction false} MetricIdsAre(batches: seq<MetricBuffer.Item>, id: string)
    ensures id in MetricIds(batches) <==>
      exists batch <- batches :: exists metric <- batch.metrics :: RequestIdOf(metric) == Some(id)
  {
    hide RequestIdOf;
    if batches != [] {
      var init := batches[..|batches| - 1];
      assert batches == init + [batches[|init|]];
      MetricIdsAre(init, id);
      IdsOfBatchAre(batches[|init|].metrics, id);
      hide IdsOfBatch;
    }
  }

  lemma PlainIdsAre(payloads: seq<FailedPayloads.Item>, telemetry: seq<TelemetryBuffer.Item>, id: string)
    ensures id in PayloadIds(payloads) <==> exists payload <- payloads :: payload.requestId == id
    ensures id in TelemetryIds(telemetry) <==> exists item <- telemetry :: item.requestId == id
  {
    if payload :| payload in payloads && payload.requestId == id {
      var i :| 0 <= i < |payloads| && payloads[i] == payload;
      assert PayloadIds(payloads)[i] == id;
    }
    if item :| item in telemetry && item.requestId == id {
      var i :| 0 <= i < |telemetry| && telemetry[i] == item;
      assert TelemetryIds(telemetry)[i] == id;
    }
  }

  /** An invocation is affected exactly if some payload, some telemetry item or some metric left behind is its. */
  lemma AffectedExactlyIf(payloads: seq<FailedPayloads.Item>, telemetry: seq<TelemetryBuffer.Item>,
                          metrics: seq<MetricBuffer.Item>, id: string)
    ensures id in AffectedIds(payloads, telemetry, metrics) <==>
      || (exists payload <- payloads :: payload.requestId == id)
      || (exists item <- telemetry :: item.requestId == id)
      || exists batch <- metrics :: exists metric <- batch.metrics :: RequestIdOf(metric) == Some(id)
  {
    hide Dedup, Sort, PayloadIds, TelemetryIds, MetricIds, RequestIdOf;
    ReportedIdsAreExact(PayloadIds(payloads));
    ReportedIdsAreExact(TelemetryIds(telemetry));
    ReportedIdsAreExact(MetricIds(metrics));
    PlainIdsAre(payloads, telemetry, id);
    MetricIdsAre(metrics, id);
  }

  ghost predicate OneRequest(metrics: seq<Value>) {
    forall a, b :: a in IdsOfBatch(metrics) && b in IdsOfBatch(metrics) ==> a == b
  }

  lemma {:induction false} MembersAreFew(ids: seq<string>)
    ensures |Members(ids)| <= |ids|
  {
    if ids != [] {
      var init := ids[..|ids| - 1];
      MembersAreFew(init);
      assert Members(ids) == Members(init) + {ids[|ids| - 1]};
    }
  }

  lemma OneBatchOneMember(metrics: seq<Value>)
    requires OneRequest(metrics)
    ensures |Members(IdsOfBatch(metrics))| <= 1
  {
    var ids := IdsOfBatch(metrics);
    if ids == [] {
      assert Members(ids) == {};
    } else {
      assert ids[0] in ids;
      forall id | id in Members(ids) ensures id == ids[0] {
      }
      assert Members(ids) == {ids[0]};
    }
  }

  lemma {:induction false} MetricMembersAreFew(batches: seq<MetricBuffer.Item>)
    requires forall i :: 0 <= i < |batches| ==> OneRequest(batches[i].metrics)
    ensures |Members(MetricIds(batches))| <= |batches|
  {
    if batches == [] {
      assert Members([]) == {};
    } else {
      var init, ids := batches[..|batches| - 1], IdsOfBatch(batches[|batches| - 1].metrics);
      MetricMembersAreFew(init);
      OneBatchOneMember(batches[|batches| - 1].metrics);
      assert Members(MetricIds(batches)) == Members(MetricIds(init)) + Members(ids);
    }
  }

  lemma SameMembers(ids: seq<string>)
    ensures Members(Dedup(Sort(ids))) == Members(ids)
  {
    ReportedIdsAreExact(ids);
    hide Dedup, Sort;
  }

  /** The affected invocations never outnumber the items lost, if every metric batch is about one request. */
  lemma AffectedAtMostRemaining(payloads: seq<FailedPayloads.Item>, telemetry: seq<TelemetryBuffer.Item>,
                                metrics: seq<MetricBuffer.Item>)
    requires forall i :: 0 <= i < |metrics| ==> OneRequest(metrics[i].metrics)
    ensures |AffectedIds(payloads, telemetry, metrics)| <= |payloads| + |telemetry| + |metrics|
  {
    hide Dedup, Sort, Members, MetricIds, OneRequest;
    SameMembers(PayloadIds(payloads));
    SameMembers(TelemetryIds(telemetry));
    SameMembers(MetricIds(metrics));
    MembersAreFew(PayloadIds(payloads));
    MembersAreFew(TelemetryIds(telemetry));
    MetricMembersAreFew(metrics);
  }

  // ---- Every batch is about one request --------------------------------------------------

  /** What a REPORT or fault line says about an invocation; numbers are already JSON values. */
  datatype LambdaMetrics = LambdaMetrics(
    requestId: string,
    duration: Option<Value>,
    billedDuration: Option<Value>,
    memorySize: Option<Value>,
    maxMemoryUsed: Option<Value>,
    initDuration: Option<Value>,
    failed: bool,
    errorType: Option<string>)

  datatype Host = Host(instanceId: string, maxMemory: Option<Value>)

  function CommonAttributes(requestId: string, guid: string, name: string, arn: string, host: Option<Host>)
    : map<string, Value>
  {
    var base := map["aws.requestId" := Text(requestId), "entity.guid" := Text(guid),
                    "entity.name" := Text(name), "entity.type" := Text("APM")];
    var base := if arn != "" then base["aws.lambda.arn" := Text(arn)] else base;
    if host.None? then base
    else
      var base := base["aws.lambda.managedInstance.instanceId" := Text(host.value.instanceId)];
      if host.value.maxMemory.Some?
        then base["aws.lambda.managedInstance.instanceMaxMemory" := host.value.maxMemory.value]
      else base
  }

  function Gauge(name: string, value: Option<Value>, now: int, attributes: map<string, Value>): seq<Value> {
    if value.None? then []
    else
      [Object(map["name" := Text(name), "type" := Text("gauge"), "value" := value.value, "timestamp" := Number(now),
                  "attributes" := Object(attributes)])]
  }

  /** `convert_to_apm_metrics`. */
  function Converted(m: LambdaMetrics, guid: string, name: string, arn: string, host: Option<Host>,
                     now: int): seq<Value>
  {
    var common := CommonAttributes(m.requestId, guid, name, arn, host);
    var errorAttributes := if m.errorType.Some? then common["Error Type" := Text(m.errorType.value)] else common;
    Gauge("apm.lambda.transaction.duration", m.duration, now, common)
      + Gauge("apm.lambda.transaction.billed_duration", m.billedDuration, now, common)
      + Gauge("apm.lambda.transaction.memory_size", m.memorySize, now, common)
      + Gauge("apm.lambda.transaction.max_memory_used", m.maxMemoryUsed, now, common)
      + Gauge("apm.lambda.transaction.init_duration", m.initDuration, now, common)
      + if m.failed then
          [Object(map["name" := Text("apm.lambda.transaction.error"), "type" := Text("count"), "value" := Number(1),
                      "timestamp" := Number(now), "interval.ms" := Number(10000),
                        "attributes" := Object(errorAttributes)])]
        else []
  }

  predicate AboutOnly(metrics: seq<Value>, id: string) {
    forall i :: 0 <= i < |metrics| ==> RequestIdOf(metrics[i]) == Some(id)
  }

  lemma GaugeIsAbout(name: string, value: Option<Value>, now: int, requestId: string, guid: string, entity: string,
                     arn: string, host: Option<Host>)
    ensures AboutOnly(Gauge(name, value, now, CommonAttributes(requestId, guid, entity, arn, host)), requestId)
  {
  }

  lemma AboutConcat(a: seq<Value>, b: seq<Value>, id: string)
    requires AboutOnly(a, id) && AboutOnly(b, id)
    ensures AboutOnly(a + b, id)
  {
    hide RequestIdOf;
  }

  lemma {:induction false} AboutMeansOne(metrics: seq<Value>, id: string)
    requires AboutOnly(metrics, id)
    ensures forall k <- IdsOfBatch(metrics) :: k == id
  {
    hide RequestIdOf;
    if metrics != [] {
      AboutMeansOne(metrics[..|metrics| - 1], id);
    }
  }

  /** Every converted metric carries the id of its invocation. */
  lemma ConvertedIsAboutOneRequest(m: LambdaMetrics, guid: string, name: string, arn: string, host: Option<Host>,
                                   now: int)
    ensures AboutOnly(Converted(m, guid, name, arn, host, now), m.requestId)
    ensures OneRequest(Converted(m, guid, name, arn, host, now))
  {
    var common := CommonAttributes(m.requestId, guid, name, arn, host);
    var a := Gauge("apm.lambda.transaction.duration", m.duration, now, common);
    var b := Gauge("apm.lambda.transaction.billed_duration", m.billedDuration, now, common);
    var c := Gauge("apm.lambda.transaction.memory_size", m.memorySize, now, common);
    var d := Gauge("apm.lambda.transaction.max_memory_used", m.maxMemoryUsed, now, common);
    var e := Gauge("apm.lambda.transaction.init_duration", m.initDuration, now, common);
    var all := Converted(m, guid, name, arn, host, now);
    var f := all[|a + b + c + d + e|..];
    assert all == a + b + c + d + e + f;
    assert AboutOnly(f, m.requestId);
    GaugeIsAbout("apm.lambda.transaction.duration", m.duration, now, m.requestId, guid, name, arn, host);
    GaugeIsAbout("apm.lambda.transaction.billed_duration", m.billedDuration, now, m.requestId, guid, name, arn, host);
    GaugeIsAbout("apm.lambda.transaction.memory_size", m.memorySize, now, m.requestId, guid, name, arn, host);
    GaugeIsAbout("apm.lambda.transaction.max_memory_used", m.maxMemoryUsed, now, m.requestId, guid, name, arn, host);
    GaugeIsAbout("apm.lambda.transaction.init_duration", m.initDuration, now, m.requestId, guid, name, arn, host);
    hide Gauge, CommonAttributes, Converted, AboutOnly, IdsOfBatch;
    AboutConcat(a, b, m.requestId);
    AboutConcat(a + b, c, m.requestId);
    AboutConcat(a + b + c, d, m.requestId);
    AboutConcat(a + b + c + d, e, m.requestId);
    AboutConcat(a + b + c + d + e, f, m.requestId);
    AboutMeansOne(all, m.requestId);
  }

  // ---- In every run ----------------------------------------------------------------------

  ghost function IsOne(): MetricBuffer.Item -> bool {
    (item: MetricBuffer.Item) => OneRequest(item.metrics)
  }

  lemma TryKeepsOne(s: MetricRetry.State, t: nat)
    requires RetryStore.Every(s.store, IsOne())
    ensures RetryStore.Every(MetricRetry.TryNext(s, t).store, IsOne())
  {
    hide OneRequest, RetryStore.Every, MetricBuffer.Deferred, MetricBuffer.TooOld;
    RetryStore.MovesKeepEvery(s.store, t, IsOne());
    if RetryStore.HasNext(s.store, t) {
      var item := RetryStore.Head(s.store, t);
      RetryStore.PushKeepsEvery(RetryStore.Skip(s.store, t), item, 1, IsOne());
      RetryStore.SendKeepsEvery(s.store, t, MetricBuffer.Counted(item), IsOne());
    }
  }

  lemma ResolveKeepsOne(s: MetricRetry.State, t: nat, reply: MetricBuffer.Reply)
    requires RetryStore.Every(s.store, IsOne())
    ensures RetryStore.Every(MetricRetry.Resolve(s, t, reply).store, IsOne())
  {
    hide OneRequest, RetryStore.Every, MetricBuffer.NextRetry;
    RetryStore.MovesKeepEvery(s.store, t, IsOne());
    if RetryStore.Awaits(s.store, t) {
      var item := RetryStore.Sent(s.store, t);
      var again := item.(nextRetryAt := MetricBuffer.NextRetry(reply.now, MetricBuffer.RetryAfterOf(reply.answer)));
      RetryStore.PushKeepsEvery(RetryStore.Answered(s.store, t), again, 1, IsOne());
    }
  }

  lemma StepKeepsOne(s: MetricRetry.State, e: MetricRetry.Event)
    requires RetryStore.Every(s.store, IsOne())
    requires e.FirstFailure? ==> OneRequest(e.metrics)
    ensures RetryStore.Every(MetricRetry.Step(s, e).store, IsOne())
  {
    hide OneRequest, RetryStore.Every, MetricRetry.TryNext, MetricRetry.Resolve, MetricBuffer.NextRetry;
    match e
    case FirstFailure(metrics, endpoint, retryAfter, now) =>
      var item := MetricBuffer.Item(s.accepted, metrics, endpoint, now, 0, MetricBuffer.NextRetry(now, retryAfter));
      RetryStore.PushKeepsEvery(s.store, item, MetricBuffer.MAX_BUFFERED_BATCHES, IsOne());
    case BeginPass(t, _) => RetryStore.MovesKeepEvery(s.store, t, IsOne());
    case SendNext(t) => TryKeepsOne(s, t);
    case GetReply(t, reply) => ResolveKeepsOne(s, t, reply);
    case EndPass(t) => RetryStore.MovesKeepEvery(s.store, t, IsOne());
  }

  /** Retries never change what a batch is about. */
  lemma {:induction false} BufferedBatchesAreAboutOneRequest(events: seq<MetricRetry.Event>)
    requires forall i :: 0 <= i < |events| && events[i].FirstFailure? ==> OneRequest(events[i].metrics)
    ensures RetryStore.Every(MetricRetry.Run(events).store, IsOne())
  {
    if events != [] {
      var init := events[..|events| - 1];
      assert forall i :: 0 <= i < |init| ==> init[i] == events[i];
      hide OneRequest, RetryStore.Every, MetricRetry.Step;
      BufferedBatchesAreAboutOneRequest(init);
      StepKeepsOne(MetricRetry.Run(init), events[|events| - 1]);
    }
  }

  /** The metrics of some invocation's report, as the converter makes them. */
  ghost predicate IsConverted(metrics: seq<Value>) {
    exists m, guid, name, arn, host, now :: metrics == Converted(m, guid, name, arn, host, now)
  }

  lemma ConvertedIsOne(metrics: seq<Value>)
    requires IsConverted(metrics)
    ensures OneRequest(metrics)
  {
    hide Converted, OneRequest;
    var m, guid, name, arn, host, now :| metrics == Converted(m, guid, name, arn, host, now);
    ConvertedIsAboutOneRequest(m, guid, name, arn, host, now);
  }

  /**
   * Whatever happened before shutdown, the reported number of affected invocations is at most the reported number of
   * lost items, since every metric batch that was ever buffered came from the converter.
   */
  lemma SummaryNeverOverstates(normal: seq<NormalRetry.Event>, telemetry: seq<TelemetryRetry.Event>,
                               metric: seq<MetricRetry.Event>)
    requires forall i :: 0 <= i < |metric| && metric[i].FirstFailure? ==> IsConverted(metric[i].metrics)
    ensures var payloads, items, batches :=
        NormalRetry.Run(normal).store.buf, TelemetryRetry.Run(telemetry).store.buf, MetricRetry.Run(metric).store.buf;
      |AffectedIds(payloads, items, batches)| <= |payloads| + |items| + |batches|
  {
    hide NormalRetry.Run, TelemetryRetry.Run, MetricRetry.Run, AffectedIds, OneRequest, IsConverted;
    forall i | 0 <= i < |metric| && metric[i].FirstFailure? ensures OneRequest(metric[i].metrics) {
      ConvertedIsOne(metric[i].metrics);
    }
    BufferedBatchesAreAboutOneRequest(metric);
    var batches := MetricRetry.Run(metric).store.buf;
    forall i | 0 <= i < |batches| ensures OneRequest(batches[i].metrics) {
      assert IsOne()(batches[i]);
    }
    AffectedAtMostRemaining(NormalRetry.Run(normal).store.buf, TelemetryRetry.Run(telemetry).store.buf, batches);
  }
}
