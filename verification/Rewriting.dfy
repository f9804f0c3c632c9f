/** The rewriting of agent payloads before they are sent (src/apm/app.rs). */
module Rewriting {
  import opened Json

  // ---- Events in place -------------------------------------------------------------------

  function MapItems(items: seq<Value>, f: Value -> Value): (r: seq<Value>)
    ensures |r| == |items|
  {
    seq(|items|, i requires 0 <= i < |items| => f(items[i]))
  }

  /** `f` applied to every element of the array at index `k`; anything of another shape stays. */
  function OnEvents(data: seq<Value>, k: nat, f: Value -> Value): seq<Value> {
    if k < |data| && data[k].List? then data[k := List(MapItems(data[k].items, f))] else data
  }

  /** The events after `i` turns of a loop that rewrites each with `f`. */
  function Rewritten(events: seq<Value>, i: nat, f: Value -> Value): seq<Value>
    requires i <= |events|
  {
    MapItems(events[..i], f) + events[i..]
  }

  lemma OneMoreRewritten(events: seq<Value>, i: nat, f: Value -> Value, event: Value)
    requires i < |events| && event == f(events[i])
    ensures Rewritten(events, i, f)[i] == events[i]
    ensures Rewritten(events, i, f)[i := event] == Rewritten(events, i + 1, f)
  {
  }

  lemma AllRewritten(events: seq<Value>, f: Value -> Value)
    ensures Rewritten(events, 0, f) == events && Rewritten(events, |events|, f) == MapItems(events, f)
  {
    assert events[..|events|] == events;
  }

  lemma IdempotentOnEvents(data: seq<Value>, k: nat, f: Value -> Value)
    requires forall x: Value :: f(f(x)) == f(x)
    ensures OnEvents(OnEvents(data, k, f), k, f) == OnEvents(data, k, f)
  {
    if k < |data| && data[k].List? {
      assert MapItems(MapItems(data[k].items, f), f) == MapItems(data[k].items, f);
    }
  }

  lemma CommuteOnEvents(data: seq<Value>, k: nat, f: Value -> Value, g: Value -> Value)
    requires forall x: Value :: f(g(x)) == g(f(x))
    ensures OnEvents(OnEvents(data, k, g), k, f) == OnEvents(OnEvents(data, k, f), k, g)
  {
    if k < |data| && data[k].List? {
      assert MapItems(MapItems(data[k].items, g), f) == MapItems(MapItems(data[k].items, f), g);
    }
  }

  // ---- Tag injection ---------------------------------------------------------------------

  predicate HasType(event: Value, eventType: string) {
    event.Object? && "type" in event.fields && event.fields["type"] == Text(eventType)
  }

  /** The user attributes with the tags added that they do not already have. */
  function WithTags(userAttrs: Value, tags: map<string, Value>): Value {
    Object(tags + if userAttrs.Object? then userAttrs.fields else map[])
  }

  function Tagged(eventType: string, tags: map<string, Value>): Value -> Value {
    (event: Value) =>
      if event.List? && |event.items| >= 2 && HasType(event.items[0], eventType)
      then List(event.items[1 := WithTags(event.items[1], tags)])
      else event
  }

  function Injected(data: seq<Value>, eventType: string, tags: map<string, Value>): seq<Value> {
    if tags == map[] then data else OnEvents(data, 2, Tagged(eventType, tags))
  }

  lemma TaggedTwice(eventType: string, tags: map<string, Value>, event: Value)
    ensures Tagged(eventType, tags)(Tagged(eventType, tags)(event)) == Tagged(eventType, tags)(event)
  {
    if event.List? && |event.items| >= 2 {
      var userAttrs := event.items[1];
      assert WithTags(WithTags(userAttrs, tags), tags) == WithTags(userAttrs, tags);
    }
  }

  lemma InjectionIsIdempotent(data: seq<Value>, eventType: string, tags: map<string, Value>)
    ensures Injected(Injected(data, eventType, tags), eventType, tags) == Injected(data, eventType, tags)
  {
    forall x: Value ensures Tagged(eventType, tags)(Tagged(eventType, tags)(x)) == Tagged(eventType, tags)(x) {
      TaggedTwice(eventType, tags, x);
    }
    IdempotentOnEvents(data, 2, Tagged(eventType, tags));
  }

  /**
   * Injection changes nothing but the user attributes of matching events, where every attribute that was there
   * keeps its value and what is new is exactly the missing tags.
   */
  lemma InjectionOnlyAddsMissingTags(data: seq<Value>, eventType: string, tags: map<string, Value>, i: nat)
    requires |data| >= 3 && data[2].List? && i < |data[2].items|
    ensures var after := Injected(data, eventType, tags);
      && |after| == |data| && (forall k :: 0 <= k < |data| && k != 2 ==> after[k] == data[k])
      && after[2].List? && |after[2].items| == |data[2].items|
      && var event, now := data[2].items[i], after[2].items[i];
         if && event.List? && |event.items| >= 2 && event.items[0].Object? && "type" in event.items[0].fields
            && event.items[0].fields["type"] == Text(eventType) && tags != map[] then
           && now.List? && |now.items| == |event.items| && now.items[1].Object?
           && (forall j :: 0 <= j < |event.items| && j != 1 ==> now.items[j] == event.items[j])
           && var own := if event.items[1].Object? then event.items[1].fields else map[];
              && (forall key <- own :: key in now.items[1].fields && now.items[1].fields[key] == own[key])
              && (forall key <- tags :: key !in own ==>
                    key in now.items[1].fields && now.items[1].fields[key] == tags[key])
              && now.items[1].fields.Keys == own.Keys + tags.Keys
         else now == event
  {
  }

  // ---- Transaction names -----------------------------------------------------------------

  predicate NeedsNormalization(name: string) {
    '/' !in name
  }

  function NormalizedName(name: string): (r: string)
    ensures !NeedsNormalization(r)
  {
    assert ("OtherTransaction/Ruby/" + name)[16] == '/';
    "OtherTransaction/Ruby/" + name
  }

  predicate Renamable(fields: map<string, Value>, key: string) {
    key in fields && fields[key].Text? && NeedsNormalization(fields[key].text)
  }

  function Renamed(fields: map<string, Value>, key: string): map<string, Value> {
    if Renamable(fields, key) then fields[key := Text(NormalizedName(fields[key].text))] else fields
  }

  /** The object at the head of an event tuple, rewritten. */
  function OnHead(event: Value, f: map<string, Value> -> map<string, Value>): Value {
    if event.List? && |event.items| > 0 && event.items[0].Object?
    then List(event.items[0 := Object(f(event.items[0].fields))])
    else event
  }

  function AnalyticFields(fields: map<string, Value>): map<string, Value> {
    if HasType(Object(fields), "Transaction") then Renamed(fields, "name") else fields
  }

  /** A renamed span takes the transaction name along. */
  function SpanFields(fields: map<string, Value>): map<string, Value> {
    if HasType(Object(fields), "Span") && Renamable(fields, "name") then
      var normalized := Text(NormalizedName(fields["name"].text));
      var renamed := fields["name" := normalized];
      if "transaction.name" in renamed then renamed["transaction.name" := normalized] else renamed
    else fields
  }

  function ErrorFields(fields: map<string, Value>): map<string, Value> {
    Renamed(Renamed(fields, "transaction.name"), "transactionName")
  }

  function CustomFields(fields: map<string, Value>): map<string, Value> {
    Renamed(fields, "transaction.name")
  }

  function AnalyticEvent(event: Value): Value { OnHead(event, AnalyticFields) }
  function SpanEvent(event: Value): Value { OnHead(event, SpanFields) }
  function ErrorEvent(event: Value): Value { OnHead(event, ErrorFields) }
  function CustomEvent(event: Value): Value { OnHead(event, CustomFields) }

  function Sample(sample: Value): Value {
    if sample.List? && |sample.items| >= 3 && sample.items[2].Text? && NeedsNormalization(sample.items[2].text)
    then List(sample.items[2 := Text(NormalizedName(sample.items[2].text))])
    else sample
  }

  function AnalyticData(data: seq<Value>): seq<Value> { OnEvents(data, 2, AnalyticEvent) }
  function SpanData(data: seq<Value>): seq<Value> { OnEvents(data, 2, SpanEvent) }
  function ErrorData(data: seq<Value>): seq<Value> { OnEvents(data, 2, ErrorEvent) }
  function CustomData(data: seq<Value>): seq<Value> { OnEvents(data, 2, CustomEvent) }
  function SampleData(data: seq<Value>): seq<Value> { OnEvents(data, 1, Sample) }

  lemma HeadTwice(event: Value, f: map<string, Value> -> map<string, Value>)
    requires forall fields: map<string, Value> :: f(f(fields)) == f(fields)
    ensures OnHead(OnHead(event, f), f) == OnHead(event, f)
  {
  }

  lemma RenamedTwice(fields: map<string, Value>, key: string)
    ensures Renamed(Renamed(fields, key), key) == Renamed(fields, key)
    ensures !Renamable(Renamed(fields, key), key)
  {
  }

  lemma FieldsTwice(fields: map<string, Value>)
    ensures AnalyticFields(AnalyticFields(fields)) == AnalyticFields(fields)
    ensures SpanFields(SpanFields(fields)) == SpanFields(fields)
    ensures ErrorFields(ErrorFields(fields)) == ErrorFields(fields)
    ensures CustomFields(CustomFields(fields)) == CustomFields(fields)
  {
    RenamedTwice(fields, "name");
    RenamedTwice(fields, "transaction.name");
    RenamedTwice(Renamed(fields, "transaction.name"), "transactionName");
    hide NormalizedName, NeedsNormalization;
  }

  lemma EventsTwice(event: Value)
    ensures AnalyticEvent(AnalyticEvent(event)) == AnalyticEvent(event)
    ensures SpanEvent(SpanEvent(event)) == SpanEvent(event)
    ensures ErrorEvent(ErrorEvent(event)) == ErrorEvent(event)
    ensures CustomEvent(CustomEvent(event)) == CustomEvent(event)
    ensures Sample(Sample(event)) == Sample(event)
  {
    forall fields: map<string, Value>
      ensures AnalyticFields(AnalyticFields(fields)) == AnalyticFields(fields)
        && SpanFields(SpanFields(fields)) == SpanFields(fields)
      ensures ErrorFields(ErrorFields(fields)) == ErrorFields(fields)
        && CustomFields(CustomFields(fields)) == CustomFields(fields)
    {
      FieldsTwice(fields);
    }
    hide AnalyticFields, SpanFields, ErrorFields, CustomFields, NormalizedName, NeedsNormalization, OnHead;
    HeadTwice(event, AnalyticFields);
    HeadTwice(event, SpanFields);
    HeadTwice(event, ErrorFields);
    HeadTwice(event, CustomFields);
  }

  /** Five of the six normalisers are idempotent on every JSON tree. */
  lemma NormalisersAreIdempotent(data: seq<Value>)
    ensures AnalyticData(AnalyticData(data)) == AnalyticData(data)
    ensures SpanData(SpanData(data)) == SpanData(data)
    ensures ErrorData(ErrorData(data)) == ErrorData(data)
    ensures CustomData(CustomData(data)) == CustomData(data)
    ensures SampleData(SampleData(data)) == SampleData(data)
  {
    forall x: Value
      ensures AnalyticEvent(AnalyticEvent(x)) == AnalyticEvent(x) && SpanEvent(SpanEvent(x)) == SpanEvent(x)
      ensures ErrorEvent(ErrorEvent(x)) == ErrorEvent(x) && CustomEvent(CustomEvent(x)) == CustomEvent(x)
      ensures Sample(Sample(x)) == Sample(x)
    {
      EventsTwice(x);
    }
    hide OnEvents, AnalyticEvent, SpanEvent, ErrorEvent, CustomEvent, Sample;
    IdempotentOnEvents(data, 2, AnalyticEvent);
    IdempotentOnEvents(data, 2, SpanEvent);
    IdempotentOnEvents(data, 2, ErrorEvent);
    IdempotentOnEvents(data, 2, CustomEvent);
    IdempotentOnEvents(data, 1, Sample);
  }

  // ---- What each pass does to one event --------------------------------------------------

  /** Where each pass finds its events; nothing else is touched. */
  lemma PassesTouchTheirEvents(data: seq<Value>, i: nat)
    ensures |data| > 2 && data[2].List? && i < |data[2].items| ==>
      && AnalyticData(data) == data[2 := AnalyticData(data)[2]] && AnalyticData(data)[2].List?
      && i < |AnalyticData(data)[2].items| && AnalyticData(data)[2].items[i] == AnalyticEvent(data[2].items[i])
      && SpanData(data) == data[2 := SpanData(data)[2]] && SpanData(data)[2].List?
      && i < |SpanData(data)[2].items| && SpanData(data)[2].items[i] == SpanEvent(data[2].items[i])
    ensures |data| > 2 && data[2].List? && i < |data[2].items| ==>
      && ErrorData(data) == data[2 := ErrorData(data)[2]] && ErrorData(data)[2].List?
      && i < |ErrorData(data)[2].items| && ErrorData(data)[2].items[i] == ErrorEvent(data[2].items[i])
      && CustomData(data) == data[2 := CustomData(data)[2]] && CustomData(data)[2].List?
      && i < |CustomData(data)[2].items| && CustomData(data)[2].items[i] == CustomEvent(data[2].items[i])
    ensures |data| > 1 && data[1].List? && i < |data[1].items| ==>
      && SampleData(data) == data[1 := SampleData(data)[1]] && SampleData(data)[1].List?
      && i < |SampleData(data)[1].items| && SampleData(data)[1].items[i] == Sample(data[1].items[i])
    ensures |data| > 3 && data[3].List? && i < |data[3].items| ==>
      && MetricData(data) == data[3 := MetricData(data)[3]] && MetricData(data)[3].List?
      && i < |MetricData(data)[3].items| && MetricData(data)[3].items[i] == MetricEvent(data[3].items[i])
    ensures |data| <= 2 || !data[2].List? ==>
      AnalyticData(data) == data && SpanData(data) == data && ErrorData(data) == data && CustomData(data) == data
    ensures |data| <= 1 || !data[1].List? ==> SampleData(data) == data
    ensures |data| <= 3 || !data[3].List? ==> MetricData(data) == data
  {
    hide AnalyticEvent, SpanEvent, ErrorEvent, CustomEvent, Sample, MetricEvent;
  }

  /** Only what begins with an object can be renamed by the passes over events. */
  lemma OtherShapesStay(event: Value)
    requires !(event.List? && event.items != [] && event.items[0].Object?)
    ensures AnalyticEvent(event) == SpanEvent(event) == ErrorEvent(event) == CustomEvent(event) == event
    ensures MetricEvent(event) == event
  {
  }

  lemma SameHead(event: Value)
    requires event.List? && event.items != [] && event.items[0].Object?
    ensures List(event.items[0 := Object(event.items[0].fields)]) == event
  {
    assert event.items[0 := event.items[0]] == event.items;
  }

  /** A transaction whose name has no slash gets the prefix; every other event stays. */
  lemma AnalyticEventExactly(event: Value)
    requires event.List? && event.items != [] && event.items[0].Object?
    ensures var fields := event.items[0].fields;
      if && "type" in fields && fields["type"] == Text("Transaction")
         && "name" in fields && fields["name"].Text? && '/' !in fields["name"].text
      then
        var renamed := fields["name" := Text("OtherTransaction/Ruby/" + fields["name"].text)];
        AnalyticEvent(event) == List(event.items[0 := Object(renamed)])
      else AnalyticEvent(event) == event
  {
    SameHead(event);
  }

  /** A span whose name has no slash gets the prefix, and its transaction name, if there is one, becomes the same. */
  lemma SpanEventExactly(event: Value)
    requires event.List? && event.items != [] && event.items[0].Object?
    ensures var fields := event.items[0].fields;
      if && "type" in fields && fields["type"] == Text("Span")
         && "name" in fields && fields["name"].Text? && '/' !in fields["name"].text
      then
        var name := Text("OtherTransaction/Ruby/" + fields["name"].text);
        var renamed := map key <- fields :: if key in {"name", "transaction.name"} then name else fields[key];
        SpanEvent(event) == List(event.items[0 := Object(renamed)])
      else SpanEvent(event) == event
  {
    SameHead(event);
    var fields := event.items[0].fields;
    if Renamable(fields, "name") {
      var name := Text("OtherTransaction/Ruby/" + fields["name"].text);
      var renamed := map key <- fields :: if key in {"name", "transaction.name"} then name else fields[key];
      assert HasType(Object(fields), "Span") ==> SpanFields(fields) == renamed;
    }
  }

  /** Both transaction names of an error event get the prefix, each if it has no slash. */
  lemma ErrorEventExactly(event: Value)
    requires event.List? && event.items != [] && event.items[0].Object?
    ensures var fields := event.items[0].fields;
      var renamed := map key <- fields ::
        if key in {"transaction.name", "transactionName"} && fields[key].Text? && '/' !in fields[key].text
        then Text("OtherTransaction/Ruby/" + fields[key].text) else fields[key];
      ErrorEvent(event) == List(event.items[0 := Object(renamed)])
  {
    var fields := event.items[0].fields;
    var renamed := map key <- fields ::
      if key in {"transaction.name", "transactionName"} && fields[key].Text? && '/' !in fields[key].text
      then Text("OtherTransaction/Ruby/" + fields[key].text) else fields[key];
    assert ErrorFields(fields) == renamed;
  }

  lemma CustomEventExactly(event: Value)
    requires event.List? && event.items != [] && event.items[0].Object?
    ensures var fields := event.items[0].fields;
      if "transaction.name" in fields && fields["transaction.name"].Text? && '/' !in fields["transaction.name"].text
      then
        var renamed :=
          fields["transaction.name" := Text("OtherTransaction/Ruby/" + fields["transaction.name"].text)];
        CustomEvent(event) == List(event.items[0 := Object(renamed)])
      else CustomEvent(event) == event
  {
    SameHead(event);
  }

  /** The name of a transaction sample is its third element. */
  lemma SampleExactly(sample: Value)
    ensures
      if sample.List? && |sample.items| >= 3 && sample.items[2].Text? && '/' !in sample.items[2].text
      then Sample(sample) == List(sample.items[2 := Text("OtherTransaction/Ruby/" + sample.items[2].text)])
      else Sample(sample) == sample
  {
  }

  /** A name with prefix and slash gets a segment before its last one, a name with neither gets the whole prefix. */
  lemma MetricNameExactly(name: string)
    ensures forall p :: 0 <= p < |name| && name[p] == '/' && '/' !in name[p + 1..] ==>
      MetricName(name) == if "OtherTransaction" <= name then name[..p] + "/Ruby/" + name[p + 1..] else name
    ensures '/' !in name ==>
      MetricName(name) == if "OtherTransaction" <= name then name else "OtherTransaction/Ruby/" + name
  {
    forall p | 0 <= p < |name| && name[p] == '/' && '/' !in name[p + 1..]
      ensures '/' in name && LastSlash(name) == p
    {
      assert name[p] in name;
      NoneAfter(name, p);
      NoneAfter(name, LastSlash(name));
    }
    hide LastSlash;
  }

  lemma MetricEventExactly(event: Value)
    requires event.List? && event.items != [] && event.items[0].Object?
    ensures var fields := event.items[0].fields;
      if "name" in fields && fields["name"].Text? then
        MetricEvent(event) == List(event.items[0 := Object(fields["name" := Text(MetricName(fields["name"].text))])])
      else MetricEvent(event) == event
  {
    SameHead(event);
    hide MetricName;
  }

  // ---- Injection and normalisation -------------------------------------------------------

  lemma HeadKeepsType(fields: map<string, Value>, eventType: string)
    ensures HasType(Object(AnalyticFields(fields)), eventType) == HasType(Object(fields), eventType)
    ensures HasType(Object(SpanFields(fields)), eventType) == HasType(Object(fields), eventType)
  {
    hide NormalizedName, NeedsNormalization;
  }

  lemma TaggedHead(eventType: string, tags: map<string, Value>, event: Value,
                   f: map<string, Value> -> map<string, Value>)
    requires forall fields: map<string, Value> ::
      HasType(Object(f(fields)), eventType) == HasType(Object(fields), eventType)
    ensures Tagged(eventType, tags)(OnHead(event, f)) == OnHead(Tagged(eventType, tags)(event), f)
  {
    hide HasType, WithTags;
  }

  lemma TaggingCommutes(eventType: string, tags: map<string, Value>, event: Value)
    ensures Tagged(eventType, tags)(AnalyticEvent(event)) == AnalyticEvent(Tagged(eventType, tags)(event))
    ensures Tagged(eventType, tags)(SpanEvent(event)) == SpanEvent(Tagged(eventType, tags)(event))
  {
    forall fields: map<string, Value>
      ensures HasType(Object(AnalyticFields(fields)), eventType) == HasType(Object(fields), eventType)
      ensures HasType(Object(SpanFields(fields)), eventType) == HasType(Object(fields), eventType)
    {
      HeadKeepsType(fields, eventType);
    }
    hide AnalyticFields, SpanFields, OnHead, HasType;
    TaggedHead(eventType, tags, event, AnalyticFields);
    TaggedHead(eventType, tags, event, SpanFields);
  }

  /** Tags may be injected before or after the analytic and span names are normalised. */
  lemma InjectionCommutesWithNormalisation(data: seq<Value>, eventType: string, tags: map<string, Value>)
    ensures Injected(AnalyticData(data), eventType, tags) == AnalyticData(Injected(data, eventType, tags))
    ensures Injected(SpanData(data), eventType, tags) == SpanData(Injected(data, eventType, tags))
  {
    forall x: Value
      ensures Tagged(eventType, tags)(AnalyticEvent(x)) == AnalyticEvent(Tagged(eventType, tags)(x))
      ensures Tagged(eventType, tags)(SpanEvent(x)) == SpanEvent(Tagged(eventType, tags)(x))
    {
      TaggingCommutes(eventType, tags, x);
    }
    hide OnEvents, AnalyticEvent, SpanEvent, Tagged;
    CommuteOnEvents(data, 2, Tagged(eventType, tags), AnalyticEvent);
    CommuteOnEvents(data, 2, Tagged(eventType, tags), SpanEvent);
  }

  // ---- Metric names ----------------------------------------------------------------------

  const TRANSACTION_PREFIX := "OtherTransaction"

  function LastSlash(name: string): (p: nat)
    requires '/' in name
    ensures p < |name| && name[p] == '/' && '/' !in name[p + 1..]
  {
    if name[|name| - 1] == '/' then |name| - 1
    else
      var p := LastSlash(name[..|name| - 1]);
      assert name[p + 1..] == name[..|name| - 1][p + 1..] + [name[|name| - 1]];
      p
  }

  function MetricName(name: string): string {
    if TRANSACTION_PREFIX <= name then
      if '/' in name then
        var p := LastSlash(name);
        if NeedsNormalization(name[p + 1..]) then name[..p] + "/Ruby/" + name[p + 1..] else name
      else name
    else if NeedsNormalization(name) then NormalizedName(name)
    else name
  }

  function MetricFields(fields: map<string, Value>): map<string, Value> {
    if "name" in fields && fields["name"].Text? then fields["name" := Text(MetricName(fields["name"].text))] else fields
  }

  function MetricEvent(event: Value): Value { OnHead(event, MetricFields) }

  function MetricData(data: seq<Value>): seq<Value> { OnEvents(data, 3, MetricEvent) }

  /** A name that starts with the prefix or contains a slash, but not both, is left alone. */
  predicate Settled(name: string) {
    (TRANSACTION_PREFIX <= name) != ('/' in name)
  }

  lemma LastSlashAfterPrefix(name: string)
    requires TRANSACTION_PREFIX <= name && '/' in name
    ensures LastSlash(name) >= |TRANSACTION_PREFIX|
  {
    var p := LastSlash(name);
    assert forall i :: 0 <= i < |TRANSACTION_PREFIX| ==> name[i] == TRANSACTION_PREFIX[i] != '/';
    hide LastSlash;
    assert name[p] == '/';
  }

  lemma OneMoreSegment(name: string, p: nat)
    requires TRANSACTION_PREFIX <= name && |TRANSACTION_PREFIX| <= p < |name| && name[p] == '/'
    ensures var after := name[..p] + "/Ruby/" + name[p + 1..];
      |after| == |name| + 5 && TRANSACTION_PREFIX <= after && '/' in after
  {
    var after := name[..p] + "/Ruby/" + name[p + 1..];
    assert after[..|TRANSACTION_PREFIX|] == name[..|TRANSACTION_PREFIX|];
    assert after[p] == '/';
  }

  /** Once a name has both the prefix and a slash, every pass makes it longer: the check on the suffix always passes. */
  lemma EveryPassGrows(name: string)
    requires TRANSACTION_PREFIX <= name && '/' in name
    ensures |MetricName(name)| == |name| + 5
    ensures TRANSACTION_PREFIX <= MetricName(name) && '/' in MetricName(name)
  {
    LastSlashAfterPrefix(name);
    OneMoreSegment(name, LastSlash(name));
  }

  lemma MetricNameIdempotentExactlyIf(name: string)
    ensures MetricName(MetricName(name)) == MetricName(name) <==> Settled(name)
    ensures Settled(name) ==> MetricName(name) == name
  {
    if !Settled(name) {
      if TRANSACTION_PREFIX <= name {
        EveryPassGrows(name);
        EveryPassGrows(MetricName(name));
      } else {
        assert NormalizedName(name)[..|TRANSACTION_PREFIX|] == TRANSACTION_PREFIX;
        EveryPassGrows(NormalizedName(name));
      }
    }
  }

  predicate SettledEvent(event: Value) {
    event.List? && |event.items| > 0 && event.items[0].Object?
    && "name" in event.items[0].fields && event.items[0].fields["name"].Text?
    ==> Settled(event.items[0].fields["name"].text)
  }

  lemma MetricEventIdempotentExactlyIf(event: Value)
    ensures MetricEvent(MetricEvent(event)) == MetricEvent(event) <==> SettledEvent(event)
  {
    if event.List? && |event.items| > 0 && event.items[0].Object?
       && "name" in event.items[0].fields && event.items[0].fields["name"].Text? {
      var fields := event.items[0].fields;
      var name := fields["name"].text;
      MetricNameIdempotentExactlyIf(name);
      hide MetricName, Settled;
      var once := MetricFields(fields);
      var twice := MetricFields(once);
      assert once["name"] == Text(MetricName(name)) && twice["name"] == Text(MetricName(MetricName(name)));
      assert MetricEvent(event).items[0] == Object(once);
      assert MetricEvent(MetricEvent(event)).items[0] == Object(twice);
      if once["name"] == twice["name"] {
        assert once == twice;
      }
    }
  }

  /** The metric normaliser is idempotent exactly on data all of whose metric names are settled. */
  lemma MetricDataIdempotentExactlyIf(data: seq<Value>)
    ensures MetricData(MetricData(data)) == MetricData(data) <==>
      (|data| > 3 && data[3].List? ==> forall event <- data[3].items :: SettledEvent(event))
  {
    hide MetricEvent, SettledEvent;
    if |data| > 3 && data[3].List? {
      var events := data[3].items;
      var once := MapItems(events, MetricEvent);
      var twice := MapItems(once, MetricEvent);
      assert MetricData(data)[3] == List(once) && MetricData(MetricData(data))[3] == List(twice);
      forall i | 0 <= i < |events| ensures once[i] == twice[i] <==> SettledEvent(events[i]) {
        MetricEventIdempotentExactlyIf(events[i]);
      }
      if forall event <- events :: SettledEvent(event) {
        assert once == twice;
      }
      if MetricData(MetricData(data)) == MetricData(data) {
        forall event | event in events ensures SettledEvent(event) {
          var i :| 0 <= i < |events| && events[i] == event;
          assert once[i] == twice[i];
        }
      }
    }
  }

  /** A plain function name is one on which it is not. */
  lemma MetricDataNotIdempotent()
    ensures var data := [Null, Null, Null, List([List([Object(map["name" := Text("f")])])])];
      MetricData(MetricData(data)) != MetricData(data)
  {
    var event := List([Object(map["name" := Text("f")])]);
    var data := [Null, Null, Null, List([event])];
    assert !SettledEvent(event);
    assert event in data[3].items;
    MetricDataIdempotentExactlyIf(data);
  }

  // ---- The rewriting in place ------------------------------------------------------------

  /** The tags that an entry of the agent's own does not shadow, one after the other. */
  method AddMissingTags(userAttrs: map<string, Value>, tags: map<string, Value>) returns (extended: map<string, Value>)
    ensures extended == tags + userAttrs
  {
    extended := userAttrs;
    var todo := tags.Keys;
    while todo != {}
      invariant todo <= tags.Keys
      invariant extended == (tags - todo) + userAttrs
    {
      var k :| k in todo;
      if k !in extended {
        extended := extended[k := tags[k]];
      }
      todo := todo - {k};
    }
    assert tags - {} == tags;
  }

  method TagEvent(event: Value, eventType: string, tags: map<string, Value>) returns (tagged: Value)
    ensures tagged == Tagged(eventType, tags)(event)
  {
    tagged := event;
    if !event.List? || |event.items| < 2 {
      return;
    }
    var fields := event.items;
    if !fields[0].Object? || "type" !in fields[0].fields || fields[0].fields["type"] != Text(eventType) {
      return;
    }
    var userAttrs := if fields[1].Object? then fields[1].fields else map[];
    userAttrs := AddMissingTags(userAttrs, tags);
    tagged := List(fields[1 := Object(userAttrs)]);
  }

  /** One field of an event object: a name without a slash gets the prefix. */
  method NormalizeField(fields: map<string, Value>, key: string) returns (normalized: map<string, Value>)
    ensures normalized == Renamed(fields, key)
  {
    normalized := fields;
    if key in fields && fields[key].Text? {
      var name := fields[key].text;
      if NeedsNormalization(name) {
        normalized := fields[key := Text("OtherTransaction/Ruby/" + name)];
      }
    }
  }

  method NormalizeAnalyticEvent(event: Value) returns (normalized: Value)
    ensures normalized == AnalyticEvent(event)
  {
    normalized := event;
    if !event.List? || event.items == [] || !event.items[0].Object? {
      return;
    }
    var eventObj := event.items[0].fields;
    if "type" in eventObj && eventObj["type"] == Text("Transaction") {
      eventObj := NormalizeField(eventObj, "name");
    }
    normalized := List(event.items[0 := Object(eventObj)]);
  }

  method NormalizeSpan(span: Value) returns (normalized: Value)
    ensures normalized == SpanEvent(span)
  {
    normalized := span;
    if !span.List? || span.items == [] || !span.items[0].Object? {
      return;
    }
    var spanObj := span.items[0].fields;
    if "type" !in spanObj || spanObj["type"] != Text("Span") || "name" !in spanObj || !spanObj["name"].Text? {
      return;
    }
    var name := spanObj["name"].text;
    if NeedsNormalization(name) {
      var renamed := Text("OtherTransaction/Ruby/" + name);
      spanObj := spanObj["name" := renamed];
      if "transaction.name" in spanObj {
        spanObj := spanObj["transaction.name" := renamed];
      }
      normalized := List(span.items[0 := Object(spanObj)]);
    }
  }

  method NormalizeErrorEvent(event: Value) returns (normalized: Value)
    ensures normalized == ErrorEvent(event)
  {
    normalized := event;
    if !event.List? || event.items == [] || !event.items[0].Object? {
      return;
    }
    var eventObj := NormalizeField(event.items[0].fields, "transaction.name");
    eventObj := NormalizeField(eventObj, "transactionName");
    normalized := List(event.items[0 := Object(eventObj)]);
  }

  method NormalizeCustomEvent(event: Value) returns (normalized: Value)
    ensures normalized == CustomEvent(event)
  {
    normalized := event;
    if !event.List? || event.items == [] || !event.items[0].Object? {
      return;
    }
    var eventObj := NormalizeField(event.items[0].fields, "transaction.name");
    normalized := List(event.items[0 := Object(eventObj)]);
  }

  method NormalizeSample(sample: Value) returns (normalized: Value)
    ensures normalized == Sample(sample)
  {
    normalized := sample;
    if !sample.List? || |sample.items| < 3 || !sample.items[2].Text? {
      return;
    }
    var name := sample.items[2].text;
    if NeedsNormalization(name) {
      normalized := List(sample.items[2 := Text("OtherTransaction/Ruby/" + name)]);
    }
  }

  method FindLastSlash(name: string) returns (at: nat)
    requires '/' in name
    ensures at == LastSlash(name)
  {
    at := |name| - 1;
    while name[at] != '/'
      invariant at < |name| && '/' !in name[at + 1..]
      decreases at
    {
      assert name == name[..at] + [name[at]] + name[at + 1..];
      assert name[at..] == [name[at]] + name[at + 1..];
      at := at - 1;
    }
    NoneAfter(name, at);
    NoneAfter(name, LastSlash(name));
  }

  lemma NoneAfter(name: string, p: nat)
    requires p < |name| && '/' !in name[p + 1..]
    ensures forall j :: p < j < |name| ==> name[j] != '/'
  {
    forall j | p < j < |name| ensures name[j] != '/' {
      assert name[j] == name[p + 1..][j - p - 1];
    }
  }

  method NormalizeMetric(metric: Value) returns (normalized: Value)
    ensures normalized == MetricEvent(metric)
  {
    normalized := metric;
    if !metric.List? || metric.items == [] || !metric.items[0].Object? {
      return;
    }
    var metricObj := metric.items[0].fields;
    if "name" !in metricObj || !metricObj["name"].Text? {
      return;
    }
    var name := metricObj["name"].text;
    var renamed := name;
    if TRANSACTION_PREFIX <= name {
      if '/' in name {
        var at := FindLastSlash(name);
        if NeedsNormalization(name[at + 1..]) {
          renamed := name[..at] + "/Ruby/" + name[at + 1..];
        }
      }
    } else if NeedsNormalization(name) {
      renamed := "OtherTransaction/Ruby/" + name;
    }
    metricObj := metricObj["name" := Text(renamed)];
    normalized := List(metric.items[0 := Object(metricObj)]);
  }

  /** The seven passes over the events of a payload. */
  datatype Pass =
    | Tags(eventType: string, tags: map<string, Value>)
    | AnalyticNames
    | SpanNames
    | ErrorNames
    | CustomNames
    | SampleNames
    | MetricNames

  function StepOf(pass: Pass): Value -> Value {
    match pass
    case Tags(eventType, tags) => Tagged(eventType, tags)
    case AnalyticNames => AnalyticEvent
    case SpanNames => SpanEvent
    case ErrorNames => ErrorEvent
    case CustomNames => CustomEvent
    case SampleNames => Sample
    case MetricNames => MetricEvent
  }

  method RewriteEvent(pass: Pass, event: Value) returns (rewritten: Value)
    ensures rewritten == StepOf(pass)(event)
  {
    match pass {
      case Tags(eventType, tags) => rewritten := TagEvent(event, eventType, tags);
      case AnalyticNames => rewritten := NormalizeAnalyticEvent(event);
      case SpanNames => rewritten := NormalizeSpan(event);
      case ErrorNames => rewritten := NormalizeErrorEvent(event);
      case CustomNames => rewritten := NormalizeCustomEvent(event);
      case SampleNames => rewritten := NormalizeSample(event);
      case MetricNames => rewritten := NormalizeMetric(event);
    }
  }

  /** The loop of each pass over the array at index `k`; data of another shape stays. */
  method RewriteEvents(data: array<Value>, k: nat, pass: Pass)
    modifies data
    ensures data[..] == OnEvents(old(data[..]), k, StepOf(pass))
  {
    if data.Length <= k || !data[k].List? {
      return;
    }
    var events := data[k].items;
    ghost var given := events;
    AllRewritten(given, StepOf(pass));
    for i := 0 to |events|
      invariant data[..] == old(data[..]) && |events| == |given| && events == Rewritten(given, i, StepOf(pass))
    {
      OneMoreRewritten(given, i, StepOf(pass), StepOf(pass)(given[i]));
      var event := RewriteEvent(pass, events[i]);
      events := events[i := event];
    }
    data[k] := List(events);
    assert data[..] == old(data[..])[k := List(events)];
  }

  method InjectCustomTagAttributes(data: array<Value>, eventType: string, tags: map<string, Value>)
    modifies data
    ensures data[..] == Injected(old(data[..]), eventType, tags)
  {
    if |tags| == 0 {
      return;
    }
    RewriteEvents(data, 2, Tags(eventType, tags));
  }

  method NormalizeAnalyticEventData(data: array<Value>)
    modifies data
    ensures data[..] == AnalyticData(old(data[..]))
  {
    RewriteEvents(data, 2, AnalyticNames);
  }

  method NormalizeSpanEventData(data: array<Value>)
    modifies data
    ensures data[..] == SpanData(old(data[..]))
  {
    RewriteEvents(data, 2, SpanNames);
  }

  method NormalizeErrorEventData(data: array<Value>)
    modifies data
    ensures data[..] == ErrorData(old(data[..]))
  {
    RewriteEvents(data, 2, ErrorNames);
  }

  method NormalizeCustomEventData(data: array<Value>)
    modifies data
    ensures data[..] == CustomData(old(data[..]))
  {
    RewriteEvents(data, 2, CustomNames);
  }

  method NormalizeTransactionSampleData(data: array<Value>)
    modifies data
    ensures data[..] == SampleData(old(data[..]))
  {
    RewriteEvents(data, 1, SampleNames);
  }

  method NormalizeMetricData(data: array<Value>)
    modifies data
    ensures data[..] == MetricData(old(data[..]))
  {
    RewriteEvents(data, 3, MetricNames);
  }
}
