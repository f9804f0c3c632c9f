/** The keyed batch buffer and its metadata (src/agent/batch.rs). */
module Batch {
  import opened Types

  type Entry = BatchedAgentPayload
  type Entries = map<string, Entry>

  const SEND_THRESHOLD := 3
  const STALE_AFTER_MS := 5 * 60 * 1000

  // ---- What one call does to the map -----------------------------------------------------

  function Added(entries: Entries, id: string, payload: Payload, report: Option<Report>, arn: string, now: int): Entries
  {
    if id in entries then
      var existing := entries[id];
      entries[id := existing.(
        payloads := existing.payloads + [payload],
        report := if report.Some? then report else existing.report)]
    else
      entries[id := BatchedAgentPayload(id, [payload], report, arn, now)]
  }

  function AllAdded(entries: Entries, id: string, payloads: seq<Payload>, report: Option<Report>, arn: string, now: int)
    : Entries
  {
    if payloads == [] then entries
    else Added(AllAdded(entries, id, payloads[..|payloads| - 1], report, arn, now),
               id, payloads[|payloads| - 1], report, arn, now)
  }

  function Attached(entries: Entries, id: string, report: Report): Entries {
    if id in entries then entries[id := entries[id].(report := Some(report))] else entries
  }

  function WithReports(entries: Entries): Entries {
    map id | id in entries && entries[id].report.Some? :: entries[id]
  }

  lemma OneFewerWithReports(entries: Entries, id: string)
    requires id in entries
    ensures |WithReports(entries)| == |WithReports(entries - {id})| + if entries[id].report.Some? then 1 else 0
  {
    var rest := WithReports(entries - {id});
    if entries[id].report.Some? {
      assert WithReports(entries) == rest[id := entries[id]];
    } else {
      assert WithReports(entries) == rest;
    }
  }

  function OlderThan(entries: Entries, now: int): Entries {
    map id | id in entries && now - entries[id].timestamp >= STALE_AFTER_MS :: entries[id]
  }

  ghost predicate IsOldest(oldest: Option<int>, entries: Entries) {
    if entries == map[] then oldest == None
    else
      && oldest.Some?
      && (forall id <- entries :: oldest.value <= entries[id].timestamp)
      && exists id :: id in entries && entries[id].timestamp == oldest.value
  }

  /** `items` lists the values of `entries`, each once, in some order. */
  ghost predicate Lists(items: seq<Entry>, entries: Entries) {
    && |items| == |entries|
    && (forall i, j :: 0 <= i < j < |items| ==> items[i].requestId != items[j].requestId)
    && (forall i :: 0 <= i < |items| ==> items[i].requestId in entries && entries[items[i].requestId] == items[i])
  }

  function Ids(items: seq<Entry>): set<string> {
    set i | 0 <= i < |items| :: items[i].requestId
  }

  /** A list of the entries has as many ids as there are keys, so it leaves none out. */
  lemma {:induction false} ListedIds(items: seq<Entry>, entries: Entries)
    requires Lists(items, entries)
    ensures Ids(items) == entries.Keys
    decreases |items|
  {
    if items == [] {
      assert entries == map[];
    } else {
      var init, last := items[..|items| - 1], items[|items| - 1];
      assert init + [last] == items;
      var rest := entries - {last.requestId};
      assert rest.Keys == entries.Keys - {last.requestId};
      assert Lists(init, rest);
      ListedIds(init, rest);
      IdsOfPush(init, last);
    }
  }

  /** A list of some of the entries holds exactly those. */
  lemma ListedExactly(items: seq<Entry>, part: Entries, entries: Entries)
    requires Lists(items, part) && Keyed(entries) && forall id <- part :: id in entries && part[id] == entries[id]
    ensures forall id <- entries :: entries[id] in items <==> id in part
  {
    ListedIds(items, part);
    forall id | id in part ensures entries[id] in items {
      assert id in Ids(items);
    }
  }

  lemma IdsOfPush(items: seq<Entry>, item: Entry)
    ensures Ids(items + [item]) == Ids(items) + {item.requestId}
  {
    assert (items + [item])[|items|] == item;
    forall i | 0 <= i < |items| ensures items[i].requestId in Ids(items + [item]) {
      assert (items + [item])[i] == items[i];
    }
  }

  /** `payloads` came after what `id` had; no other key changed. */
  ghost predicate AddedUnder(entries: Entries, after: Entries, id: string, payloads: seq<Payload>) {
    && (forall k <- after :: k != id ==> k in entries && after[k].payloads == entries[k].payloads)
    && (id in after ==> after[id].payloads == (if id in entries then entries[id].payloads else []) + payloads)
  }

  lemma OneAdded(entries: Entries, id: string, payload: Payload, report: Option<Report>, arn: string, now: int)
    ensures AddedUnder(entries, Added(entries, id, payload, report, arn, now), id, [payload])
  {
  }

  lemma AddedTwice(entries: Entries, between: Entries, after: Entries, id: string, a: seq<Payload>, b: seq<Payload>)
    requires AddedUnder(entries, between, id, a) && AddedUnder(between, after, id, b) && (id in between || a == [])
    requires id in entries ==> id in between
    ensures AddedUnder(entries, after, id, a + b)
  {
    var before := if id in entries then entries[id].payloads else [];
    assert before + a + b == before + (a + b);
  }

  lemma {:induction false} AllAddedPayloads(entries: Entries, id: string, payloads: seq<Payload>,
                                            report: Option<Report>, arn: string, now: int)
    ensures AddedUnder(entries, AllAdded(entries, id, payloads, report, arn, now), id, payloads)
    ensures payloads == [] ==> AllAdded(entries, id, payloads, report, arn, now) == entries
    ensures id in entries || payloads != [] ==> id in AllAdded(entries, id, payloads, report, arn, now)
  {
    if payloads != [] {
      var init, last := payloads[..|payloads| - 1], payloads[|payloads| - 1];
      assert payloads == init + [last];
      AllAddedPayloads(entries, id, init, report, arn, now);
      var between := AllAdded(entries, id, init, report, arn, now);
      OneAdded(between, id, last, report, arn, now);
      AddedTwice(entries, between, Added(between, id, last, report, arn, now), id, init, [last]);
      hide AddedUnder;
    }
  }

  lemma {:induction false} AllAddedReport(entries: Entries, id: string, payloads: seq<Payload>, report: Option<Report>,
                                          arn: string, now: int)
    requires payloads != [] && report.Some?
    ensures var after := AllAdded(entries, id, payloads, report, arn, now); id in after && after[id].report == report
  {
    hide AddedUnder;
  }

  ghost predicate Keyed(entries: Entries) {
    forall id <- entries :: entries[id].requestId == id
  }

  // ---- A log of calls as the reference ---------------------------------------------------

  datatype Call =
    | Add(id: string, payload: Payload, report: Option<Report>, arn: string, now: int)
    | Attach(id: string, line: Report)
    | Remove(ids: set<string>)

  datatype Buffer = Buffer(entries: Entries, agentCount: nat, oldest: Option<int>)

  ghost function Oldest(entries: Entries): (oldest: Option<int>)
    ensures IsOldest(oldest, entries)
  {
    if entries == map[] then None
    else
      var id :| id in entries;
      var rest := Oldest(entries - {id});
      var oldest := if rest.None? || entries[id].timestamp <= rest.value then Some(entries[id].timestamp) else rest;
      OldestOfRest(entries, id, rest, oldest);
      oldest
  }

  lemma OldestOfRest(entries: Entries, id: string, rest: Option<int>, oldest: Option<int>)
    requires id in entries && IsOldest(rest, entries - {id})
    requires oldest == if rest.None? || entries[id].timestamp <= rest.value then Some(entries[id].timestamp) else rest
    ensures IsOldest(oldest, entries)
  {
    var others := entries - {id};
    forall k | k in entries ensures oldest.value <= entries[k].timestamp {
      if k != id { assert k in others; }
    }
    if oldest == rest {
      var k :| k in others && others[k].timestamp == rest.value;
      assert k in entries;
    }
  }

  lemma OldestIsUnique(a: Option<int>, b: Option<int>, entries: Entries)
    requires IsOldest(a, entries) && IsOldest(b, entries)
    ensures a == b
  {
  }

  ghost function Performed(buffer: Buffer, call: Call): Buffer {
    match call
    case Add(id, payload, report, arn, now) =>
      var entries := Added(buffer.entries, id, payload, report, arn, now);
      if id in buffer.entries then buffer.(entries := entries)
      else Buffer(entries, |entries|, if buffer.oldest.None? then Some(now) else buffer.oldest)
    case Attach(id, line) => buffer.(entries := Attached(buffer.entries, id, line))
    case Remove(ids) =>
      var entries := buffer.entries - ids;
      Buffer(entries, |entries|, Oldest(entries))
  }

  ghost function Replay(log: seq<Call>): Buffer {
    if log == [] then Buffer(map[], 0, None) else Performed(Replay(log[..|log| - 1]), log[|log| - 1])
  }

  /** The calls made after the last one that removed `id`. */
  function SinceRemoval(log: seq<Call>, id: string): seq<Call> {
    if log == [] then []
    else
      var last := log[|log| - 1];
      if last.Remove? && id in last.ids then [] else SinceRemoval(log[..|log| - 1], id) + [last]
  }

  function AddsOf(log: seq<Call>, id: string): (adds: seq<Call>)
    ensures forall i :: 0 <= i < |adds| ==> adds[i].Add? && adds[i].id == id
  {
    if log == [] then []
    else
      var last := log[|log| - 1];
      if last.Add? && last.id == id then AddsOf(log[..|log| - 1], id) + [last] else AddsOf(log[..|log| - 1], id)
  }

  function PayloadsOf(adds: seq<Call>): seq<Payload>
    requires forall i :: 0 <= i < |adds| ==> adds[i].Add?
  {
    seq(|adds|, i requires 0 <= i < |adds| => adds[i].payload)
  }

  /** The last report supplied for `id`; one that comes before any payload finds no entry. */
  function LastReport(log: seq<Call>, id: string): Option<Report> {
    if log == [] then None
    else
      var earlier, last := log[..|log| - 1], log[|log| - 1];
      match last
      case Add(k, _, report, _, _) => if k == id && report.Some? then report else LastReport(earlier, id)
      case Attach(k, line) => if k == id && AddsOf(earlier, id) != [] then Some(line) else LastReport(earlier, id)
      case Remove(_) => LastReport(earlier, id)
  }

  /** What the log since the last removal says the entry of `id` is. */
  function Expected(since: seq<Call>, id: string): Option<Entry> {
    var adds := AddsOf(since, id);
    if adds == [] then None
    else Some(BatchedAgentPayload(id, PayloadsOf(adds), LastReport(since, id), adds[0].arn, adds[0].now))
  }

  function EntryOf(entries: Entries, id: string): Option<Entry> {
    if id in entries then Some(entries[id]) else None
  }

  /** The reference semantics of one more call on what is expected of `id`. */
  lemma ExpectedAfter(since: seq<Call>, call: Call, id: string)
    requires call.Remove? ==> id !in call.ids
    requires Expected(since, id).None? ==> LastReport(since, id).None?
    ensures var before, after := Expected(since, id), Expected(since + [call], id);
      && (after.None? ==> LastReport(since + [call], id).None?)
      && (if call.Add? && call.id == id then
            after == Some(
              if before.Some? then
                before.value.(payloads := before.value.payloads + [call.payload],
                              report := if call.report.Some? then call.report else before.value.report)
              else BatchedAgentPayload(id, [call.payload], call.report, call.arn, call.now))
          else if call.Attach? && call.id == id && before.Some? then
            after == Some(before.value.(report := Some(call.line)))
          else after == before)
  {
    assert (since + [call])[..|since|] == since;
    if call.Add? && call.id == id {
      var adds := AddsOf(since, id);
      assert PayloadsOf(adds + [call]) == PayloadsOf(adds) + [call.payload];
      if adds == [] {
        assert PayloadsOf(adds + [call]) == [call.payload];
      }
    }
  }

  /**
   * The buffer refines the log: for each key, since that key was last removed, the payloads are
   * its adds in call order, the report is the last one supplied, and ARN and timestamp are the first add's.
   */
  lemma {:induction false} BufferRefinesLog(log: seq<Call>, id: string)
    ensures EntryOf(Replay(log).entries, id) == Expected(SinceRemoval(log, id), id)
    ensures Expected(SinceRemoval(log, id), id).None? ==> LastReport(SinceRemoval(log, id), id).None?
  {
    if log != [] {
      var init, last := log[..|log| - 1], log[|log| - 1];
      BufferRefinesLog(init, id);
      if !last.Remove? || id !in last.ids {
        ExpectedAfter(SinceRemoval(init, id), last, id);
      }
    }
  }

  ghost predicate ClockNeverGoesBack(log: seq<Call>) {
    forall i, j :: 0 <= i < j < |log| && log[i].Add? && log[j].Add? ==> log[i].now <= log[j].now
  }

  /** Every timestamp in the buffer was read by some add of the log. */
  lemma {:induction false} TimestampsComeFromAdds(log: seq<Call>, id: string)
    requires id in Replay(log).entries
    ensures exists i :: 0 <= i < |log| && log[i].Add? && log[i].now == Replay(log).entries[id].timestamp
  {
    var init, last := log[..|log| - 1], log[|log| - 1];
    if last.Add? && id == last.id && id !in Replay(init).entries {
      assert log[|log| - 1].now == Replay(log).entries[id].timestamp;
    } else {
      TimestampsComeFromAdds(init, id);
      var i :| 0 <= i < |init| && init[i].Add? && init[i].now == Replay(init).entries[id].timestamp;
      assert log[i] == init[i];
    }
  }

  /** The metadata is exact: the count always, the oldest timestamp under a clock that never goes back. */
  lemma {:induction false} MetadataIsExact(log: seq<Call>)
    ensures Replay(log).agentCount == |Replay(log).entries|
    ensures ClockNeverGoesBack(log) ==> IsOldest(Replay(log).oldest, Replay(log).entries)
  {
    if log != [] {
      var init, last := log[..|log| - 1], log[|log| - 1];
      MetadataIsExact(init);
      var before := Replay(init);
      if last.Add? && last.id in before.entries {
        assert Replay(log).entries.Keys == before.entries.Keys;
      }
      if last.Attach? {
        assert Replay(log).entries.Keys == before.entries.Keys;
      }
      if ClockNeverGoesBack(log) {
        OldestStep(log);
      }
    }
  }

  lemma OldestStep(log: seq<Call>)
    requires log != [] && ClockNeverGoesBack(log)
    requires IsOldest(Replay(log[..|log| - 1]).oldest, Replay(log[..|log| - 1]).entries)
    ensures IsOldest(Replay(log).oldest, Replay(log).entries)
  {
    var init, last := log[..|log| - 1], log[|log| - 1];
    var before, after := Replay(init), Replay(log);
    if last.Add? && last.id !in before.entries && before.entries != map[] {
      var k :| k in before.entries && before.entries[k].timestamp == before.oldest.value;
      TimestampsComeFromAdds(init, k);
      var i :| 0 <= i < |init| && init[i].Add? && init[i].now == before.entries[k].timestamp;
      assert log[i] == init[i] && log[|log| - 1] == last;
    }
    hide Replay, ClockNeverGoesBack;
    OldestAfter(before, last);
  }

  lemma OldestAfter(before: Buffer, last: Call)
    requires IsOldest(before.oldest, before.entries)
    requires last.Add? && last.id !in before.entries && before.oldest.Some? ==> before.oldest.value <= last.now
    ensures IsOldest(Performed(before, last).oldest, Performed(before, last).entries)
  {
    var after := Performed(before, last);
    if !last.Remove? && before.entries != map[] {
      var k :| k in before.entries && before.entries[k].timestamp == before.oldest.value;
      assert k in after.entries && after.entries[k].timestamp == after.oldest.value;
    } else if last.Add? {
      assert after.entries[last.id].timestamp == last.now;
    }
  }

  // ---- The global map, updated in place --------------------------------------------------

  class AgentBatchBuffer {
    var entries: Entries
    var agentCount: nat
    var oldest: Option<int>
    ghost var log: seq<Call>

    ghost predicate Valid() reads this {
      && Replay(log) == Buffer(entries, agentCount, oldest)
      && Keyed(entries)
    }

    constructor ()
      ensures Valid() && entries == map[] && log == []
    {
      entries, agentCount, oldest, log := map[], 0, None, [];
    }

    ghost method Record(call: Call)
      modifies this`log
      ensures log == old(log) + [call]
      ensures Replay(log) == Performed(old(Replay(log)), call)
    {
      log := log + [call];
      assert log[..|log| - 1] == old(log);
    }

    method AddToBatch(id: string, payload: Payload, report: Option<Report>, arn: string, now: int)
      requires Valid()
      modifies this
      ensures Valid() && log == old(log) + [Add(id, payload, report, arn, now)]
      ensures entries == Added(old(entries), id, payload, report, arn, now)
    {
      Record(Add(id, payload, report, arn, now));
      var isNewKey;
      if id in entries {
        var existing := entries[id];
        existing := existing.(payloads := existing.payloads + [payload]);
        if report.Some? {
          existing := existing.(report := report);
        }
        entries := entries[id := existing];
        isNewKey := false;
      } else {
        entries := entries[id := BatchedAgentPayload(id, [payload], report, arn, now)];
        isNewKey := true;
      }
      if isNewKey {
        agentCount := |entries|;
        if oldest.None? {
          oldest := Some(now);
        }
      }
    }

    /** `batch_all_payloads` of the event loop: one add per payload, each with the same report. */
    method BatchAllPayloads(id: string, payloads: seq<Payload>, report: Option<Report>, arn: string, now: int)
      requires Valid()
      modifies this
      ensures Valid() && entries == AllAdded(old(entries), id, payloads, report, arn, now)
    {
      for i := 0 to |payloads|
        invariant Valid() && entries == AllAdded(old(entries), id, payloads[..i], report, arn, now)
      {
        assert payloads[..i + 1][..i] == payloads[..i];
        AddToBatch(id, payloads[i], report, arn, now);
      }
      assert payloads[..|payloads|] == payloads;
    }

    /** The telemetry listener's match of a report with an already batched payload. */
    method AttachReport(id: string, report: Report) returns (matched: bool)
      requires Valid()
      modifies this
      ensures Valid() && log == old(log) + [Attach(id, report)]
      ensures matched == (id in old(entries)) && entries == Attached(old(entries), id, report)
    {
      Record(Attach(id, report));
      matched := id in entries;
      if matched {
        entries := entries[id := entries[id].(report := Some(report))];
      }
    }

    /** The values of a part of the map, in an arbitrary order. */
    method ListOf(part: Entries) returns (items: seq<Entry>)
      requires Keyed(part)
      ensures Lists(items, part)
    {
      items := [];
      var todo := part;
      while todo != map[]
        invariant todo.Keys <= part.Keys && forall id <- todo :: todo[id] == part[id]
        invariant |items| + |todo| == |part|
        invariant forall i :: 0 <= i < |items| ==>
          items[i].requestId in part && items[i].requestId !in todo && part[items[i].requestId] == items[i]
        invariant forall i, j :: 0 <= i < j < |items| ==> items[i].requestId != items[j].requestId
        decreases |todo|
      {
        var id :| id in todo;
        items := items + [todo[id]];
        assert (todo - {id}).Keys == todo.Keys - {id};
        todo := todo - {id};
      }
    }

    method ShouldSendByThreshold() returns (send: bool)
      ensures send <==> |set id | id in entries && entries[id].report.Some?| >= 3
    {
      var countWithReports := 0;
      var todo := entries;
      while todo != map[]
        invariant countWithReports + |WithReports(todo)| == |WithReports(entries)|
        decreases |todo|
      {
        var id :| id in todo;
        OneFewerWithReports(todo, id);
        if todo[id].report.Some? {
          countWithReports := countWithReports + 1;
        }
        todo := todo - {id};
      }
      assert WithReports(entries).Keys == set id | id in entries && entries[id].report.Some?;
      return countWithReports >= SEND_THRESHOLD;
    }

    method GetAndClearBatch() returns (items: seq<Entry>)
      requires Valid()
      modifies this
      ensures Lists(items, old(entries))
      ensures Valid() && entries == map[] && log == old(log) + [Remove(old(entries).Keys)]
    {
      items := ListOf(entries);
      Record(Remove(entries.Keys));
      assert entries - entries.Keys == map[];
      entries := map[];
      agentCount := 0;
      oldest := None;
    }

    method GetBatchWithReportsOnly() returns (items: seq<Entry>)
      requires Valid()
      ensures Lists(items, WithReports(entries))
      ensures forall id <- entries :: entries[id] in items <==> entries[id].report.Some?
    {
      items := ListOf(WithReports(entries));
      ListedExactly(items, WithReports(entries), entries);
    }

    method OldEntries(now: int) returns (items: seq<Entry>)
      requires Valid()
      ensures Lists(items, OlderThan(entries, now))
      ensures forall id <- entries :: entries[id] in items <==> now - entries[id].timestamp >= 300_000
    {
      items := ListOf(OlderThan(entries, now));
      ListedExactly(items, OlderThan(entries, now), entries);
    }

    static method MinTimestamp(entries: Entries) returns (min: Option<int>)
      ensures IsOldest(min, entries)
    {
      min := None;
      var todo := entries.Keys;
      ghost var holder := "";
      while todo != {}
        invariant todo <= entries.Keys
        invariant min.None? <==> todo == entries.Keys
        invariant min.Some? ==> holder in entries.Keys - todo && entries[holder].timestamp == min.value
        invariant min.Some? ==> forall id <- entries.Keys - todo :: min.value <= entries[id].timestamp
      {
        var id :| id in todo;
        if min.None? || entries[id].timestamp <= min.value {
          min, holder := Some(entries[id].timestamp), id;
        }
        todo := todo - {id};
      }
    }

    static method RemoveAll(entries: Entries, items: seq<Entry>) returns (rest: Entries)
      ensures rest == entries - Ids(items)
    {
      rest := entries;
      for i := 0 to |items|
        invariant rest == entries - Ids(items[..i])
      {
        IdsOfPush(items[..i], items[i]);
        assert items[..i + 1] == items[..i] + [items[i]];
        rest := rest - {items[i].requestId};
      }
      assert items[..|items|] == items;
    }

    /** Removal by key, whatever the entry holds by then, followed by the metadata update. */
    method ClearBatch(items: seq<Entry>)
      requires Valid()
      modifies this
      ensures Valid() && log == old(log) + [Remove(Ids(items))]
      ensures entries == old(entries) - Ids(items)
    {
      Record(Remove(Ids(items)));
      entries := RemoveAll(entries, items);
      UpdateMetadata();
    }

    method UpdateMetadata()
      requires log != [] && log[|log| - 1].Remove? && Replay(log).entries == entries && Keyed(entries)
      modifies this`agentCount, this`oldest
      ensures Valid()
    {
      agentCount := |entries|;
      if agentCount == 0 {
        oldest := None;
      } else {
        oldest := MinTimestamp(entries);
      }
      OldestIsUnique(oldest, Oldest(entries), entries);
    }

  }
}
