/** Cutting the payloads collected at shutdown into size-bounded chunks (src/agent/batch.rs). */
module Chunks {
  import opened Types
  import opened Cuts

  type Item = BatchedAgentPayload
  type Chunk = seq<Item>

  const EVENT_OVERHEAD := 150
  const BASE_OVERHEAD := 500

  // ---- Log events of an item -------------------------------------------------------------

  function AgentEvents(item: Item, payloads: seq<Payload>): seq<LogEvent> {
    seq(|payloads|, i requires 0 <= i < |payloads| => AgentEvent(item.requestId, payloads[i], item.timestamp))
  }

  function ReportEvents(item: Item): seq<LogEvent> {
    if item.report.Some? then [ReportEvent(item.requestId, item.report.value, item.timestamp)] else []
  }

  function LogEvents(item: Item): seq<LogEvent> {
    AgentEvents(item, item.payloads) + ReportEvents(item)
  }

  method PushAgentLogEvents(logEvents: seq<LogEvent>, item: Item) returns (pushed: seq<LogEvent>)
    ensures pushed == logEvents + LogEvents(item)
    ensures |pushed| == |logEvents| + |item.payloads| + if item.report.Some? then 1 else 0
    ensures forall i :: 0 <= i < |item.payloads| ==>
      pushed[|logEvents| + i] == AgentEvent(item.requestId, item.payloads[i], item.timestamp)
    ensures item.report.Some? ==>
      pushed[|pushed| - 1] == ReportEvent(item.requestId, item.report.value, item.timestamp)
  {
    pushed := logEvents;
    for i := 0 to |item.payloads|
      invariant pushed == logEvents + AgentEvents(item, item.payloads[..i])
    {
      pushed := pushed + [AgentEvent(item.requestId, item.payloads[i], item.timestamp)];
    }
    assert item.payloads[..|item.payloads|] == item.payloads;
    if item.report.Some? {
      pushed := pushed + [ReportEvent(item.requestId, item.report.value, item.timestamp)];
    }
  }

  function EventsOf(items: seq<Item>): seq<LogEvent> {
    if items == [] then [] else EventsOf(items[..|items| - 1]) + LogEvents(items[|items| - 1])
  }

  lemma EventsOfConcat(a: seq<Item>, b: seq<Item>)
    ensures EventsOf(a + b) == EventsOf(a) + EventsOf(b)
  {
    hide LogEvents;
    if b == [] {
      assert a + b == a;
    } else {
      assert (a + b)[..|a + b| - 1] == a + b[..|b| - 1];
      EventsOfConcat(a, b[..|b| - 1]);
    }
  }

  // ---- Estimated sizes -------------------------------------------------------------------

  function EventBytes(event: LogEvent): nat {
    match event
    case AgentEvent(_, payload, _) => |payload.bytes|
    case ReportEvent(_, report, _) => |report.line|
    case VersionEvent(_, line, _) => |line|
  }

  function TotalEventBytes(events: seq<LogEvent>): nat {
    if events == [] then 0
    else TotalEventBytes(events[..|events| - 1]) + EventBytes(events[|events| - 1])
  }

  function PayloadSizes(payloads: seq<Payload>): nat {
    if payloads == [] then 0
    else PayloadSizes(payloads[..|payloads| - 1]) + |payloads[|payloads| - 1].bytes| + EVENT_OVERHEAD
  }

  function ItemSize(item: Item): nat {
    PayloadSizes(item.payloads) + if item.report.Some? then |item.report.value.line| + EVENT_OVERHEAD else 0
  }

  /** The estimate charges each log event of the item its own bytes and a fixed overhead. */
  lemma {:induction false} ItemSizeChargesEvents(item: Item)
    ensures ItemSize(item) == TotalEventBytes(LogEvents(item)) + 150 * |LogEvents(item)|
  {
    AgentSizes(item, item.payloads);
    if item.report.Some? {
      assert LogEvents(item)[..|item.payloads|] == AgentEvents(item, item.payloads);
    } else {
      assert LogEvents(item) == AgentEvents(item, item.payloads);
    }
  }

  /** Each payload is charged its bytes and 150, and so is the report. */
  lemma ItemSizeOneMore(item: Item, payload: Payload, report: Report)
    ensures ItemSize(item.(payloads := [], report := None)) == 0
    ensures ItemSize(item.(payloads := item.payloads + [payload])) == ItemSize(item) + |payload.bytes| + 150
    ensures item.report.None? ==> ItemSize(item.(report := Some(report))) == ItemSize(item) + |report.line| + 150
  {
    assert (item.payloads + [payload])[..|item.payloads|] == item.payloads;
  }

  lemma {:induction false} AgentSizes(item: Item, payloads: seq<Payload>)
    ensures PayloadSizes(payloads) == TotalEventBytes(AgentEvents(item, payloads)) + EVENT_OVERHEAD * |payloads|
  {
    if payloads != [] {
      var init := payloads[..|payloads| - 1];
      AgentSizes(item, init);
      assert AgentEvents(item, payloads)[..|init|] == AgentEvents(item, init);
    }
  }

  method EstimateItemSize(item: Item) returns (size: nat)
    ensures size == ItemSize(item)
  {
    size := 0;
    for i := 0 to |item.payloads|
      invariant size == PayloadSizes(item.payloads[..i])
    {
      assert item.payloads[..i + 1][..i] == item.payloads[..i];
      size := size + |item.payloads[i].bytes|;
      size := size + EVENT_OVERHEAD;
    }
    assert item.payloads[..|item.payloads|] == item.payloads;
    if item.report.Some? {
      size := size + |item.report.value.line|;
      size := size + EVENT_OVERHEAD;
    }
  }

  function EstimateBaseOverhead(functionName: seq<Byte>): nat {
    BASE_OVERHEAD + |functionName| * 3
  }

  /**
   * The loop of `split_into_chunks`. `Cuts.GreedyCutIsOptimal` shows that what it returns is a legal
   * cut of the input and that no legal cut into contiguous runs has fewer chunks.
   */
  method SplitIntoChunks(payloads: seq<Item>, maxSize: nat, functionName: seq<Byte>) returns (chunks: seq<Chunk>)
    ensures chunks == GreedyCut(payloads, ItemSize, maxSize - EstimateBaseOverhead(functionName))
    ensures chunks == GreedyCut(payloads, ItemSize, maxSize - (500 + 3 * |functionName|))
  {
    hide GreedyRuns, TotalSize, ItemSize;
    GreedyRunsOfNone<Item>(ItemSize, maxSize - EstimateBaseOverhead(functionName));
    chunks := [];
    var currentChunk: Chunk := [];
    var currentSize := 0;
    var baseOverhead := EstimateBaseOverhead(functionName);
    for i := 0 to |payloads|
      invariant currentSize == TotalSize(currentChunk, ItemSize)
      invariant (chunks, currentChunk) == GreedyRuns(payloads[..i], ItemSize, maxSize - baseOverhead)
    {
      GreedyRunsOfPush(payloads, i, ItemSize, maxSize - baseOverhead);
      var payloadItem := payloads[i];
      var itemSize := EstimateItemSize(payloadItem);
      if currentSize + itemSize + baseOverhead > maxSize && currentChunk != [] {
        chunks := chunks + [currentChunk];
        currentChunk := [];
        currentSize := 0;
      }
      assert [] + [payloadItem] == [payloadItem];
      SizeOfPush(currentChunk, payloadItem, ItemSize);
      currentChunk := currentChunk + [payloadItem];
      currentSize := currentSize + itemSize;
    }
    if currentChunk != [] {
      chunks := chunks + [currentChunk];
    }
    assert payloads[..|payloads|] == payloads;
  }

  function ChunkEvents(chunks: seq<Chunk>): seq<LogEvent> {
    if chunks == [] then [] else ChunkEvents(chunks[..|chunks| - 1]) + EventsOf(chunks[|chunks| - 1])
  }

  /** The log events of all chunks, in sending order, are those of the collected items in order. */
  lemma {:induction false} ChunksKeepEvents(chunks: seq<Chunk>, items: seq<Item>, room: int)
    requires LegalCut(chunks, items, ItemSize, room)
    ensures ChunkEvents(chunks) == EventsOf(items)
  {
    if chunks != [] {
      var init, last := chunks[..|chunks| - 1], chunks[|chunks| - 1];
      ChunksKeepEvents(init, Flatten(init), room);
      EventsOfConcat(Flatten(init), last);
    }
  }
}
