/**
 * The serverless delivery machine: where every agent payload and report sits between arriving on
 * the pipe and leaving for New Relic (src/agent/batch.rs, src/event_loop.rs, src/request/mod.rs,
 * src/telemetry/listener.rs).
 *
 * The runtime is single-threaded, so what an async function does between two `.await` points is one
 * event here, and what it holds while suspended is a task. A suspended task may be resumed at any
 * time, so a run of events is any interleaving. Payload trace extraction suspends only when trace
 * collection is on; allowing the suspension always covers both settings.
 */
module Serverless {
  import opened Types
  import opened Batch
  import opened Bags
  import Cuts
  import Chunks

  datatype Config = Config(synchronousFlush: bool, functionName: seq<Byte>)

  const MAX_CHUNK_SIZE := 1_000_000

  datatype Request = Request(buffer: seq<Payload>, report: Option<Report>, arn: string)

  datatype Task =
    | Routing(id: string, payload: Payload, active: bool)
    | Processing(id: string, arn: string, payloads: seq<Payload>)
    | Pairing(id: string, arn: string, report: Report, remaining: seq<Payload>)
    | ImmediateSend(id: string, arn: string, remaining: seq<Payload>)
    | BatchSend(snapshot: Entries)
    | Sweep(snapshot: Entries)
    | ShutdownSend(chunks: seq<seq<Entry>>)
    | StaleSend(id: string, remaining: seq<Payload>)

  datatype Event =
    | Activate(id: string)
    | CreateRequest(id: string, arn: string)
    | Arrive(bytes: seq<Byte>, late: string)
    | Route(task: nat, fallbackArn: string)
    | ReportArrives(report: Report, fallbackArn: string)
    | DrainCandidate(current: string, id: string, fallbackArn: string)
    | PairNext(task: nat, now: int)
    | ProcessTake(id: string, arn: string)
    | ProcessFinish(task: nat, now: int)
    | ImmediateDone(task: nat, ok: bool, now: int)
    | StartBatchSend
    | StartSweep(now: int)
    | SnapshotDone(task: nat, ok: bool)
    | CollectAtShutdown(items: seq<Entry>, order: seq<string>, fallbackArn: string, now: int)
    | ChunkDone(task: nat, ok: bool)
    | StartStale(id: string)
    | StaleDone(task: nat, ok: bool)

  /**
   * A payload batched under `key` at event `batched`, removed at event `until` by the task that event `since`
   * started.
   */
  datatype Span = Span(key: string, since: nat, batched: nat, until: nat)

  datatype State = State(
    requests: map<string, Request>,
    orphans: seq<Payload>,
    active: Option<string>,
    batch: Entries,
    tasks: map<nat, Task>,
    clock: nat,
    // History: what arrived, the request each payload was filed under, when it was last batched.
    arrived: seq<Payload>,
    filed: map<nat, string>,
    batchedAt: map<nat, nat>,
    // History: payloads that left for good, by the way they left.
    settled: multiset<Payload>,
    late: multiset<Payload>,
    failedSweep: multiset<Payload>,
    failedChunk: multiset<Payload>,
    failedStale: multiset<Payload>,
    unrouted: multiset<Payload>,
    discarded: multiset<Payload>,
    // History: serials sent at least once, and why each late payload was lost.
    delivered: set<nat>,
    lateWhy: set<(nat, Span)>)

  const INITIAL :=
    State(map[], [], None, map[], map[], 0, [], map[], map[],
          multiset{}, multiset{}, multiset{}, multiset{}, multiset{}, multiset{}, multiset{}, {}, {})

  // ---- Helpers ---------------------------------------------------------------------------

  function Buffered(request: Request): seq<Payload> { request.buffer }

  function Carried(entry: Entry): seq<Payload> { entry.payloads }

  function CarriedBy(items: seq<Entry>): seq<Payload> {
    if items == [] then [] else CarriedBy(items[..|items| - 1]) + items[|items| - 1].payloads
  }

  /** The payloads only this task holds; a snapshot is a copy and holds none. */
  function Held(task: Task): seq<Payload> {
    match task
    case Routing(_, payload, _) => [payload]
    case Processing(_, _, payloads) => payloads
    case Pairing(_, _, _, remaining) => remaining
    case ImmediateSend(_, _, remaining) => remaining
    case BatchSend(_) => []
    case Sweep(_) => []
    case ShutdownSend(chunks) => CarriedBy(Cuts.Flatten(chunks))
    case StaleSend(_, remaining) => remaining
  }

  function Among(payloads: seq<Payload>, known: seq<Payload>): seq<Payload> {
    if payloads == [] then []
    else
      var last := payloads[|payloads| - 1];
      if last in known then Among(payloads[..|payloads| - 1], known) + [last]
      else Among(payloads[..|payloads| - 1], known)
  }

  function NotAmong(payloads: seq<Payload>, known: seq<Payload>): seq<Payload> {
    if payloads == [] then []
    else
      var last := payloads[|payloads| - 1];
      if last in known then NotAmong(payloads[..|payloads| - 1], known)
      else NotAmong(payloads[..|payloads| - 1], known) + [last]
  }

  function Itself(payloads: seq<Payload>): seq<Payload> { payloads }

  function Serials(payloads: seq<Payload>): set<nat> {
    set p | p in payloads :: p.serial
  }

  function SnapshotSerials(snapshot: Entries): set<nat> {
    set id, p | id in snapshot && p in snapshot[id].payloads :: p.serial
  }

  function Marked<V>(history: map<nat, V>, payloads: seq<Payload>, v: V): map<nat, V> {
    history + map n | n in Serials(payloads) :: v
  }

  /** `create_request_processing_state` records the ARN; an empty one falls back to the registration's. */
  function ArnOf(requests: map<string, Request>, id: string, fallbackArn: string): (arn: string)
    ensures id in requests && requests[id].arn != "" ==> arn == requests[id].arn
    ensures id !in requests || requests[id].arn == "" ==> arn == fallbackArn
  {
    if id in requests && requests[id].arn != "" then requests[id].arn else fallbackArn
  }

  function Batched(s: State, id: string, payloads: seq<Payload>, report: Option<Report>, arn: string, now: int): State {
    s.(batch := AllAdded(s.batch, id, payloads, report, arn, now),
       batchedAt := Marked(s.batchedAt, payloads, s.clock))
  }

  function Spawned(s: State, task: Task): State {
    s.(tasks := s.tasks[s.clock := task])
  }

  function Ended(s: State, task: nat): State {
    s.(tasks := s.tasks - {task})
  }

  /** An event starts at most one task, numbered by the clock, and logs at most one arrival, numbered in order. */
  ghost predicate KeepsBooks(s: State, after: State) {
    && after.clock == s.clock && after.tasks.Keys <= s.tasks.Keys + {s.clock}
    && (after.arrived == s.arrived ||
        exists bytes :: after.arrived == s.arrived + [Payload(|s.arrived|, bytes)])
  }

  /** Nothing leaves the machine and nothing is sent. */
  ghost predicate LeavesNothing(s: State, after: State) {
    && after.settled == s.settled && after.late == s.late && after.failedSweep == s.failedSweep
    && after.failedChunk == s.failedChunk && after.failedStale == s.failedStale
    && after.unrouted == s.unrouted && after.discarded == s.discarded
    && after.delivered == s.delivered && after.lateWhy == s.lateWhy
  }

  /** No entry leaves the batch and no shutdown chunk its task. */
  ghost predicate RemovesNothing(s: State, after: State) {
    && s.batch.Keys <= after.batch.Keys
    && forall t <- s.tasks :: s.tasks[t].ShutdownSend? && t != s.clock ==>
         t in after.tasks && after.tasks[t] == s.tasks[t]
  }

  // ---- Events ----------------------------------------------------------------------------

  /**
   * `create_request_processing_state`: the request adopts the orphans. An id that is created again, as when an
   * asynchronous invocation is retried, starts over: its old buffer and report are discarded.
   */
  function Create(s: State, id: string, arn: string): (after: State)
    ensures KeepsBooks(s, after) && RemovesNothing(s, after)
  {
    s.(requests := s.requests[id := Request(s.orphans, None, arn)],
       orphans := [],
       filed := Marked(s.filed, s.orphans, id),
       discarded := s.discarded + multiset(if id in s.requests then s.requests[id].buffer else []))
  }

  predicate CanArrive(s: State, late: string) {
    s.active.None? && s.requests != map[] ==> late in s.requests
  }

  /**
   * `route_payload_to_active_request` up to its first suspension. With no active request the
   * payload goes to whichever request the map yields first, named by `late`; with no request at
   * all it is an orphan.
   */
  function ArriveOnPipe(s: State, bytes: seq<Byte>, late: string): (after: State)
    requires CanArrive(s, late)
    ensures KeepsBooks(s, after) && LeavesNothing(s, after) && RemovesNothing(s, after)
  {
    var payload := Payload(|s.arrived|, bytes);
    var s := s.(arrived := s.arrived + [payload]);
    if s.active.Some? then
      Spawned(s, Routing(s.active.value, payload, true)).(filed := s.filed[payload.serial := s.active.value])
    else if late in s.requests then
      Spawned(s, Routing(late, payload, false)).(filed := s.filed[payload.serial := late])
    else s.(orphans := s.orphans + [payload])
  }

  /** The rest of the route: immediate send, push to the request's buffer, or "payload lost". */
  function RouteOn(cfg: Config, s: State, t: nat, fallbackArn: string): (after: State)
    ensures KeepsBooks(s, after) && RemovesNothing(s, after)
  {
    if t in s.tasks && s.tasks[t].Routing? then
      var task := s.tasks[t];
      if task.active && cfg.synchronousFlush then
        Spawned(Ended(s, t), ImmediateSend(task.id, ArnOf(s.requests, task.id, fallbackArn), [task.payload]))
      else if task.id in s.requests then
        var request := s.requests[task.id];
        Ended(s, t).(requests := s.requests[task.id := request.(buffer := request.buffer + [task.payload])])
      else
        Ended(s, t).(unrouted := s.unrouted + multiset{task.payload})
    else s
  }

  /** The listener's `platform.report` handler in standard mode. */
  function ReportIn(s: State, report: Report, fallbackArn: string): (after: State)
    ensures KeepsBooks(s, after) && LeavesNothing(s, after)
  {
    var id := report.requestId;
    if id in s.batch then s.(batch := Attached(s.batch, id, report))
    else if id in s.requests then
      var request := s.requests[id];
      if request.buffer == [] then
        s.(requests := s.requests[id := request.(report := Some(report))])
      else
        Spawned(s, Pairing(id, ArnOf(s.requests, id, fallbackArn), report, request.buffer))
          .(requests := s.requests[id := request.(buffer := [])])
    else s
  }

  /** One candidate of `drain_late_paired_payloads_serverless`. */
  function DrainOne(s: State, current: string, id: string, fallbackArn: string): (after: State)
    ensures KeepsBooks(s, after) && LeavesNothing(s, after) && RemovesNothing(s, after)
  {
    if id != current && id in s.requests && s.requests[id].report.Some? then
      var request := s.requests[id];
      if request.buffer == [] then s   // the report is taken and put back in one piece
      else
        Spawned(s, Pairing(id, ArnOf(s.requests, id, fallbackArn), request.report.value, request.buffer))
          .(requests := s.requests[id := request.(buffer := [], report := None)])
    else s
  }

  /** One `add_to_batch` of a payload paired by the listener or the drain. */
  function PairOne(s: State, t: nat, now: int): (after: State)
    ensures KeepsBooks(s, after) && LeavesNothing(s, after)
  {
    if t in s.tasks && s.tasks[t].Pairing? then
      var task := s.tasks[t];
      if task.remaining == [] then Ended(s, t)
      else
        Batched(s, task.id, [task.remaining[0]], Some(task.report), task.arn, now)
          .(tasks := s.tasks[t := Pairing(task.id, task.arn, task.report, task.remaining[1..])])
    else s
  }

  /** `process_request_concurrently` up to trace extraction; with an empty buffer it changes nothing. */
  function Take(s: State, id: string, arn: string): (after: State)
    ensures KeepsBooks(s, after) && LeavesNothing(s, after) && RemovesNothing(s, after)
  {
    if id in s.requests && s.requests[id].buffer != [] then
      Spawned(s, Processing(id, arn, s.requests[id].buffer))
        .(requests := s.requests[id := s.requests[id].(buffer := [])])
    else s
  }

  /** The deferred decision: pair the payloads with a pending report, or put them back. */
  function PairOrPutBack(s: State, t: nat, now: int): (after: State)
    requires t in s.tasks && s.tasks[t].Processing? && s.tasks[t].id in s.requests
    ensures KeepsBooks(s, after)
  {
    var task := s.tasks[t];
    var request := s.requests[task.id];
    if request.report.Some? then
      Ended(Batched(s, task.id, task.payloads, request.report, task.arn, now), t)
        .(requests := s.requests[task.id := request.(report := None)])
    else
      Ended(s, t).(requests := s.requests[task.id := request.(buffer := request.buffer + task.payloads)])
  }

  /**
   * Its send decision once payloads are in hand. The stale-request cleanup may have removed the request by then;
   * payloads that are neither sent nor paired then have no buffer to go back to.
   */
  function Decide(cfg: Config, s: State, t: nat, now: int): (after: State)
    ensures KeepsBooks(s, after)
  {
    if t in s.tasks && s.tasks[t].Processing? then
      var task := s.tasks[t];
      if task.payloads == [] then Ended(s, t)
      else if cfg.synchronousFlush then
        Spawned(Ended(s, t), ImmediateSend(task.id, task.arn, task.payloads))
      else if task.id !in s.requests then
        Ended(s, t).(unrouted := s.unrouted + multiset(task.payloads))
      else PairOrPutBack(s, t, now)
    else s
  }

  /** One send of `spawn_immediate_agent_payload_sends`; a failed payload is batched unpaired. */
  function ImmediateOne(s: State, t: nat, ok: bool, now: int): (after: State)
    ensures KeepsBooks(s, after)
  {
    if t in s.tasks && s.tasks[t].ImmediateSend? then
      var task := s.tasks[t];
      if task.remaining == [] then Ended(s, t)
      else
        var payload := task.remaining[0];
        var s := s.(tasks := s.tasks[t := ImmediateSend(task.id, task.arn, task.remaining[1..])]);
        if ok then s.(settled := s.settled + multiset{payload}, delivered := s.delivered + {payload.serial})
        else Batched(s, task.id, [payload], None, task.arn, now)
    else s
  }

  function SendSnapshot(s: State): (after: State)
    ensures KeepsBooks(s, after) && LeavesNothing(s, after) && RemovesNothing(s, after)
  {
    if |WithReports(s.batch)| == 0 then s else Spawned(s, BatchSend(WithReports(s.batch)))
  }

  function SweepSnapshot(s: State, now: int): (after: State)
    ensures KeepsBooks(s, after) && LeavesNothing(s, after) && RemovesNothing(s, after)
  {
    if |OlderThan(s.batch, now)| == 0 then s else Spawned(s, Sweep(OlderThan(s.batch, now)))
  }

  function Seen(batch: Entries, snapshot: Entries): map<string, seq<Payload>> {
    map id | id in batch && id in snapshot :: Among(batch[id].payloads, snapshot[id].payloads)
  }

  function Unseen(batch: Entries, snapshot: Entries): map<string, seq<Payload>> {
    map id | id in batch && id in snapshot :: NotAmong(batch[id].payloads, snapshot[id].payloads)
  }

  /** The keys of the snapshot are removed, whatever their entries hold by now. */
  ghost function Removed(s: State, t: nat, snapshot: Entries, ok: bool): (after: State)
    ensures KeepsBooks(s, after)
  {
    var seen := Bag(Seen(s.batch, snapshot), Itself);
    s.(batch := s.batch - snapshot.Keys,
       settled := if ok then s.settled + seen else s.settled,
       failedSweep := if ok then s.failedSweep else s.failedSweep + seen,
       late := s.late + Bag(Unseen(s.batch, snapshot), Itself),
       lateWhy := s.lateWhy + LateNow(s, snapshot, t))
  }

  /** The payloads now removed unseen, each with the reason. */
  function LateNow(s: State, snapshot: Entries, t: nat): set<(nat, Span)> {
    set id, p | id in s.batch && id in snapshot && p in NotAmong(s.batch[id].payloads, snapshot[id].payloads)
      :: (p.serial, Span(id, t, if p.serial in s.batchedAt then s.batchedAt[p.serial] else 0, s.clock))
  }

  /** A batch send removes its snapshot only on success, the five-minute sweep in either case. */
  ghost function SnapshotSent(s: State, t: nat, ok: bool): (after: State)
    ensures KeepsBooks(s, after)
  {
    if t in s.tasks && (s.tasks[t].BatchSend? || s.tasks[t].Sweep?) then
      var task := s.tasks[t];
      var s := Ended(s, t);
      var s := if ok then s.(delivered := s.delivered + SnapshotSerials(task.snapshot)) else s;
      if ok || task.Sweep? then Removed(s, t, task.snapshot, ok) else s
    else s
  }

  /** One shutdown item per unbatched payload, each with the request's report if it had one. */
  function ItemsOf(id: string, arn: string, report: Option<Report>, payloads: seq<Payload>, now: int): seq<Entry> {
    seq(|payloads|, i requires 0 <= i < |payloads| => BatchedAgentPayload(id, [payloads[i]], report, arn, now))
  }

  function BufferItems(requests: map<string, Request>, order: seq<string>, fallbackArn: string, now: int): seq<Entry>
    requires forall id <- order :: id in requests
  {
    if order == [] then []
    else
      var id := order[|order| - 1];
      BufferItems(requests, order[..|order| - 1], fallbackArn, now)
        + ItemsOf(id, ArnOf(requests, id, fallbackArn), requests[id].report, requests[id].buffer, now)
  }

  function Drained(request: Request): Request {
    if request.buffer == [] then request else request.(buffer := [], report := None)
  }

  ghost predicate ListsKeys(order: seq<string>, requests: map<string, Request>) {
    && (forall id :: id in order <==> id in requests)
    && forall i, j :: 0 <= i < j < |order| ==> order[i] != order[j]
  }

  function RoomFor(cfg: Config): int {
    MAX_CHUNK_SIZE - Chunks.EstimateBaseOverhead(cfg.functionName)
  }

  /** What `Chunks.SplitIntoChunks` returns for these items. */
  function ChunksOf(cfg: Config, items: seq<Entry>): seq<seq<Entry>> {
    Cuts.GreedyCut(items, Chunks.ItemSize, RoomFor(cfg))
  }

  /** The collecting half of `send_all_pending_payloads_on_shutdown`, then the cut into chunks. */
  ghost function Collect(cfg: Config, s: State, items: seq<Entry>, order: seq<string>, fallbackArn: string,
                         now: int): (after: State)
    ensures KeepsBooks(s, after) && LeavesNothing(s, after)
  {
    if Lists(items, s.batch) && ListsKeys(order, s.requests) then
      var all := items + BufferItems(s.requests, order, fallbackArn, now);
      Spawned(s, ShutdownSend(ChunksOf(cfg, all)))
        .(batch := map[], requests := map id | id in s.requests :: Drained(s.requests[id]))
    else s
  }

  function ChunkSent(s: State, t: nat, ok: bool): (after: State)
    ensures KeepsBooks(s, after) && after.requests == s.requests && after.filed == s.filed
    ensures after.batch == s.batch && after.batchedAt == s.batchedAt
  {
    if t in s.tasks && s.tasks[t].ShutdownSend? then
      var chunks := s.tasks[t].chunks;
      if chunks == [] then Ended(s, t)
      else
        var payloads := CarriedBy(chunks[0]);
        var s := s.(tasks := s.tasks[t := ShutdownSend(chunks[1..])]);
        if ok then s.(settled := s.settled + multiset(payloads), delivered := s.delivered + Serials(payloads))
        else s.(failedChunk := s.failedChunk + multiset(payloads))
    else s
  }

  /** `cleanup_old_request_buffers` takes what a stale request still has. */
  function TakeStale(s: State, id: string): (after: State)
    ensures KeepsBooks(s, after) && LeavesNothing(s, after) && RemovesNothing(s, after)
  {
    if id in s.requests then
      Spawned(s, StaleSend(id, s.requests[id].buffer)).(requests := s.requests[id := s.requests[id].(buffer := [])])
    else s
  }

  /** It sends the payloads one by one, whether or not they arrive, and then removes the request with all it holds. */
  function StaleOne(s: State, t: nat, ok: bool): (after: State)
    ensures KeepsBooks(s, after) && RemovesNothing(s, after)
  {
    if t in s.tasks && s.tasks[t].StaleSend? then
      var task := s.tasks[t];
      if task.remaining == [] then
        Ended(s, t).(
          requests := s.requests - {task.id},
          discarded := s.discarded + multiset(if task.id in s.requests then s.requests[task.id].buffer else []))
      else
        var payload := task.remaining[0];
        var s := s.(tasks := s.tasks[t := StaleSend(task.id, task.remaining[1..])]);
        if ok then s.(settled := s.settled + multiset{payload}, delivered := s.delivered + {payload.serial})
        else s.(failedStale := s.failedStale + multiset{payload})
    else s
  }

  ghost function Effect(cfg: Config, s: State, e: Event): (after: State)
    ensures KeepsBooks(s, after)
  {
    match e
    case Activate(id) => s.(active := Some(id))
    case CreateRequest(id, arn) => Create(s, id, arn)
    case Arrive(bytes, late) =>
      if CanArrive(s, late) then ArriveOnPipe(s, bytes, late) else s
    case Route(t, fallbackArn) => RouteOn(cfg, s, t, fallbackArn)
    case ReportArrives(report, fallbackArn) => ReportIn(s, report, fallbackArn)
    case DrainCandidate(current, id, fallbackArn) => DrainOne(s, current, id, fallbackArn)
    case PairNext(t, now) => PairOne(s, t, now)
    case ProcessTake(id, arn) => Take(s, id, arn)
    case ProcessFinish(t, now) => Decide(cfg, s, t, now)
    case ImmediateDone(t, ok, now) => ImmediateOne(s, t, ok, now)
    case StartBatchSend => SendSnapshot(s)
    case StartSweep(now) => SweepSnapshot(s, now)
    case SnapshotDone(t, ok) => SnapshotSent(s, t, ok)
    case CollectAtShutdown(items, order, fallbackArn, now) => Collect(cfg, s, items, order, fallbackArn, now)
    case ChunkDone(t, ok) => ChunkSent(s, t, ok)
    case StartStale(id) => TakeStale(s, id)
    case StaleDone(t, ok) => StaleOne(s, t, ok)
  }

  /** An event that does not apply in `s` changes nothing; the clock counts every event. */
  ghost function Step(cfg: Config, s: State, e: Event): State {
    Effect(cfg, s, e).(clock := s.clock + 1)
  }

  /** One event at a time: lets a proof about `Step` look at one effect and hide the others. */
  lemma StepIs(cfg: Config, s: State, e: Event)
    ensures Step(cfg, s, e) == Effect(cfg, s, e).(clock := s.clock + 1)
    ensures e.Activate? ==> Effect(cfg, s, e) == s.(active := Some(e.id))
    ensures e.CreateRequest? ==> Effect(cfg, s, e) == Create(s, e.id, e.arn)
    ensures e.Arrive? ==> Effect(cfg, s, e) == if CanArrive(s, e.late) then ArriveOnPipe(s, e.bytes, e.late) else s
    ensures e.Route? ==> Effect(cfg, s, e) == RouteOn(cfg, s, e.task, e.fallbackArn)
    ensures e.ReportArrives? ==> Effect(cfg, s, e) == ReportIn(s, e.report, e.fallbackArn)
    ensures e.DrainCandidate? ==> Effect(cfg, s, e) == DrainOne(s, e.current, e.id, e.fallbackArn)
    ensures e.PairNext? ==> Effect(cfg, s, e) == PairOne(s, e.task, e.now)
    ensures e.ProcessTake? ==> Effect(cfg, s, e) == Take(s, e.id, e.arn)
    ensures e.ProcessFinish? ==> Effect(cfg, s, e) == Decide(cfg, s, e.task, e.now)
    ensures e.ImmediateDone? ==> Effect(cfg, s, e) == ImmediateOne(s, e.task, e.ok, e.now)
    ensures e.StartBatchSend? ==> Effect(cfg, s, e) == SendSnapshot(s)
    ensures e.StartSweep? ==> Effect(cfg, s, e) == SweepSnapshot(s, e.now)
    ensures e.SnapshotDone? ==> Effect(cfg, s, e) == SnapshotSent(s, e.task, e.ok)
    ensures e.CollectAtShutdown? ==> Effect(cfg, s, e) == Collect(cfg, s, e.items, e.order, e.fallbackArn, e.now)
    ensures e.ChunkDone? ==> Effect(cfg, s, e) == ChunkSent(s, e.task, e.ok)
    ensures e.StartStale? ==> Effect(cfg, s, e) == TakeStale(s, e.id)
    ensures e.StaleDone? ==> Effect(cfg, s, e) == StaleOne(s, e.task, e.ok)
  {
    hide CanArrive, ArriveOnPipe, Create, RouteOn, ReportIn, DrainOne, PairOne, Take, Decide, ImmediateOne,
         SendSnapshot, SweepSnapshot, SnapshotSent, Collect, ChunkSent, TakeStale, StaleOne;
  }

  ghost function Run(cfg: Config, events: seq<Event>): State {
    if events == [] then INITIAL else Step(cfg, Run(cfg, events[..|events| - 1]), events[|events| - 1])
  }
}
