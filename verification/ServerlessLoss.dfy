/** When exactly a payload can leave the serverless machine undelivered. */
module ServerlessLoss {
  import opened Types
  import opened Batch
  import opened Bags
  import opened Serverless

  // ---- What an event does to the batch, the snapshots and the loss histories -------------

  predicate IsSnapshot(task: Task) {
    task.BatchSend? || task.Sweep?
  }

  ghost predicate SnapshotsKept(s: State, after: State) {
    forall t <- after.tasks :: IsSnapshot(after.tasks[t]) ==> t in s.tasks && s.tasks[t] == after.tasks[t]
  }

  ghost predicate LateKept(s: State, after: State) {
    after.late == s.late && after.lateWhy == s.lateWhy && after.failedSweep == s.failedSweep
  }

  /** `payloads` were batched under `id`. */
  ghost predicate Adds(s: State, batch: Entries, batchedAt: map<nat, nat>, id: string, payloads: seq<Payload>) {
    && (forall k <- batch :: k != id ==> k in s.batch && batch[k].payloads == s.batch[k].payloads)
    && (id in batch ==> batch[id].payloads == (if id in s.batch then s.batch[id].payloads else []) + payloads)
    && (payloads == [] && id in batch ==> id in s.batch)
    && batchedAt == Marked(s.batchedAt, payloads, s.clock)
  }

  ghost predicate Grows(s: State, after: State, id: string, payloads: seq<Payload>) {
    Adds(s, after.batch, after.batchedAt, id, payloads) && SnapshotsKept(s, after) && LateKept(s, after)
  }

  /** What the task started by `e` in `s` would have as its snapshot. */
  function SnapshotBy(s: State, e: Event): Entries {
    match e
    case StartBatchSend => WithReports(s.batch)
    case StartSweep(now) => OlderThan(s.batch, now)
    case _ => map[]
  }

  predicate TakesSnapshot(e: Event) {
    e.StartBatchSend? || e.StartSweep?
  }

  /** The task such an event starts. */
  function SnapshotTask(s: State, e: Event): Task {
    if e.StartSweep? then Sweep(SnapshotBy(s, e)) else BatchSend(SnapshotBy(s, e))
  }

  ghost predicate StartsSnapshot(s: State, after: State, task: Task) {
    && after.batch == s.batch && after.batchedAt == s.batchedAt && LateKept(s, after)
    && (forall t <- after.tasks :: IsSnapshot(after.tasks[t]) ==>
          (t in s.tasks && s.tasks[t] == after.tasks[t]) || (t == s.clock && after.tasks[t] == task))
  }

  /** The request and payloads an event batches; none for most events. */
  function AddedBy(cfg: Config, s: State, e: Event): (string, seq<Payload>) {
    match e
    case PairNext(t, _) =>
      if t in s.tasks && s.tasks[t].Pairing? && s.tasks[t].remaining != []
      then (s.tasks[t].id, [s.tasks[t].remaining[0]])
      else ("", [])
    case ProcessFinish(t, _) =>
      if t in s.tasks && s.tasks[t].Processing? && s.tasks[t].id in s.requests && !cfg.synchronousFlush
         && s.requests[s.tasks[t].id].report.Some? && s.tasks[t].payloads != []
      then (s.tasks[t].id, s.tasks[t].payloads)
      else ("", [])
    case ImmediateDone(t, ok, _) =>
      if t in s.tasks && s.tasks[t].ImmediateSend? && s.tasks[t].remaining != [] && !ok
      then (s.tasks[t].id, [s.tasks[t].remaining[0]])
      else ("", [])
    case _ => ("", [])
  }

  lemma AddsNothing(s: State)
    ensures Adds(s, s.batch, s.batchedAt, "", [])
  {
  }

  lemma BatchedAdds(s: State, id: string, payloads: seq<Payload>, report: Option<Report>, arn: string, now: int)
    ensures var after := Batched(s, id, payloads, report, arn, now);
      Adds(s, after.batch, after.batchedAt, id, payloads)
  {
    AllAddedPayloads(s.batch, id, payloads, report, arn, now);
    hide AllAdded, Marked;
  }

  lemma PairGrows(cfg: Config, s: State, e: Event)
    requires e.PairNext?
    ensures var (id, payloads) := AddedBy(cfg, s, e);
      Grows(s, PairOne(s, e.task, e.now), id, payloads)
  {
    hide Adds, AllAdded, Marked, KeepsBooks;
    var t := e.task;
    AddsNothing(s);
    if t in s.tasks && s.tasks[t].Pairing? && s.tasks[t].remaining != [] {
      var task := s.tasks[t];
      BatchedAdds(s, task.id, [task.remaining[0]], Some(task.report), task.arn, e.now);
    }
  }

  lemma PutBackKeepsSnapshots(s: State, t: nat, now: int)
    requires t in s.tasks && s.tasks[t].Processing? && s.tasks[t].id in s.requests
    ensures SnapshotsKept(s, PairOrPutBack(s, t, now))
  {
    hide KeepsBooks, AllAdded, Marked;
  }

  lemma PutBackKeepsLate(s: State, t: nat, now: int)
    requires t in s.tasks && s.tasks[t].Processing? && s.tasks[t].id in s.requests
    ensures LateKept(s, PairOrPutBack(s, t, now))
  {
    hide KeepsBooks, AllAdded, Marked;
  }

  lemma DecideKeepsLate(cfg: Config, s: State, t: nat, now: int)
    ensures LateKept(s, Decide(cfg, s, t, now))
  {
    hide KeepsBooks, PairOrPutBack;
    if t in s.tasks && s.tasks[t].Processing? && s.tasks[t].id in s.requests {
      PutBackKeepsLate(s, t, now);
    }
  }

  lemma DecideKeepsSnapshots(cfg: Config, s: State, t: nat, now: int)
    requires s.clock !in s.tasks
    ensures SnapshotsKept(s, Decide(cfg, s, t, now))
  {
    hide KeepsBooks, PairOrPutBack;
    if t in s.tasks && s.tasks[t].Processing? && s.tasks[t].id in s.requests {
      PutBackKeepsSnapshots(s, t, now);
    }
  }

  lemma PutBackAdds(s: State, t: nat, now: int)
    requires t in s.tasks && s.tasks[t].Processing? && s.tasks[t].id in s.requests && s.tasks[t].payloads != []
    ensures var task := s.tasks[t];
      var after := PairOrPutBack(s, t, now);
      if s.requests[task.id].report.Some? then Adds(s, after.batch, after.batchedAt, task.id, task.payloads)
      else Adds(s, after.batch, after.batchedAt, "", [])
  {
    hide Adds, AllAdded, Marked, KeepsBooks;
    var task := s.tasks[t];
    AddsNothing(s);
    BatchedAdds(s, task.id, task.payloads, s.requests[task.id].report, task.arn, now);
  }

  lemma DecideGrows(cfg: Config, s: State, e: Event)
    requires e.ProcessFinish? && s.clock !in s.tasks
    ensures var (id, payloads) := AddedBy(cfg, s, e);
      Grows(s, Decide(cfg, s, e.task, e.now), id, payloads)
  {
    DecideKeepsSnapshots(cfg, s, e.task, e.now);
    DecideKeepsLate(cfg, s, e.task, e.now);
    hide Adds, KeepsBooks, SnapshotsKept, LateKept, PairOrPutBack;
    var t := e.task;
    AddsNothing(s);
    if t in s.tasks && s.tasks[t].Processing? && s.tasks[t].id in s.requests && s.tasks[t].payloads != [] {
      PutBackAdds(s, t, e.now);
    }
  }

  lemma ImmediateGrows(cfg: Config, s: State, e: Event)
    requires e.ImmediateDone?
    ensures var (id, payloads) := AddedBy(cfg, s, e);
      Grows(s, ImmediateOne(s, e.task, e.ok, e.now), id, payloads)
  {
    hide Adds, AllAdded, Marked, KeepsBooks;
    var t := e.task;
    AddsNothing(s);
    if t in s.tasks && s.tasks[t].ImmediateSend? && s.tasks[t].remaining != [] {
      var task := s.tasks[t];
      var s1 := s.(tasks := s.tasks[t := ImmediateSend(task.id, task.arn, task.remaining[1..])]);
      BatchedAdds(s1, task.id, [task.remaining[0]], None, task.arn, e.now);
      AddsSame(s1, s, ImmediateOne(s, t, e.ok, e.now), task.id, [task.remaining[0]]);
    }
  }

  lemma AddsSame(s1: State, s: State, after: State, id: string, payloads: seq<Payload>)
    requires s1.batch == s.batch && s1.batchedAt == s.batchedAt && s1.clock == s.clock
    ensures Adds(s1, after.batch, after.batchedAt, id, payloads) == Adds(s, after.batch, after.batchedAt, id, payloads)
  {
    hide Marked;
  }

  lemma ActivateGrows(s: State, id: string)
    ensures Grows(s, s.(active := Some(id)), "", [])
  {
    AddsNothing(s);
    hide Adds, KeepsBooks, LeavesNothing, RemovesNothing;
  }

  lemma CreateGrows(s: State, id: string, arn: string)
    ensures Grows(s, Create(s, id, arn), "", [])
  {
    AddsNothing(s);
    hide Adds, KeepsBooks, LeavesNothing, RemovesNothing, Marked;
  }

  lemma ArriveGrows(s: State, bytes: seq<Byte>, late: string)
    requires CanArrive(s, late) && s.clock !in s.tasks
    ensures Grows(s, ArriveOnPipe(s, bytes, late), "", [])
  {
    AddsNothing(s);
    hide Adds, KeepsBooks, LeavesNothing, RemovesNothing;
  }

  lemma RouteGrows(cfg: Config, s: State, t: nat, fallbackArn: string)
    requires s.clock !in s.tasks
    ensures Grows(s, RouteOn(cfg, s, t, fallbackArn), "", [])
  {
    AddsNothing(s);
    hide Adds, KeepsBooks, LeavesNothing, RemovesNothing, ArnOf;
  }

  lemma ReportKeepsSnapshots(s: State, report: Report, fallbackArn: string)
    requires s.clock !in s.tasks
    ensures SnapshotsKept(s, ReportIn(s, report, fallbackArn)) && LateKept(s, ReportIn(s, report, fallbackArn))
  {
    hide KeepsBooks, Attached, ArnOf;
  }

  lemma ReportGrows(s: State, report: Report, fallbackArn: string)
    requires s.clock !in s.tasks
    ensures Grows(s, ReportIn(s, report, fallbackArn), "", [])
  {
    AddsNothing(s);
    AttachedAdds(s, report);
    ReportKeepsSnapshots(s, report, fallbackArn);
    hide Adds, KeepsBooks, LeavesNothing, Attached, ArnOf, SnapshotsKept, LateKept;
  }

  lemma DrainGrows(s: State, current: string, id: string, fallbackArn: string)
    requires s.clock !in s.tasks
    ensures Grows(s, DrainOne(s, current, id, fallbackArn), "", [])
  {
    AddsNothing(s);
    hide Adds, KeepsBooks, LeavesNothing, RemovesNothing, ArnOf;
  }

  lemma TakeGrows(s: State, id: string, arn: string)
    requires s.clock !in s.tasks
    ensures Grows(s, Take(s, id, arn), "", [])
  {
    AddsNothing(s);
    hide Adds, KeepsBooks, LeavesNothing, RemovesNothing;
  }

  lemma EmptiedGrows(s: State, chunks: seq<seq<Entry>>, requests: map<string, Request>)
    requires s.clock !in s.tasks
    ensures Grows(s, Spawned(s, ShutdownSend(chunks)).(batch := map[], requests := requests), "", [])
  {
    assert Marked(s.batchedAt, [], s.clock) == s.batchedAt;
  }

  lemma CollectGrows(cfg: Config, s: State, items: seq<Entry>, order: seq<string>, fallbackArn: string, now: int)
    requires s.clock !in s.tasks
    ensures Grows(s, Collect(cfg, s, items, order, fallbackArn, now), "", [])
  {
    NothingGrows(s);
    hide Grows, KeepsBooks, Lists, ChunksOf, BufferItems, Drained;
    if Lists(items, s.batch) && ListsKeys(order, s.requests) {
      var all := items + BufferItems(s.requests, order, fallbackArn, now);
      EmptiedGrows(s, ChunksOf(cfg, all), map id | id in s.requests :: Drained(s.requests[id]));
    }
  }

  lemma ChunkGrows(s: State, t: nat, ok: bool)
    ensures Grows(s, ChunkSent(s, t, ok), "", [])
  {
    AddsNothing(s);
    assert LateKept(s, ChunkSent(s, t, ok)) by { hide KeepsBooks, CarriedBy, Serials; }
    assert SnapshotsKept(s, ChunkSent(s, t, ok)) by { hide KeepsBooks, CarriedBy, Serials; }
    hide Adds, KeepsBooks, LeavesNothing, RemovesNothing, ChunkSent, LateKept, SnapshotsKept;
  }

  lemma TakeStaleGrows(s: State, id: string)
    requires s.clock !in s.tasks
    ensures Grows(s, TakeStale(s, id), "", [])
  {
    AddsNothing(s);
    hide Adds, KeepsBooks, LeavesNothing, RemovesNothing;
  }

  lemma StaleKeepsSnapshots(s: State, t: nat, ok: bool)
    ensures SnapshotsKept(s, StaleOne(s, t, ok))
  {
    hide KeepsBooks, RemovesNothing;
  }

  lemma StaleGrows(s: State, t: nat, ok: bool)
    ensures Grows(s, StaleOne(s, t, ok), "", [])
  {
    AddsNothing(s);
    StaleKeepsSnapshots(s, t, ok);
    hide Adds, KeepsBooks, RemovesNothing, SnapshotsKept;
  }

  lemma AttachedAdds(s: State, report: Report)
    ensures Adds(s, Attached(s.batch, report.requestId, report), s.batchedAt, "", [])
  {
    AddsNothing(s);
  }

  lemma SendStartsSnapshot(s: State)
    ensures StartsSnapshot(s, SendSnapshot(s), SnapshotTask(s, StartBatchSend))
  {
    hide WithReports, KeepsBooks, RemovesNothing, LeavesNothing;
  }

  lemma SweepStartsSnapshot(s: State, now: int)
    ensures StartsSnapshot(s, SweepSnapshot(s, now), SnapshotTask(s, StartSweep(now)))
  {
    hide OlderThan, KeepsBooks, RemovesNothing, LeavesNothing;
  }

  lemma AddedByOthers(cfg: Config, s: State, e: Event)
    requires !e.PairNext? && !e.ProcessFinish? && !e.ImmediateDone?
    ensures AddedBy(cfg, s, e) == ("", [])
  {
  }

  lemma NothingGrows(s: State)
    ensures Grows(s, s, "", [])
  {
    AddsNothing(s);
    hide Adds;
  }

  /** Every event is of one of three kinds as far as losses go. */
  lemma KindOf(cfg: Config, s: State, e: Event)
    requires s.clock !in s.tasks
    ensures if e.StartBatchSend? || e.StartSweep? then StartsSnapshot(s, Effect(cfg, s, e), SnapshotTask(s, e))
            else if e.SnapshotDone? then Effect(cfg, s, e) == SnapshotSent(s, e.task, e.ok)
            else Grows(s, Effect(cfg, s, e), AddedBy(cfg, s, e).0, AddedBy(cfg, s, e).1)
  {
    StepIs(cfg, s, e);
    hide *;
    match e {
      case Activate(id) => ActivateGrows(s, id); AddedByOthers(cfg, s, e);
      case CreateRequest(id, arn) => CreateGrows(s, id, arn); AddedByOthers(cfg, s, e);
      case Arrive(bytes, late) =>
        if CanArrive(s, late) { ArriveGrows(s, bytes, late); } else { NothingGrows(s); }
        AddedByOthers(cfg, s, e);
      case Route(t, fallbackArn) => RouteGrows(cfg, s, t, fallbackArn); AddedByOthers(cfg, s, e);
      case ReportArrives(report, fallbackArn) => ReportGrows(s, report, fallbackArn); AddedByOthers(cfg, s, e);
      case DrainCandidate(current, id, fallbackArn) =>
        DrainGrows(s, current, id, fallbackArn); AddedByOthers(cfg, s, e);
      case PairNext(_, _) => PairGrows(cfg, s, e);
      case ProcessTake(id, arn) => TakeGrows(s, id, arn); AddedByOthers(cfg, s, e);
      case ProcessFinish(_, _) => DecideGrows(cfg, s, e);
      case ImmediateDone(_, _, _) => ImmediateGrows(cfg, s, e);
      case StartBatchSend => SendStartsSnapshot(s);
      case StartSweep(now) => SweepStartsSnapshot(s, now);
      case SnapshotDone(_, _) =>
      case CollectAtShutdown(items, order, fallbackArn, now) =>
        CollectGrows(cfg, s, items, order, fallbackArn, now); AddedByOthers(cfg, s, e);
      case ChunkDone(t, ok) => ChunkGrows(s, t, ok); AddedByOthers(cfg, s, e);
      case StartStale(id) => TakeStaleGrows(s, id); AddedByOthers(cfg, s, e);
      case StaleDone(t, ok) => StaleGrows(s, t, ok); AddedByOthers(cfg, s, e);
    }
  }

  // ---- Late payloads ---------------------------------------------------------------------

  /** A batched payload a running snapshot lacks was batched after that snapshot was taken. */
  ghost predicate Sees(batch: Entries, batchedAt: map<nat, nat>, t: nat, snapshot: Entries) {
    forall id, p :: id in snapshot && id in batch && p in batch[id].payloads ==>
      p in snapshot[id].payloads || (p.serial in batchedAt && t < batchedAt[p.serial])
  }

  ghost predicate SnapshotsSee(s: State) {
    && (forall t <- s.tasks :: IsSnapshot(s.tasks[t]) ==>
          t < s.clock && Sees(s.batch, s.batchedAt, t, s.tasks[t].snapshot))
    && (forall n <- s.batchedAt :: s.batchedAt[n] < s.clock)
  }

  ghost predicate LateKnown(s: State) {
    LateExplained(s.late, s.lateWhy) && LateTimed(s.lateWhy, s.clock)
  }

  lemma SeesAfterAdding(s: State, batch: Entries, batchedAt: map<nat, nat>, id: string, payloads: seq<Payload>, t: nat,
                        snapshot: Entries)
    requires Adds(s, batch, batchedAt, id, payloads) && t < s.clock
    requires Sees(s.batch, s.batchedAt, t, snapshot)
    ensures Sees(batch, batchedAt, t, snapshot)
  {
    forall k, p | k in snapshot && k in batch && p in batch[k].payloads && p !in snapshot[k].payloads
      ensures p.serial in batchedAt && t < batchedAt[p.serial]
    {
      if k == id && p in payloads {
        assert p.serial in Serials(payloads);
      } else {
        assert k in s.batch && p in s.batch[k].payloads;
      }
    }
  }

  lemma SeesItself(batch: Entries, batchedAt: map<nat, nat>, t: nat, s: State, e: Event)
    requires batch == s.batch
    ensures Sees(batch, batchedAt, t, SnapshotBy(s, e))
  {
  }

  lemma {:induction false} NotAmongIs(payloads: seq<Payload>, known: seq<Payload>, p: Payload)
    ensures p in NotAmong(payloads, known) <==> p in payloads && p !in known
    ensures p in Among(payloads, known) <==> p in payloads && p in known
  {
    if payloads != [] {
      NotAmongIs(payloads[..|payloads| - 1], known, p);
      assert payloads == payloads[..|payloads| - 1] + [payloads[|payloads| - 1]];
    }
  }

  /** What a removal adds to the late payloads is explained by what it adds to the reasons. */
  lemma RemovalExplains(s: State, t: nat, snapshot: Entries, p: Payload)
    requires Bag(Unseen(s.batch, snapshot), Itself)[p] > 0
    ensures exists span :: (p.serial, span) in LateNow(s, snapshot, t)
  {
    var unseen := Unseen(s.batch, snapshot);
    var id := CountMember(unseen, Itself, p);
    assert p in NotAmong(s.batch[id].payloads, snapshot[id].payloads);
    var span := Span(id, t, if p.serial in s.batchedAt then s.batchedAt[p.serial] else 0, s.clock);
    assert (p.serial, span) in LateNow(s, snapshot, t);
  }

  lemma RemovalTimed(s: State, t: nat, snapshot: Entries, n: nat, span: Span)
    requires Sees(s.batch, s.batchedAt, t, snapshot) && (forall n <- s.batchedAt :: s.batchedAt[n] < s.clock)
    requires (n, span) in LateNow(s, snapshot, t)
    ensures span.since == t < span.batched < span.until == s.clock
    ensures span.key in snapshot && span.key in s.batch && n in s.batchedAt && span.batched == s.batchedAt[n]
    ensures exists p :: p in s.batch[span.key].payloads && p !in snapshot[span.key].payloads && p.serial == n
  {
    var id, p :| id in s.batch && id in snapshot && p in NotAmong(s.batch[id].payloads, snapshot[id].payloads)
      && (n, span) == (p.serial, Span(id, t, if p.serial in s.batchedAt then s.batchedAt[p.serial] else 0, s.clock));
    NotAmongIs(s.batch[id].payloads, snapshot[id].payloads, p);
  }

  ghost predicate LateExplained(late: multiset<Payload>, lateWhy: set<(nat, Span)>) {
    forall p: Payload :: late[p] > 0 ==> exists span :: (p.serial, span) in lateWhy
  }

  ghost predicate LateTimed(lateWhy: set<(nat, Span)>, clock: nat) {
    forall n, span :: (n, span) in lateWhy ==> span.since < span.batched < span.until < clock
  }

  lemma RemovedLateExplained(s: State, t: nat, snapshot: Entries)
    requires LateExplained(s.late, s.lateWhy)
    ensures LateExplained(s.late + Bag(Unseen(s.batch, snapshot), Itself), s.lateWhy + LateNow(s, snapshot, t))
  {
    hide LateNow, Unseen, Bag;
    forall p: Payload | (s.late + Bag(Unseen(s.batch, snapshot), Itself))[p] > 0
      ensures exists span :: (p.serial, span) in s.lateWhy + LateNow(s, snapshot, t)
    {
      if s.late[p] > 0 {
        var span :| (p.serial, span) in s.lateWhy;
        assert (p.serial, span) in s.lateWhy + LateNow(s, snapshot, t);
      } else {
        RemovalExplains(s, t, snapshot, p);
        var span :| (p.serial, span) in LateNow(s, snapshot, t);
        assert (p.serial, span) in s.lateWhy + LateNow(s, snapshot, t);
      }
    }
  }

  lemma RemovedLateTimed(s: State, t: nat, snapshot: Entries)
    requires LateTimed(s.lateWhy, s.clock) && Sees(s.batch, s.batchedAt, t, snapshot)
    requires forall n <- s.batchedAt :: s.batchedAt[n] < s.clock
    ensures LateTimed(s.lateWhy + LateNow(s, snapshot, t), s.clock + 1)
  {
    forall n, span | (n, span) in s.lateWhy + LateNow(s, snapshot, t)
      ensures span.since < span.batched < span.until < s.clock + 1
    {
      if (n, span) !in s.lateWhy {
        RemovalTimed(s, t, snapshot, n, span);
      }
    }
  }

  lemma SeesLess(batch: Entries, batchedAt: map<nat, nat>, t: nat, snapshot: Entries, ids: set<string>)
    requires Sees(batch, batchedAt, t, snapshot)
    ensures Sees(batch - ids, batchedAt, t, snapshot)
  {
  }

  lemma SnapshotSentSees(s: State, t: nat, ok: bool)
    requires SnapshotsSee(s)
    ensures SnapshotsSee(SnapshotSent(s, t, ok).(clock := s.clock + 1))
  {
    hide Bag, KeepsBooks, SnapshotSerials, LateNow, Unseen, Seen, Sees;
    if t in s.tasks && IsSnapshot(s.tasks[t]) {
      var snapshot := s.tasks[t].snapshot;
      forall u | u in s.tasks && IsSnapshot(s.tasks[u])
        ensures Sees(s.batch - snapshot.Keys, s.batchedAt, u, s.tasks[u].snapshot)
      {
        SeesLess(s.batch, s.batchedAt, u, s.tasks[u].snapshot, snapshot.Keys);
      }
    }
  }

  /** A finished send adds to the late payloads only what it removed unseen. */
  lemma SnapshotSentLate(s: State, t: nat, ok: bool)
    ensures var after := SnapshotSent(s, t, ok);
      || (after.late == s.late && after.lateWhy == s.lateWhy)
      || (t in s.tasks && IsSnapshot(s.tasks[t]) && (ok || s.tasks[t].Sweep?)
          && after.late == s.late + Bag(Unseen(s.batch, s.tasks[t].snapshot), Itself)
          && after.lateWhy == s.lateWhy + LateNow(s, s.tasks[t].snapshot, t))
  {
    hide Bag, KeepsBooks, SnapshotSerials, Unseen, Seen;
  }

  lemma SnapshotSentExplains(s: State, t: nat, ok: bool)
    requires SnapshotsSee(s) && LateKnown(s)
    ensures LateKnown(SnapshotSent(s, t, ok).(clock := s.clock + 1))
  {
    SnapshotSentLate(s, t, ok);
    RemovedLateTimedTick(s.lateWhy, s.clock);
    hide Bag, KeepsBooks, LateNow, Unseen, LateExplained, LateTimed, Sees, SnapshotSent;
    if t in s.tasks && IsSnapshot(s.tasks[t]) {
      RemovedLateExplained(s, t, s.tasks[t].snapshot);
      RemovedLateTimed(s, t, s.tasks[t].snapshot);
    }
  }

  lemma RemovedLateTimedTick(lateWhy: set<(nat, Span)>, clock: nat)
    requires LateTimed(lateWhy, clock)
    ensures LateTimed(lateWhy, clock + 1)
  {
  }

  lemma GrowsExplains(s: State, after: State, id: string, payloads: seq<Payload>)
    requires SnapshotsSee(s) && LateKnown(s) && Grows(s, after, id, payloads)
    ensures SnapshotsSee(after.(clock := s.clock + 1)) && LateKnown(after.(clock := s.clock + 1))
  {
    forall t | t in after.tasks && IsSnapshot(after.tasks[t])
      ensures Sees(after.batch, after.batchedAt, t, after.tasks[t].snapshot)
    {
      SeesAfterAdding(s, after.batch, after.batchedAt, id, payloads, t, after.tasks[t].snapshot);
    }
    BatchedInPast(s, after.batch, after.batchedAt, id, payloads);
    RemovedLateTimedTick(s.lateWhy, s.clock);
    hide Sees, Adds, LateExplained, LateTimed;
  }

  lemma StartExplains(s: State, after: State, e: Event)
    requires SnapshotsSee(s) && LateKnown(s) && StartsSnapshot(s, after, SnapshotTask(s, e))
    ensures SnapshotsSee(after.(clock := s.clock + 1)) && LateKnown(after.(clock := s.clock + 1))
  {
    SeesItself(after.batch, after.batchedAt, s.clock, s, e);
    RemovedLateTimedTick(s.lateWhy, s.clock);
    hide Sees, SnapshotBy, LateExplained, LateTimed;
  }

  lemma StepExplains(cfg: Config, s: State, e: Event)
    requires SnapshotsSee(s) && LateKnown(s) && s.clock !in s.tasks
    ensures SnapshotsSee(Step(cfg, s, e)) && LateKnown(Step(cfg, s, e))
  {
    KindOf(cfg, s, e);
    StepIs(cfg, s, e);
    hide *;
    if e.SnapshotDone? {
      SnapshotSentSees(s, e.task, e.ok);
      SnapshotSentExplains(s, e.task, e.ok);
    } else if e.StartBatchSend? || e.StartSweep? {
      StartExplains(s, Effect(cfg, s, e), e);
    } else {
      GrowsExplains(s, Effect(cfg, s, e), AddedBy(cfg, s, e).0, AddedBy(cfg, s, e).1);
    }
  }

  lemma BatchedInPast(s: State, batch: Entries, batchedAt: map<nat, nat>, id: string, payloads: seq<Payload>)
    requires Adds(s, batch, batchedAt, id, payloads)
    requires forall n <- s.batchedAt :: s.batchedAt[n] < s.clock
    ensures forall n <- batchedAt :: batchedAt[n] < s.clock + 1
  {
  }

  // ---- No loss without a cause -----------------------------------------------------------

  /** Some running snapshot holds `id`. */
  ghost predicate Snapshotted(s: State, id: string) {
    exists t :: t in s.tasks && IsSnapshot(s.tasks[t]) && id in s.tasks[t].snapshot
  }

  /** The events after which a payload may be gone undelivered. */
  ghost predicate Risky(cfg: Config, s: State, e: Event) {
    match e
    case CreateRequest(id, _) => id in s.requests && s.requests[id].buffer != []
    case Route(t, _) =>
      t in s.tasks && s.tasks[t].Routing? && !(s.tasks[t].active && cfg.synchronousFlush)
        && s.tasks[t].id !in s.requests
    case SnapshotDone(t, ok) => t in s.tasks && s.tasks[t].Sweep? && !ok
    case ChunkDone(t, ok) => t in s.tasks && s.tasks[t].ShutdownSend? && !ok
    case ProcessFinish(t, _) =>
      || (t in s.tasks && s.tasks[t].Processing? && s.tasks[t].id !in s.requests && !cfg.synchronousFlush
          && s.tasks[t].payloads != [])
      || (AddedBy(cfg, s, e).1 != [] && Snapshotted(s, AddedBy(cfg, s, e).0))
    case StaleDone(t, ok) =>
      t in s.tasks && s.tasks[t].StaleSend? &&
      if s.tasks[t].remaining == [] then s.tasks[t].id in s.requests && s.requests[s.tasks[t].id].buffer != [] else !ok
    case _ => AddedBy(cfg, s, e).1 != [] && Snapshotted(s, AddedBy(cfg, s, e).0)
  }

  ghost predicate Current(batch: Entries, snapshot: Entries) {
    forall id <- snapshot :: id in batch ==> batch[id].payloads == snapshot[id].payloads
  }

  ghost predicate SnapshotsCurrent(s: State) {
    forall t <- s.tasks :: IsSnapshot(s.tasks[t]) ==> Current(s.batch, s.tasks[t].snapshot)
  }

  ghost predicate NothingLost(s: State) {
    s.late == multiset{} && s.failedSweep == multiset{} && s.failedChunk == multiset{} && s.unrouted == multiset{}
    && s.failedStale == multiset{} && s.discarded == multiset{}
  }

  lemma AddedElsewhere(s: State, batch: Entries, batchedAt: map<nat, nat>, id: string, payloads: seq<Payload>,
                       snapshot: Entries)
    requires Adds(s, batch, batchedAt, id, payloads) && Current(s.batch, snapshot)
    requires payloads == [] || id !in snapshot
    ensures Current(batch, snapshot)
  {
  }

  lemma GrowsCurrent(s: State, after: State, id: string, payloads: seq<Payload>)
    requires SnapshotsCurrent(s) && Grows(s, after, id, payloads)
    requires payloads != [] ==> !Snapshotted(s, id)
    ensures SnapshotsCurrent(after)
  {
    forall t | t in after.tasks && IsSnapshot(after.tasks[t]) ensures Current(after.batch, after.tasks[t].snapshot) {
      AddedElsewhere(s, after.batch, after.batchedAt, id, payloads, after.tasks[t].snapshot);
    }
  }

  lemma StartCurrent(s: State, after: State, e: Event)
    requires SnapshotsCurrent(s) && StartsSnapshot(s, after, SnapshotTask(s, e))
    ensures SnapshotsCurrent(after)
  {
    assert Current(s.batch, SnapshotBy(s, e));
    hide Current, SnapshotBy, LateKept;
  }

  lemma {:induction false} NoneUnseen(payloads: seq<Payload>, known: seq<Payload>)
    requires forall p <- payloads :: p in known
    ensures NotAmong(payloads, known) == []
  {
    if payloads != [] {
      NoneUnseen(payloads[..|payloads| - 1], known);
    }
  }

  lemma CurrentRemovalLosesNothing(batch: Entries, snapshot: Entries)
    requires Current(batch, snapshot)
    ensures Bag(Unseen(batch, snapshot), Itself) == multiset{}
  {
    var unseen := Unseen(batch, snapshot);
    forall id | id in unseen ensures unseen[id] == [] {
      NoneUnseen(batch[id].payloads, snapshot[id].payloads);
    }
    forall p: Payload ensures Bag(unseen, Itself)[p] == 0 {
      if Count(unseen, Itself, p) > 0 {
        var id := CountMember(unseen, Itself, p);
      }
    }
  }

  lemma CurrentLess(batch: Entries, snapshot: Entries, ids: set<string>)
    requires Current(batch, snapshot)
    ensures Current(batch - ids, snapshot)
  {
  }

  lemma SnapshotSentCurrent(s: State, t: nat, ok: bool)
    requires SnapshotsCurrent(s) && NothingLost(s)
    requires t in s.tasks && s.tasks[t].Sweep? ==> ok
    ensures SnapshotsCurrent(SnapshotSent(s, t, ok)) && NothingLost(SnapshotSent(s, t, ok))
  {
    hide Bag, Seen, Unseen, LateNow, SnapshotSerials, KeepsBooks, Current;
    if t in s.tasks && IsSnapshot(s.tasks[t]) {
      var snapshot := s.tasks[t].snapshot;
      CurrentRemovalLosesNothing(s.batch, snapshot);
      forall u | u in s.tasks && IsSnapshot(s.tasks[u])
        ensures Current(s.batch - snapshot.Keys, s.tasks[u].snapshot)
      {
        CurrentLess(s.batch, s.tasks[u].snapshot, snapshot.Keys);
      }
    }
  }

  predicate MayRelease(e: Event) {
    || e.CreateRequest? || e.Route? || e.ProcessFinish? || e.ImmediateDone? || e.SnapshotDone? || e.ChunkDone?
    || e.StaleDone?
  }

  lemma OthersRelease(cfg: Config, s: State, e: Event)
    requires !MayRelease(e)
    ensures LeavesNothing(s, Effect(cfg, s, e))
  {
    StepIs(cfg, s, e);
    hide KeepsBooks, RemovesNothing, CanArrive, ArriveOnPipe, Create, ReportIn, DrainOne, PairOne, Take,
         SendSnapshot, SweepSnapshot, Collect, TakeStale, Step, Effect;
  }

  ghost predicate LosesNothing(s: State, after: State) {
    && after.unrouted == s.unrouted && after.failedChunk == s.failedChunk && after.failedStale == s.failedStale
    && after.discarded == s.discarded
  }

  lemma RouteLosesNothing(cfg: Config, s: State, t: nat, fallbackArn: string)
    requires !Risky(cfg, s, Route(t, fallbackArn))
    ensures LosesNothing(s, RouteOn(cfg, s, t, fallbackArn))
  {
    hide ArnOf, KeepsBooks, Snapshotted;
  }

  lemma ImmediateLosesNothing(s: State, t: nat, ok: bool, now: int)
    ensures LosesNothing(s, ImmediateOne(s, t, ok, now))
  {
    hide AllAdded, Marked, KeepsBooks;
  }

  lemma ChunkLosesNothing(cfg: Config, s: State, t: nat, ok: bool)
    requires !Risky(cfg, s, ChunkDone(t, ok))
    ensures LosesNothing(s, ChunkSent(s, t, ok))
  {
    hide CarriedBy, Serials, KeepsBooks, Snapshotted;
  }

  lemma CreateLosesNothing(cfg: Config, s: State, id: string, arn: string)
    requires !Risky(cfg, s, CreateRequest(id, arn))
    ensures LosesNothing(s, Create(s, id, arn))
  {
    hide Marked, KeepsBooks, Snapshotted;
  }

  lemma DecideLosesNothing(cfg: Config, s: State, t: nat, now: int)
    requires !Risky(cfg, s, ProcessFinish(t, now))
    ensures LosesNothing(s, Decide(cfg, s, t, now))
  {
    hide AllAdded, Marked, KeepsBooks, RemovesNothing, Snapshotted;
  }

  lemma StaleLosesNothing(cfg: Config, s: State, t: nat, ok: bool)
    requires !Risky(cfg, s, StaleDone(t, ok))
    ensures LosesNothing(s, StaleOne(s, t, ok))
  {
    hide KeepsBooks, RemovesNothing, Snapshotted;
  }

  /** Only a discarded request, a misrouted payload and a failed chunk lose anything outside the snapshots. */
  lemma OthersLoseNothing(cfg: Config, s: State, e: Event)
    requires !e.SnapshotDone? && !Risky(cfg, s, e)
    ensures LosesNothing(s, Effect(cfg, s, e))
  {
    StepIs(cfg, s, e);
    hide Effect, Step, Risky, LosesNothing, KeepsBooks, Create, RouteOn, Decide, ImmediateOne, ChunkSent, StaleOne;
    match e {
      case CreateRequest(id, arn) => CreateLosesNothing(cfg, s, id, arn);
      case Route(t, fallbackArn) => RouteLosesNothing(cfg, s, t, fallbackArn);
      case ImmediateDone(t, ok, now) => ImmediateLosesNothing(s, t, ok, now);
      case ChunkDone(t, ok) => ChunkLosesNothing(cfg, s, t, ok);
      case ProcessFinish(t, now) => DecideLosesNothing(cfg, s, t, now);
      case StaleDone(t, ok) => StaleLosesNothing(cfg, s, t, ok);
      case _ => OthersRelease(cfg, s, e); UnreleasedLosesNothing(s, Effect(cfg, s, e));
    }
  }

  lemma UnreleasedLosesNothing(s: State, after: State)
    requires LeavesNothing(s, after)
    ensures LosesNothing(s, after)
  {
  }

  lemma UnaffectedByClock(s: State, clock: nat)
    ensures SnapshotsCurrent(s) ==> SnapshotsCurrent(s.(clock := clock))
    ensures NothingLost(s) ==> NothingLost(s.(clock := clock))
  {
    hide Current;
  }

  lemma StepLosesNothing(cfg: Config, s: State, e: Event)
    requires SnapshotsCurrent(s) && NothingLost(s) && s.clock !in s.tasks && !Risky(cfg, s, e)
    ensures SnapshotsCurrent(Step(cfg, s, e)) && NothingLost(Step(cfg, s, e))
  {
    KindOf(cfg, s, e);
    StepIs(cfg, s, e);
    UnaffectedByClock(Effect(cfg, s, e), s.clock + 1);
    var (id, payloads) := AddedBy(cfg, s, e);
    hide Step, Effect, SnapshotsCurrent, Snapshotted, SnapshotSent, StartsSnapshot, AddedBy, SnapshotBy, KeepsBooks,
      Adds, SnapshotsKept;
    if e.SnapshotDone? {
      SnapshotSentCurrent(s, e.task, e.ok);
    } else {
      if e.StartBatchSend? || e.StartSweep? {
        StartCurrent(s, Effect(cfg, s, e), e);
        StartKeepsLate(s, Effect(cfg, s, e), e);
      } else {
        NotRiskyAdds(cfg, s, e);
        GrowsCurrent(s, Effect(cfg, s, e), id, payloads);
      }
      OthersLoseNothing(cfg, s, e);
    }
  }

  lemma StartKeepsLate(s: State, after: State, e: Event)
    requires StartsSnapshot(s, after, SnapshotTask(s, e))
    ensures LateKept(s, after)
  {
  }

  lemma NotRiskyAdds(cfg: Config, s: State, e: Event)
    requires !Risky(cfg, s, e) && !e.SnapshotDone?
    ensures AddedBy(cfg, s, e).1 != [] ==> !Snapshotted(s, AddedBy(cfg, s, e).0)
  {
    if e.Route? || e.ChunkDone? || e.CreateRequest? || e.StaleDone? {
      AddedByOthers(cfg, s, e);
    }
  }

  /**
   * In a run without a risky event nothing is ever lost, however many sends fail, overlap or repeat: no payload
   * was batched under a key while a snapshot of that key was being sent, no sweep or shutdown chunk failed, every
   * payload found its request, and no request was created again or removed as stale while it held payloads or after
   * one of its payloads failed to be sent.
   */
  lemma {:induction false} NothingLostWithoutRisk(cfg: Config, events: seq<Event>)
    requires forall i :: 0 <= i < |events| ==> !Risky(cfg, Run(cfg, events[..i]), events[i])
    ensures SnapshotsCurrent(Run(cfg, events)) && NothingLost(Run(cfg, events))
  {
    if events != [] {
      var init := events[..|events| - 1];
      forall i | 0 <= i < |init| ensures !Risky(cfg, Run(cfg, init[..i]), init[i]) {
        assert init[..i] == events[..i];
      }
      NothingLostWithoutRisk(cfg, init);
      TasksInPast(cfg, init);
      StepLosesNothing(cfg, Run(cfg, init), events[|events| - 1]);
    }
  }

  lemma {:induction false} TasksInPast(cfg: Config, events: seq<Event>)
    ensures forall t <- Run(cfg, events).tasks :: t < Run(cfg, events).clock
    ensures Run(cfg, events).clock == |events|
  {
    if events != [] {
      TasksInPast(cfg, events[..|events| - 1]);
      assert KeepsBooks(Run(cfg, events[..|events| - 1]),
        Effect(cfg, Run(cfg, events[..|events| - 1]), events[|events| - 1]));
    }
  }
}
