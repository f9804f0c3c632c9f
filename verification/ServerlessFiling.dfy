/** Nothing is ever filed under another request's id, and a pending report leaves only by being paired. */
module ServerlessFiling {
  import opened Types
  import opened Batch
  import opened Serverless
  import Cuts
  import Chunks

  type Filing = map<nat, string>

  ghost predicate Extends(after: Filing, before: Filing) {
    forall n <- before :: n in after && after[n] == before[n]
  }

  ghost predicate FiledUnder(filed: Filing, payloads: seq<Payload>, id: string) {
    forall p <- payloads :: p.serial in filed && filed[p.serial] == id
  }

  ghost predicate EntryFiled(filed: Filing, entry: Entry, id: string) {
    && entry.requestId == id
    && FiledUnder(filed, entry.payloads, id)
    && (entry.report.Some? ==> entry.report.value.requestId == id)
  }

  ghost predicate EntriesFiled(filed: Filing, entries: Entries) {
    forall id <- entries :: EntryFiled(filed, entries[id], id)
  }

  ghost predicate ItemsFiled(filed: Filing, items: seq<Entry>) {
    forall i :: 0 <= i < |items| ==> EntryFiled(filed, items[i], items[i].requestId)
  }

  ghost predicate RequestFiled(filed: Filing, request: Request, id: string) {
    && FiledUnder(filed, request.buffer, id)
    && (request.report.Some? ==> request.report.value.requestId == id)
  }

  ghost predicate TaskFiled(filed: Filing, task: Task) {
    match task
    case Routing(id, payload, _) => FiledUnder(filed, [payload], id)
    case Processing(id, _, payloads) => FiledUnder(filed, payloads, id)
    case Pairing(id, _, report, remaining) => FiledUnder(filed, remaining, id) && report.requestId == id
    case ImmediateSend(id, _, remaining) => FiledUnder(filed, remaining, id)
    case BatchSend(snapshot) => EntriesFiled(filed, snapshot)
    case Sweep(snapshot) => EntriesFiled(filed, snapshot)
    case StaleSend(id, remaining) => FiledUnder(filed, remaining, id)
    case ShutdownSend(chunks) => forall i :: 0 <= i < |chunks| ==> ItemsFiled(filed, chunks[i])
  }

  ghost predicate OrphansUnfiled(s: State) {
    && (forall p <- s.orphans :: p.serial !in s.filed && p.serial < |s.arrived|)
    && (forall n <- s.filed :: n < |s.arrived|)
  }

  /** Wherever a payload or a report sits, it sits under the id it was filed under. */
  ghost predicate Filed(s: State) {
    && (forall id <- s.requests :: RequestFiled(s.filed, s.requests[id], id))
    && EntriesFiled(s.filed, s.batch)
    && (forall t <- s.tasks :: TaskFiled(s.filed, s.tasks[t]))
    && OrphansUnfiled(s)
  }

  // ---- Filing more payloads disturbs nothing ---------------------------------------------

  lemma EntriesStayFiled(before: Filing, after: Filing, entries: Entries)
    requires Extends(after, before) && EntriesFiled(before, entries)
    ensures EntriesFiled(after, entries)
  {
  }

  lemma RequestStaysFiled(before: Filing, after: Filing, request: Request, id: string)
    requires Extends(after, before) && RequestFiled(before, request, id)
    ensures RequestFiled(after, request, id)
  {
  }

  lemma TaskStaysFiled(before: Filing, after: Filing, task: Task)
    requires Extends(after, before) && TaskFiled(before, task)
    ensures TaskFiled(after, task)
  {
    if task.ShutdownSend? {
      forall i | 0 <= i < |task.chunks| ensures ItemsFiled(after, task.chunks[i]) {
        forall j | 0 <= j < |task.chunks[i]| ensures EntryFiled(after, task.chunks[i][j], task.chunks[i][j].requestId) {
          assert EntryFiled(before, task.chunks[i][j], task.chunks[i][j].requestId);
        }
      }
    }
  }

  lemma MarkedExtends(filed: Filing, payloads: seq<Payload>, id: string)
    requires forall p <- payloads :: p.serial !in filed
    ensures Extends(Marked(filed, payloads, id), filed)
    ensures FiledUnder(Marked(filed, payloads, id), payloads, id)
  {
  }

  // ---- One part at a time ----------------------------------------------------------------

  lemma WithTask(s: State, t: nat, task: Task)
    requires Filed(s) && TaskFiled(s.filed, task)
    ensures Filed(s.(tasks := s.tasks[t := task]))
  {
    hide TaskFiled, RequestFiled, EntriesFiled;
  }

  lemma WithoutTask(s: State, t: nat)
    requires Filed(s)
    ensures Filed(Ended(s, t))
  {
    hide TaskFiled, RequestFiled, EntriesFiled;
  }

  lemma WithRequest(s: State, id: string, request: Request)
    requires Filed(s) && RequestFiled(s.filed, request, id)
    ensures Filed(s.(requests := s.requests[id := request]))
  {
    hide TaskFiled, RequestFiled, EntriesFiled;
  }

  lemma WithBatch(s: State, batch: Entries, batchedAt: map<nat, nat>)
    requires Filed(s) && EntriesFiled(s.filed, batch)
    ensures Filed(s.(batch := batch, batchedAt := batchedAt))
  {
    hide TaskFiled, RequestFiled, EntriesFiled;
  }

  lemma WithFiling(s: State, filed: Filing, arrived: seq<Payload>, orphans: seq<Payload>)
    requires Filed(s) && Extends(filed, s.filed)
    requires OrphansUnfiled(s.(filed := filed, arrived := arrived, orphans := orphans))
    ensures Filed(s.(filed := filed, arrived := arrived, orphans := orphans))
  {
    forall t | t in s.tasks ensures TaskFiled(filed, s.tasks[t]) {
      TaskStaysFiled(s.filed, filed, s.tasks[t]);
    }
    forall id | id in s.requests ensures RequestFiled(filed, s.requests[id], id) {
      RequestStaysFiled(s.filed, filed, s.requests[id], id);
    }
    EntriesStayFiled(s.filed, filed, s.batch);
    hide TaskFiled, RequestFiled, EntriesFiled;
  }

  /** Histories other than the filing, the active request and the clock play no part. */
  lemma WithHistory(s: State, after: State)
    requires Filed(s)
    requires after.requests == s.requests && after.orphans == s.orphans && after.batch == s.batch
      && after.tasks == s.tasks
    requires after.arrived == s.arrived && after.filed == s.filed
    ensures Filed(after)
  {
    hide TaskFiled, RequestFiled, EntriesFiled;
  }

  // ---- The batch -------------------------------------------------------------------------

  lemma {:induction false} AllAddedFiled(filed: Filing, entries: Entries, id: string, payloads: seq<Payload>,
                                         report: Option<Report>, arn: string, now: int)
    requires EntriesFiled(filed, entries) && FiledUnder(filed, payloads, id)
    requires report.Some? ==> report.value.requestId == id
    ensures EntriesFiled(filed, AllAdded(entries, id, payloads, report, arn, now))
  {
    if payloads != [] {
      var init, last := payloads[..|payloads| - 1], payloads[|payloads| - 1];
      AllAddedFiled(filed, entries, id, init, report, arn, now);
      AddedFiled(filed, AllAdded(entries, id, init, report, arn, now), id, last, report, arn, now);
    }
  }

  lemma AddedFiled(filed: Filing, entries: Entries, id: string, payload: Payload, report: Option<Report>, arn: string,
                   now: int)
    requires EntriesFiled(filed, entries) && payload.serial in filed && filed[payload.serial] == id
    requires report.Some? ==> report.value.requestId == id
    ensures EntriesFiled(filed, Added(entries, id, payload, report, arn, now))
  {
    var after := Added(entries, id, payload, report, arn, now);
    forall k | k in after ensures EntryFiled(filed, after[k], k) {
      if k == id && id in entries {
        assert EntryFiled(filed, entries[id], id);
      }
    }
  }

  lemma BatchedFiled(s: State, id: string, payloads: seq<Payload>, report: Option<Report>, arn: string, now: int)
    requires Filed(s) && FiledUnder(s.filed, payloads, id) && (report.Some? ==> report.value.requestId == id)
    ensures Filed(Batched(s, id, payloads, report, arn, now))
  {
    AllAddedFiled(s.filed, s.batch, id, payloads, report, arn, now);
    hide AllAdded, Marked;
    WithBatch(s, AllAdded(s.batch, id, payloads, report, arn, now), Marked(s.batchedAt, payloads, s.clock));
  }

  // ---- Every event keeps the filing ------------------------------------------------------

  lemma CreateFiled(s: State, id: string, arn: string)
    requires Filed(s)
    ensures Filed(Create(s, id, arn)) && Extends(Create(s, id, arn).filed, s.filed)
  {
    MarkedExtends(s.filed, s.orphans, id);
    var filed := Marked(s.filed, s.orphans, id);
    WithFiling(s, filed, s.arrived, []);
    var adopted := s.(filed := filed, arrived := s.arrived, orphans := []);
    WithRequest(adopted, id, Request(s.orphans, None, arn));
    hide Filed, Marked, Extends;
    WithHistory(adopted.(requests := adopted.requests[id := Request(s.orphans, None, arn)]), Create(s, id, arn));
  }

  lemma ArriveFiled(s: State, bytes: seq<Byte>, late: string)
    requires Filed(s) && CanArrive(s, late) && s.clock !in s.tasks
    ensures Filed(ArriveOnPipe(s, bytes, late)) && Extends(ArriveOnPipe(s, bytes, late).filed, s.filed)
  {
    var payload := Payload(|s.arrived|, bytes);
    assert |s.arrived| !in s.filed;
    if s.active.None? && late !in s.requests {
      WithFiling(s, s.filed, s.arrived + [payload], s.orphans + [payload]);
    } else {
      var id := if s.active.Some? then s.active.value else late;
      var filed := s.filed[payload.serial := id];
      WithFiling(s, filed, s.arrived + [payload], s.orphans);
      WithTask(s.(filed := filed, arrived := s.arrived + [payload], orphans := s.orphans),
               s.clock, Routing(id, payload, s.active.Some?));
    }
    hide Filed, OrphansUnfiled;
  }

  lemma RouteFiled(cfg: Config, s: State, t: nat, fallbackArn: string)
    requires Filed(s) && s.clock !in s.tasks
    ensures Filed(RouteOn(cfg, s, t, fallbackArn))
    ensures RouteOn(cfg, s, t, fallbackArn).filed == s.filed
  {
    if t in s.tasks && s.tasks[t].Routing? {
      var task := s.tasks[t];
      assert TaskFiled(s.filed, task);
      WithoutTask(s, t);
      if task.active && cfg.synchronousFlush {
        WithTask(Ended(s, t), s.clock, ImmediateSend(task.id, ArnOf(s.requests, task.id, fallbackArn), [task.payload]));
      } else if task.id in s.requests {
        var request := s.requests[task.id];
        assert RequestFiled(s.filed, request, task.id);
        WithRequest(Ended(s, t), task.id, request.(buffer := request.buffer + [task.payload]));
      } else {
        WithHistory(Ended(s, t), RouteOn(cfg, s, t, fallbackArn));
      }
      hide Filed;
    }
  }

  lemma AttachedFiled(filed: Filing, entries: Entries, report: Report)
    requires EntriesFiled(filed, entries)
    ensures EntriesFiled(filed, Attached(entries, report.requestId, report))
  {
    var id := report.requestId;
    if id in entries {
      assert EntryFiled(filed, entries[id], id);
    }
  }

  lemma ReportFiled(s: State, report: Report, fallbackArn: string)
    requires Filed(s) && s.clock !in s.tasks
    ensures Filed(ReportIn(s, report, fallbackArn))
    ensures ReportIn(s, report, fallbackArn).filed == s.filed
  {
    var id := report.requestId;
    if id in s.batch {
      AttachedFiled(s.filed, s.batch, report);
      WithBatch(s, Attached(s.batch, id, report), s.batchedAt);
    } else if id in s.requests {
      var request := s.requests[id];
      assert RequestFiled(s.filed, request, id);
      if request.buffer == [] {
        WithRequest(s, id, request.(report := Some(report)));
      } else {
        var task := Pairing(id, ArnOf(s.requests, id, fallbackArn), report, request.buffer);
        WithTask(s, s.clock, task);
        WithRequest(Spawned(s, task), id, request.(buffer := []));
      }
    }
    hide Filed, Attached;
  }

  lemma DrainFiled(s: State, current: string, id: string, fallbackArn: string)
    requires Filed(s) && s.clock !in s.tasks
    ensures Filed(DrainOne(s, current, id, fallbackArn))
    ensures DrainOne(s, current, id, fallbackArn).filed == s.filed
  {
    if id != current && id in s.requests && s.requests[id].report.Some? && s.requests[id].buffer != [] {
      var request := s.requests[id];
      assert RequestFiled(s.filed, request, id);
      var task := Pairing(id, ArnOf(s.requests, id, fallbackArn), request.report.value, request.buffer);
      WithTask(s, s.clock, task);
      WithRequest(Spawned(s, task), id, request.(buffer := [], report := None));
    }
    hide Filed;
  }

  lemma PairFiled(s: State, t: nat, now: int)
    requires Filed(s)
    ensures Filed(PairOne(s, t, now))
    ensures PairOne(s, t, now).filed == s.filed
  {
    if t in s.tasks && s.tasks[t].Pairing? {
      var task := s.tasks[t];
      assert TaskFiled(s.filed, task);
      if task.remaining == [] {
        WithoutTask(s, t);
      } else {
        BatchedFiled(s, task.id, [task.remaining[0]], Some(task.report), task.arn, now);
        WithTask(Batched(s, task.id, [task.remaining[0]], Some(task.report), task.arn, now), t,
                 Pairing(task.id, task.arn, task.report, task.remaining[1..]));
      }
      hide Filed, AllAdded, Marked;
    }
  }

  lemma TakeFiled(s: State, id: string, arn: string)
    requires Filed(s) && s.clock !in s.tasks
    ensures Filed(Take(s, id, arn))
    ensures Take(s, id, arn).filed == s.filed
  {
    if id in s.requests && s.requests[id].buffer != [] {
      var request := s.requests[id];
      assert RequestFiled(s.filed, request, id);
      WithTask(s, s.clock, Processing(id, arn, request.buffer));
      WithRequest(Spawned(s, Processing(id, arn, request.buffer)), id, request.(buffer := []));
    }
    hide Filed;
  }

  lemma DecideFiled(cfg: Config, s: State, t: nat, now: int)
    requires Filed(s) && s.clock !in s.tasks
    ensures Filed(Decide(cfg, s, t, now))
    ensures Decide(cfg, s, t, now).filed == s.filed
  {
    hide PairOrPutBack;
    if t in s.tasks && s.tasks[t].Processing? && s.tasks[t].payloads != [] {
      var task := s.tasks[t];
      assert TaskFiled(s.filed, task);
      WithoutTask(s, t);
      if cfg.synchronousFlush {
        WithTask(Ended(s, t), s.clock, ImmediateSend(task.id, task.arn, task.payloads));
      } else if task.id in s.requests {
        PutBackFiled(s, t, now);
      } else {
        WithHistory(Ended(s, t), Decide(cfg, s, t, now));
      }
      hide Filed, KeepsBooks;
    } else if t in s.tasks {
      WithoutTask(s, t);
    }
  }

  lemma PutBackFiled(s: State, t: nat, now: int)
    requires Filed(s) && t in s.tasks && s.tasks[t].Processing? && s.tasks[t].id in s.requests
    ensures Filed(PairOrPutBack(s, t, now))
    ensures PairOrPutBack(s, t, now).filed == s.filed
  {
    var task := s.tasks[t];
    var request := s.requests[task.id];
    assert TaskFiled(s.filed, task) && RequestFiled(s.filed, request, task.id);
    WithoutTask(s, t);
    if request.report.Some? {
      BatchedFiled(s, task.id, task.payloads, request.report, task.arn, now);
      var batched := Batched(s, task.id, task.payloads, request.report, task.arn, now);
      WithoutTask(batched, t);
      WithRequest(Ended(batched, t), task.id, request.(report := None));
    } else {
      WithRequest(Ended(s, t), task.id, request.(buffer := request.buffer + task.payloads));
    }
    hide Filed, AllAdded, Marked, KeepsBooks;
  }

  lemma ImmediateFiled(s: State, t: nat, ok: bool, now: int)
    requires Filed(s)
    ensures Filed(ImmediateOne(s, t, ok, now))
    ensures ImmediateOne(s, t, ok, now).filed == s.filed
  {
    if t in s.tasks && s.tasks[t].ImmediateSend? {
      var task := s.tasks[t];
      assert TaskFiled(s.filed, task);
      if task.remaining == [] {
        WithoutTask(s, t);
      } else {
        var s1 := s.(tasks := s.tasks[t := ImmediateSend(task.id, task.arn, task.remaining[1..])]);
        WithTask(s, t, ImmediateSend(task.id, task.arn, task.remaining[1..]));
        if ok {
          WithHistory(s1, ImmediateOne(s, t, ok, now));
        } else {
          BatchedFiled(s1, task.id, [task.remaining[0]], None, task.arn, now);
        }
      }
      hide Filed, AllAdded, Marked;
    }
  }

  lemma StartFiled(s: State, now: int)
    requires Filed(s)
    ensures Filed(SendSnapshot(s)) && Filed(SweepSnapshot(s, now))
    ensures SendSnapshot(s).filed == s.filed
    ensures SweepSnapshot(s, now).filed == s.filed
  {
    WithTask(s, s.clock, BatchSend(WithReports(s.batch)));
    WithTask(s, s.clock, Sweep(OlderThan(s.batch, now)));
    hide Filed, WithReports, OlderThan;
  }

  lemma KeepsRest(filed: Filing, entries: Entries, ids: set<string>)
    requires EntriesFiled(filed, entries)
    ensures EntriesFiled(filed, entries - ids)
  {
    hide EntryFiled;
  }

  lemma SnapshotFiled(s: State, t: nat, ok: bool)
    requires Filed(s)
    ensures Filed(SnapshotSent(s, t, ok))
    ensures SnapshotSent(s, t, ok).filed == s.filed
  {
    hide Bags.Bag, Seen, Unseen, LateNow, SnapshotSerials;
    if t in s.tasks && (s.tasks[t].BatchSend? || s.tasks[t].Sweep?) {
      var task := s.tasks[t];
      WithoutTask(s, t);
      KeepsRest(s.filed, s.batch, task.snapshot.Keys);
      WithBatch(Ended(s, t), s.batch - task.snapshot.Keys, s.batchedAt);
      hide Filed, EntriesFiled;
      if ok || task.Sweep? {
        WithHistory(Ended(s, t).(batch := s.batch - task.snapshot.Keys, batchedAt := s.batchedAt),
          SnapshotSent(s, t, ok));
      } else {
        WithHistory(Ended(s, t), SnapshotSent(s, t, ok));
      }
    }
  }

  lemma {:induction false} BufferItemsFiled(s: State, order: seq<string>, fallbackArn: string, now: int)
    requires Filed(s) && forall id <- order :: id in s.requests
    ensures ItemsFiled(s.filed, BufferItems(s.requests, order, fallbackArn, now))
  {
    if order != [] {
      var id := order[|order| - 1];
      BufferItemsFiled(s, order[..|order| - 1], fallbackArn, now);
      assert RequestFiled(s.filed, s.requests[id], id);
    }
  }

  lemma {:induction false} ChunksFiled(filed: Filing, chunks: seq<seq<Entry>>)
    requires ItemsFiled(filed, Cuts.Flatten(chunks))
    ensures forall i :: 0 <= i < |chunks| ==> ItemsFiled(filed, chunks[i])
  {
    if chunks != [] {
      var init, last := chunks[..|chunks| - 1], chunks[|chunks| - 1];
      var all := Cuts.Flatten(chunks);
      assert all == Cuts.Flatten(init) + last;
      assert ItemsFiled(filed, Cuts.Flatten(init)) by {
        forall i | 0 <= i < |Cuts.Flatten(init)|
          ensures EntryFiled(filed, Cuts.Flatten(init)[i], Cuts.Flatten(init)[i].requestId)
        {
          assert all[i] == Cuts.Flatten(init)[i];
        }
      }
      assert ItemsFiled(filed, last) by {
        forall i | 0 <= i < |last| ensures EntryFiled(filed, last[i], last[i].requestId) {
          assert all[|Cuts.Flatten(init)| + i] == last[i];
        }
      }
      ChunksFiled(filed, init);
    }
  }

  lemma ListedFiled(filed: Filing, items: seq<Entry>, entries: Entries)
    requires Lists(items, entries) && EntriesFiled(filed, entries)
    ensures ItemsFiled(filed, items)
  {
    forall i | 0 <= i < |items| ensures EntryFiled(filed, items[i], items[i].requestId) {
      assert entries[items[i].requestId] == items[i];
    }
  }

  lemma ItemsFiledConcat(filed: Filing, a: seq<Entry>, b: seq<Entry>)
    requires ItemsFiled(filed, a) && ItemsFiled(filed, b)
    ensures ItemsFiled(filed, a + b)
  {
    hide EntryFiled;
  }

  lemma ChunksOfFiled(filed: Filing, cfg: Config, items: seq<Entry>)
    requires ItemsFiled(filed, items)
    ensures TaskFiled(filed, ShutdownSend(ChunksOf(cfg, items)))
  {
    hide ItemsFiled, Cuts.GreedyCut;
    Cuts.GreedyCutFlattens(items, Chunks.ItemSize, RoomFor(cfg));
    ChunksFiled(filed, ChunksOf(cfg, items));
  }

  lemma CollectedFiled(s: State, task: Task)
    requires Filed(s) && TaskFiled(s.filed, task) && s.clock !in s.tasks
    ensures Filed(Spawned(s, task).(batch := map[], requests := map id | id in s.requests :: Drained(s.requests[id])))
  {
    WithTask(s, s.clock, task);
    WithBatch(Spawned(s, task), map[], s.batchedAt);
    var s1 := Spawned(s, task).(batch := map[], batchedAt := s.batchedAt);
    var requests := map id | id in s.requests :: Drained(s.requests[id]);
    forall id | id in requests ensures RequestFiled(s.filed, requests[id], id) {
      assert RequestFiled(s.filed, s.requests[id], id);
    }
    assert OrphansUnfiled(s1.(requests := requests));
    hide TaskFiled, RequestFiled, EntriesFiled;
  }

  lemma CollectFiled(cfg: Config, s: State, items: seq<Entry>, order: seq<string>, fallbackArn: string, now: int)
    requires Filed(s) && s.clock !in s.tasks
    ensures Filed(Collect(cfg, s, items, order, fallbackArn, now))
    ensures Collect(cfg, s, items, order, fallbackArn, now).filed == s.filed
  {
    if Lists(items, s.batch) && ListsKeys(order, s.requests) {
      var all := items + BufferItems(s.requests, order, fallbackArn, now);
      BufferItemsFiled(s, order, fallbackArn, now);
      ListedFiled(s.filed, items, s.batch);
      ItemsFiledConcat(s.filed, items, BufferItems(s.requests, order, fallbackArn, now));
      hide ItemsFiled, BufferItems, ChunksOf, Lists, ListsKeys;
      ChunksOfFiled(s.filed, cfg, all);
      CollectedFiled(s, ShutdownSend(ChunksOf(cfg, all)));
    }
  }

  lemma RestFiled(filed: Filing, chunks: seq<seq<Entry>>)
    requires chunks != [] && TaskFiled(filed, ShutdownSend(chunks))
    ensures TaskFiled(filed, ShutdownSend(chunks[1..]))
  {
    hide ItemsFiled;
  }

  lemma ChunkFiled(s: State, t: nat, ok: bool)
    requires Filed(s)
    ensures Filed(ChunkSent(s, t, ok))
    ensures ChunkSent(s, t, ok).filed == s.filed
  {
    if t in s.tasks && s.tasks[t].ShutdownSend? {
      var chunks := s.tasks[t].chunks;
      assert TaskFiled(s.filed, s.tasks[t]);
      if chunks == [] {
        WithoutTask(s, t);
      } else {
        RestFiled(s.filed, chunks);
        hide Filed, CarriedBy, Serials, TaskFiled, KeepsBooks;
        WithTask(s, t, ShutdownSend(chunks[1..]));
        WithHistory(s.(tasks := s.tasks[t := ShutdownSend(chunks[1..])]), ChunkSent(s, t, ok));
      }
    }
  }

  lemma TakeStaleFiled(s: State, id: string)
    requires Filed(s) && s.clock !in s.tasks
    ensures Filed(TakeStale(s, id))
    ensures TakeStale(s, id).filed == s.filed
  {
    if id in s.requests {
      var request := s.requests[id];
      assert RequestFiled(s.filed, request, id);
      WithTask(s, s.clock, StaleSend(id, request.buffer));
      WithRequest(Spawned(s, StaleSend(id, request.buffer)), id, request.(buffer := []));
    }
    hide Filed;
  }

  lemma WithoutRequest(s: State, id: string)
    requires Filed(s)
    ensures Filed(s.(requests := s.requests - {id}))
  {
    hide TaskFiled, RequestFiled, EntriesFiled;
  }

  lemma StaleOverFiled(s: State, t: nat, ok: bool)
    requires Filed(s) && t in s.tasks && s.tasks[t].StaleSend? && s.tasks[t].remaining == []
    ensures Filed(StaleOne(s, t, ok))
  {
    WithoutTask(s, t);
    WithoutRequest(Ended(s, t), s.tasks[t].id);
    hide Filed, KeepsBooks, RemovesNothing;
    WithHistory(Ended(s, t).(requests := s.requests - {s.tasks[t].id}), StaleOne(s, t, ok));
  }

  lemma StaleGoesOnFiled(s: State, t: nat, ok: bool)
    requires Filed(s) && t in s.tasks && s.tasks[t].StaleSend? && s.tasks[t].remaining != []
    ensures Filed(StaleOne(s, t, ok))
  {
    var task := s.tasks[t];
    assert TaskFiled(s.filed, task);
    WithTask(s, t, StaleSend(task.id, task.remaining[1..]));
    hide Filed, KeepsBooks, RemovesNothing;
    WithHistory(s.(tasks := s.tasks[t := StaleSend(task.id, task.remaining[1..])]), StaleOne(s, t, ok));
  }

  lemma StaleKeepsFiling(s: State, t: nat, ok: bool)
    ensures StaleOne(s, t, ok).filed == s.filed
  {
    hide KeepsBooks, RemovesNothing;
  }

  lemma StaleFiled(s: State, t: nat, ok: bool)
    requires Filed(s)
    ensures Filed(StaleOne(s, t, ok))
    ensures StaleOne(s, t, ok).filed == s.filed
  {
    StaleKeepsFiling(s, t, ok);
    if t in s.tasks && s.tasks[t].StaleSend? {
      if s.tasks[t].remaining == [] {
        StaleOverFiled(s, t, ok);
      } else {
        StaleGoesOnFiled(s, t, ok);
      }
      hide Filed, StaleOne;
    }
  }

  lemma ExtendsItself(filed: Filing)
    ensures Extends(filed, filed)
  {
  }

  lemma TouchFiled(s: State, active: Option<string>, clock: nat)
    requires Filed(s)
    ensures Filed(s.(active := active, clock := clock))
  {
    WithHistory(s, s.(active := active, clock := clock));
  }

  lemma StepFiled(cfg: Config, s: State, e: Event)
    requires Filed(s) && s.clock !in s.tasks
    ensures Filed(Step(cfg, s, e)) && Extends(Step(cfg, s, e).filed, s.filed)
  {
    StepIs(cfg, s, e);
    ExtendsItself(s.filed);
    hide *;
    match e {
      case Activate(id) => TouchFiled(s, Some(id), s.clock);
      case CreateRequest(id, arn) => CreateFiled(s, id, arn);
      case Arrive(bytes, late) => if CanArrive(s, late) { ArriveFiled(s, bytes, late); }
      case Route(t, fallbackArn) => RouteFiled(cfg, s, t, fallbackArn);
      case ReportArrives(report, fallbackArn) => ReportFiled(s, report, fallbackArn);
      case DrainCandidate(current, id, fallbackArn) => DrainFiled(s, current, id, fallbackArn);
      case PairNext(t, now) => PairFiled(s, t, now);
      case ProcessTake(id, arn) => TakeFiled(s, id, arn);
      case ProcessFinish(t, now) => DecideFiled(cfg, s, t, now);
      case ImmediateDone(t, ok, now) => ImmediateFiled(s, t, ok, now);
      case StartBatchSend => StartFiled(s, 0);
      case StartSweep(now) => StartFiled(s, now);
      case SnapshotDone(t, ok) => SnapshotFiled(s, t, ok);
      case CollectAtShutdown(items, order, fallbackArn, now) => CollectFiled(cfg, s, items, order, fallbackArn, now);
      case ChunkDone(t, ok) => ChunkFiled(s, t, ok);
      case StartStale(id) => TakeStaleFiled(s, id);
      case StaleDone(t, ok) => StaleFiled(s, t, ok);
    }
    TouchFiled(Effect(cfg, s, e), Effect(cfg, s, e).active, s.clock + 1);
  }

  /**
   * Over every interleaving, every payload and report in a buffer, a batch entry, a task or a shutdown item is
   * under the request id it was filed under, and that id never changes.
   */
  lemma {:induction false} NothingMisfiled(cfg: Config, events: seq<Event>, earlier: nat)
    requires earlier <= |events|
    ensures Filed(Run(cfg, events)) && (forall t <- Run(cfg, events).tasks :: t < Run(cfg, events).clock)
    ensures Extends(Run(cfg, events).filed, Run(cfg, events[..earlier]).filed)
  {
    if events == [] {
      ExtendsItself(INITIAL.filed);
    } else if earlier == |events| {
      assert events[..earlier] == events;
      NothingMisfiled(cfg, events, 0);
      ExtendsItself(Run(cfg, events).filed);
    } else {
      hide *;
      var init, e := events[..|events| - 1], events[|events| - 1];
      assert init[..earlier] == events[..earlier];
      RunEndsWith(cfg, events);
      NothingMisfiled(cfg, init, earlier);
      StepFiled(cfg, Run(cfg, init), e);
      StepStays(cfg, Run(cfg, init), e);
      ExtendsTwice(Run(cfg, events[..earlier]).filed, Run(cfg, init).filed, Run(cfg, events).filed);
    }
  }

  lemma RunEndsWith(cfg: Config, events: seq<Event>)
    requires events != []
    ensures Run(cfg, events) == Step(cfg, Run(cfg, events[..|events| - 1]), events[|events| - 1])
  {
    hide Step;
  }

  lemma StepStays(cfg: Config, s: State, e: Event)
    requires forall t <- s.tasks :: t < s.clock
    ensures forall t <- Step(cfg, s, e).tasks :: t < Step(cfg, s, e).clock
  {
    assert KeepsBooks(s, Effect(cfg, s, e));
    hide Effect;
  }

  lemma ExtendsTwice(a: Filing, b: Filing, c: Filing)
    requires Extends(b, a) && Extends(c, b)
    ensures Extends(c, a)
  {
  }

  // ---- Pending reports -------------------------------------------------------------------

  /** The ways in which the pending report of `id` may stop being the one it was. */
  ghost predicate PairedOrReplaced(cfg: Config, s: State, e: Event, id: string)
    requires id in s.requests && s.requests[id].report.Some?
  {
    var report, buffer, after := s.requests[id].report, s.requests[id].buffer, Step(cfg, s, e);
    match e
    case CreateRequest(created, _) => created == id
    case ReportArrives(newer, _) =>
      newer.requestId == id && id in after.requests && after.requests[id].report == Some(newer)
    case StaleDone(t, _) =>
      t in s.tasks && s.tasks[t].StaleSend? && s.tasks[t].id == id && s.tasks[t].remaining == []
    case DrainCandidate(_, _, arn) =>
      && buffer != [] && s.clock in after.tasks
      && after.tasks[s.clock] == Pairing(id, ArnOf(s.requests, id, arn), report.value, buffer)
    case ProcessFinish(t, _) =>
      && t in s.tasks && s.tasks[t].Processing? && s.tasks[t].id == id && s.tasks[t].payloads != []
      && id in after.batch && after.batch[id].report == report
      && var payloads := s.tasks[t].payloads;
         payloads[|payloads| - 1] in after.batch[id].payloads
    case CollectAtShutdown(_, _, arn, now) =>
      && buffer != [] && s.clock in after.tasks && after.tasks[s.clock].ShutdownSend?
      && forall p <- buffer ::
           BatchedAgentPayload(id, [p], report, ArnOf(s.requests, id, arn), now)
             in Cuts.Flatten(after.tasks[s.clock].chunks)
    case _ => false
  }

  ghost predicate KeptOrLeft(cfg: Config, s: State, e: Event, id: string)
    requires id in s.requests && s.requests[id].report.Some?
  {
    ReportKept(s, Step(cfg, s, e), id) || PairedOrReplaced(cfg, s, e, id)
  }

  lemma {:induction false} BufferItemsCover(s: State, order: seq<string>, fallbackArn: string, now: int, id: string,
                                            p: Payload)
    requires forall k <- order :: k in s.requests
    requires id in order && p in s.requests[id].buffer
    ensures BatchedAgentPayload(id, [p], s.requests[id].report, ArnOf(s.requests, id, fallbackArn), now)
      in BufferItems(s.requests, order, fallbackArn, now)
  {
    var init, last := order[..|order| - 1], order[|order| - 1];
    if id == last {
      var items := ItemsOf(id, ArnOf(s.requests, id, fallbackArn), s.requests[id].report, s.requests[id].buffer, now);
      var i :| 0 <= i < |s.requests[id].buffer| && s.requests[id].buffer[i] == p;
      assert items[i] == BatchedAgentPayload(id, [p], s.requests[id].report, ArnOf(s.requests, id, fallbackArn), now);
    } else {
      assert order == init + [last];
      BufferItemsCover(s, init, fallbackArn, now, id, p);
    }
  }

  lemma CollectKeepsOrPairs(cfg: Config, s: State, e: Event, id: string)
    requires e.CollectAtShutdown? && id in s.requests && s.requests[id].report.Some?
    ensures KeptOrLeft(cfg, s, e, id)
  {
    StepIs(cfg, s, e);
    hide KeepsBooks, LeavesNothing, RemovesNothing, Step, Effect, ChunksOf, BufferItems, Lists;
    if Lists(e.items, s.batch) && ListsKeys(e.order, s.requests) {
      var all := e.items + BufferItems(s.requests, e.order, e.fallbackArn, e.now);
      assert Cuts.Flatten(ChunksOf(cfg, all)) == all by { ChunksOfFlatten(cfg, all); }
      forall p | p in s.requests[id].buffer
        ensures BatchedAgentPayload(id, [p], s.requests[id].report, ArnOf(s.requests, id, e.fallbackArn), e.now) in all
      {
        BufferItemsCover(s, e.order, e.fallbackArn, e.now, id, p);
      }
    }
  }

  lemma ChunksOfFlatten(cfg: Config, items: seq<Entry>)
    ensures Cuts.Flatten(ChunksOf(cfg, items)) == items
  {
    Cuts.GreedyCutFlattens(items, Chunks.ItemSize, RoomFor(cfg));
  }

  lemma LastIsBatched(entries: Entries, id: string, payloads: seq<Payload>, report: Option<Report>, arn: string,
                      now: int)
    requires payloads != [] && report.Some?
    ensures var after := AllAdded(entries, id, payloads, report, arn, now);
      id in after && after[id].report == report && payloads[|payloads| - 1] in after[id].payloads
  {
    hide AllAdded;
    AllAddedReport(entries, id, payloads, report, arn, now);
    AllAddedPayloads(entries, id, payloads, report, arn, now);
  }

  lemma DecideReport(cfg: Config, s: State, t: nat, now: int, id: string)
    requires id in s.requests && s.requests[id].report.Some?
    ensures var report, after := s.requests[id].report, Decide(cfg, s, t, now);
      || (id in after.requests && after.requests[id].report == report)
      || (t in s.tasks && s.tasks[t].Processing? && s.tasks[t].id == id && s.tasks[t].payloads != []
          && id in after.batch && after.batch[id].report == report
          && s.tasks[t].payloads[|s.tasks[t].payloads| - 1] in after.batch[id].payloads)
  {
    hide AllAdded, Marked, KeepsBooks;
    if t in s.tasks && s.tasks[t].Processing? && s.tasks[t].id == id && s.tasks[t].payloads != [] {
      LastIsBatched(s.batch, id, s.tasks[t].payloads, s.requests[id].report, s.tasks[t].arn, now);
    }
  }

  lemma DecideKeepsOrPairs(cfg: Config, s: State, e: Event, id: string)
    requires e.ProcessFinish? && id in s.requests && s.requests[id].report.Some?
    ensures KeptOrLeft(cfg, s, e, id)
  {
    StepIs(cfg, s, e);
    DecideReport(cfg, s, e.task, e.now, id);
    hide KeepsBooks, LeavesNothing, RemovesNothing, Step, Effect, Decide;
  }

  ghost predicate ReportKept(s: State, after: State, id: string) {
    id in s.requests ==> id in after.requests && after.requests[id].report == s.requests[id].report
  }

  lemma ArrivalsKeepReports(cfg: Config, s: State, e: Event, id: string)
    requires e.Activate? || (e.CreateRequest? && e.id != id) || e.Arrive?
    ensures ReportKept(s, Step(cfg, s, e), id)
  {
    StepIs(cfg, s, e);
    hide KeepsBooks, LeavesNothing, RemovesNothing, Step, Effect, Marked;
  }

  lemma TakeStaleReport(s: State, stale: string, id: string)
    ensures ReportKept(s, TakeStale(s, stale), id)
  {
    hide KeepsBooks, LeavesNothing, RemovesNothing;
  }

  lemma StaleReport(s: State, t: nat, ok: bool, id: string)
    ensures ReportKept(s, StaleOne(s, t, ok), id)
            || (t in s.tasks && s.tasks[t].StaleSend? && s.tasks[t].id == id && s.tasks[t].remaining == [])
  {
    hide KeepsBooks, RemovesNothing;
  }

  lemma ReportKeptByClock(s: State, after: State, clock: nat, id: string)
    ensures ReportKept(s, after.(clock := clock), id) == ReportKept(s, after, id)
  {
  }

  lemma StaleKeepsOrDiscards(cfg: Config, s: State, e: Event, id: string)
    requires (e.StartStale? || e.StaleDone?) && id in s.requests && s.requests[id].report.Some?
    ensures KeptOrLeft(cfg, s, e, id)
  {
    StepIs(cfg, s, e);
    ReportKeptByClock(s, Effect(cfg, s, e), s.clock + 1, id);
    hide Step, Effect, TakeStale, StaleOne, ReportKept, KeepsBooks;
    if e.StartStale? {
      TakeStaleReport(s, e.id, id);
    } else {
      StaleReport(s, e.task, e.ok, id);
    }
  }

  lemma RouteReport(cfg: Config, s: State, t: nat, fallbackArn: string, id: string)
    ensures ReportKept(s, RouteOn(cfg, s, t, fallbackArn), id)
  {
    hide KeepsBooks, RemovesNothing, ArnOf;
  }

  lemma PairReport(s: State, t: nat, now: int, id: string)
    ensures ReportKept(s, PairOne(s, t, now), id)
  {
    hide KeepsBooks, LeavesNothing, AllAdded, Marked;
  }

  lemma TakeReport(s: State, taken: string, arn: string, id: string)
    ensures ReportKept(s, Take(s, taken, arn), id)
  {
    hide KeepsBooks, LeavesNothing, RemovesNothing;
  }

  lemma RoutesKeepReports(cfg: Config, s: State, e: Event, id: string)
    requires e.Route? || e.PairNext? || e.ProcessTake?
    ensures ReportKept(s, Step(cfg, s, e), id)
  {
    StepIs(cfg, s, e);
    ReportKeptByClock(s, Effect(cfg, s, e), s.clock + 1, id);
    hide *;
    match e
    case Route(t, fallbackArn) => RouteReport(cfg, s, t, fallbackArn, id);
    case PairNext(t, now) => PairReport(s, t, now, id);
    case ProcessTake(taken, arn) => TakeReport(s, taken, arn, id);
  }

  lemma SendsKeepReports(cfg: Config, s: State, e: Event, id: string)
    requires e.ImmediateDone? || e.StartBatchSend? || e.StartSweep?
    ensures ReportKept(s, Step(cfg, s, e), id)
  {
    StepIs(cfg, s, e);
    hide KeepsBooks, LeavesNothing, RemovesNothing, Step, Effect, AllAdded, Marked, WithReports, OlderThan;
  }

  lemma SnapshotKeepsRequests(s: State, t: nat, ok: bool)
    ensures SnapshotSent(s, t, ok).requests == s.requests
  {
    hide KeepsBooks, Bags.Bag, Seen, Unseen, LateNow, SnapshotSerials;
  }

  lemma RemovalsKeepReports(cfg: Config, s: State, e: Event, id: string)
    requires e.SnapshotDone? || e.ChunkDone?
    ensures ReportKept(s, Step(cfg, s, e), id)
  {
    StepIs(cfg, s, e);
    hide KeepsBooks, LeavesNothing, RemovesNothing, Step, Effect, SnapshotSent, ChunkSent;
    if e.SnapshotDone? {
      SnapshotKeepsRequests(s, e.task, e.ok);
    }
  }

  lemma ReportInReport(s: State, report: Report, fallbackArn: string, id: string)
    requires id in s.requests
    ensures var after := ReportIn(s, report, fallbackArn);
      && id in after.requests
      && (after.requests[id].report == s.requests[id].report
          || (report.requestId == id && after.requests[id].report == Some(report)))
  {
    hide KeepsBooks, LeavesNothing, Attached, ArnOf;
  }

  lemma ReportInKeepsOrReplaces(cfg: Config, s: State, e: Event, id: string)
    requires e.ReportArrives? && id in s.requests && s.requests[id].report.Some?
    ensures KeptOrLeft(cfg, s, e, id)
  {
    StepIs(cfg, s, e);
    ReportInReport(s, e.report, e.fallbackArn, id);
    hide KeepsBooks, LeavesNothing, RemovesNothing, Step, Effect, ReportIn;
  }

  lemma DrainKeepsOrPairs(cfg: Config, s: State, e: Event, id: string)
    requires e.DrainCandidate? && id in s.requests && s.requests[id].report.Some?
    ensures KeptOrLeft(cfg, s, e, id)
  {
    StepIs(cfg, s, e);
    hide KeepsBooks, LeavesNothing, RemovesNothing, Step, Effect, ArnOf;
  }

  lemma CreateKeepsOrDiscards(cfg: Config, s: State, e: Event, id: string)
    requires e.CreateRequest? && id in s.requests && s.requests[id].report.Some?
    ensures KeptOrLeft(cfg, s, e, id)
  {
    StepIs(cfg, s, e);
    hide KeepsBooks, LeavesNothing, RemovesNothing, Step, Effect, Marked;
  }

  /**
   * A pending report leaves its slot only by joining a payload of its own request, for a newer report, or with its
   * whole request when that is created again or removed as stale.
   */
  lemma ReportLeavesOnlyPaired(cfg: Config, s: State, e: Event, id: string)
    requires id in s.requests && s.requests[id].report.Some?
    ensures KeptOrLeft(cfg, s, e, id)
  {
    hide Step, PairedOrReplaced, ReportKept;
    match e
    case StartStale(_) => StaleKeepsOrDiscards(cfg, s, e, id);
    case StaleDone(_, _) => StaleKeepsOrDiscards(cfg, s, e, id);
    case CreateRequest(_, _) => CreateKeepsOrDiscards(cfg, s, e, id);
    case CollectAtShutdown(_, _, _, _) => CollectKeepsOrPairs(cfg, s, e, id);
    case ProcessFinish(_, _) => DecideKeepsOrPairs(cfg, s, e, id);
    case ReportArrives(_, _) => ReportInKeepsOrReplaces(cfg, s, e, id);
    case DrainCandidate(_, _, _) => DrainKeepsOrPairs(cfg, s, e, id);
    case ImmediateDone(_, _, _) => SendsKeepReports(cfg, s, e, id);
    case StartBatchSend => SendsKeepReports(cfg, s, e, id);
    case StartSweep(_) => SendsKeepReports(cfg, s, e, id);
    case SnapshotDone(_, _) => RemovalsKeepReports(cfg, s, e, id);
    case ChunkDone(_, _) => RemovalsKeepReports(cfg, s, e, id);
    case Route(_, _) => RoutesKeepReports(cfg, s, e, id);
    case PairNext(_, _) => RoutesKeepReports(cfg, s, e, id);
    case ProcessTake(_, _) => RoutesKeepReports(cfg, s, e, id);
    case _ => ArrivalsKeepReports(cfg, s, e, id);
  }
}
