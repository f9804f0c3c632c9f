/** The end of a send or sweep loses nothing exactly if all that it removes was sent as it is. */
module ServerlessExactness {
  import opened Types
  import opened Batch
  import opened Bags
  import opened Serverless
  import opened ServerlessLoss
  import opened ServerlessTheorems
  import ServerlessLedger

  // ---- Payloads on their way out ---------------------------------------------------------

  ghost predicate ShuttingDown(s: State, p: Payload) {
    exists t :: t in s.tasks && s.tasks[t].ShutdownSend? && p in Held(s.tasks[t])
  }

  /** `p` left, or waits in a shutdown chunk to leave: it will not be batched again. */
  ghost predicate Out(s: State, p: Payload) {
    ServerlessLedger.Gone(s, p) > 0 || ShuttingDown(s, p)
  }

  ghost predicate AllOut(s: State, payloads: seq<Payload>) {
    forall p <- payloads :: Out(s, p)
  }

  ghost predicate GoneGrows(s: State, after: State) {
    && s.settled <= after.settled && s.late <= after.late && s.failedSweep <= after.failedSweep
    && s.failedChunk <= after.failedChunk && s.failedStale <= after.failedStale && s.unrouted <= after.unrouted
    && s.discarded <= after.discarded
  }

  ghost predicate ShutdownKept(s: State, after: State) {
    forall t <- s.tasks :: s.tasks[t].ShutdownSend? ==> t in after.tasks && after.tasks[t] == s.tasks[t]
  }

  ghost predicate OutKept(s: State, after: State) {
    forall p: Payload :: Out(s, p) ==> Out(after, p)
  }

  lemma OutStays(s: State, after: State)
    requires GoneGrows(s, after) && ShutdownKept(s, after)
    ensures OutKept(s, after)
  {
    forall p: Payload | Out(s, p) ensures Out(after, p) {
      if !(ServerlessLedger.Gone(s, p) > 0) {
        var t :| t in s.tasks && s.tasks[t].ShutdownSend? && p in Held(s.tasks[t]);
        hide ServerlessLedger.Gone, Held;
        assert t in after.tasks && after.tasks[t].ShutdownSend? && p in Held(after.tasks[t]);
      }
    }
  }

  lemma NothingLeft(s: State, after: State)
    requires LeavesNothing(s, after)
    ensures GoneGrows(s, after)
  {
  }

  lemma NothingRemoved(s: State, after: State)
    requires RemovesNothing(s, after) && s.clock !in s.tasks
    ensures ShutdownKept(s, after) && s.batch.Keys <= after.batch.Keys
  {
  }

  // ---- What each event leaves out --------------------------------------------------------

  lemma CreateGone(s: State, id: string, arn: string)
    ensures GoneGrows(s, Create(s, id, arn))
  {
    hide KeepsBooks, RemovesNothing, Marked;
  }

  lemma RouteGone(cfg: Config, s: State, t: nat, fallbackArn: string)
    ensures GoneGrows(s, RouteOn(cfg, s, t, fallbackArn))
  {
    hide KeepsBooks, RemovesNothing, ArnOf;
  }

  lemma StaleGone(s: State, t: nat, ok: bool)
    ensures GoneGrows(s, StaleOne(s, t, ok))
  {
    hide KeepsBooks, RemovesNothing;
  }

  lemma PutBackGone(s: State, t: nat, now: int)
    requires t in s.tasks && s.tasks[t].Processing? && s.tasks[t].id in s.requests
    ensures GoneGrows(s, PairOrPutBack(s, t, now))
  {
    hide KeepsBooks, AllAdded, Marked;
  }

  lemma DecideGone(cfg: Config, s: State, t: nat, now: int)
    ensures GoneGrows(s, Decide(cfg, s, t, now))
  {
    hide KeepsBooks, PairOrPutBack;
    if t in s.tasks && s.tasks[t].Processing? && s.tasks[t].id in s.requests {
      PutBackGone(s, t, now);
    }
  }

  lemma ImmediateGone(s: State, t: nat, ok: bool, now: int)
    ensures GoneGrows(s, ImmediateOne(s, t, ok, now))
  {
    hide KeepsBooks, AllAdded, Marked;
  }

  lemma SnapshotGone(s: State, t: nat, ok: bool)
    ensures GoneGrows(s, SnapshotSent(s, t, ok))
  {
    hide KeepsBooks, Bag, Seen, Unseen, LateNow, SnapshotSerials;
  }

  lemma AttachedKeys(batch: Entries, id: string, report: Report)
    ensures Attached(batch, id, report).Keys == batch.Keys
  {
  }

  lemma {:induction false} AllAddedKeys(batch: Entries, id: string, payloads: seq<Payload>, report: Option<Report>,
                                        arn: string, now: int)
    ensures batch.Keys <= AllAdded(batch, id, payloads, report, arn, now).Keys
  {
    if payloads != [] {
      AllAddedKeys(batch, id, payloads[..|payloads| - 1], report, arn, now);
    }
  }

  lemma ReportKeeps(s: State, report: Report, fallbackArn: string)
    requires s.clock !in s.tasks
    ensures ShutdownKept(s, ReportIn(s, report, fallbackArn))
    ensures s.batch.Keys <= ReportIn(s, report, fallbackArn).batch.Keys
  {
    AttachedKeys(s.batch, report.requestId, report);
    hide KeepsBooks, LeavesNothing, Attached, ArnOf;
  }

  lemma PairKeeps(s: State, t: nat, now: int)
    ensures ShutdownKept(s, PairOne(s, t, now))
    ensures s.batch.Keys <= PairOne(s, t, now).batch.Keys
  {
    if t in s.tasks && s.tasks[t].Pairing? && s.tasks[t].remaining != [] {
      AllAddedKeys(s.batch, s.tasks[t].id, [s.tasks[t].remaining[0]], Some(s.tasks[t].report), s.tasks[t].arn, now);
    }
    hide KeepsBooks, LeavesNothing, AllAdded, Marked;
  }

  lemma PutBackKeeps(s: State, t: nat, now: int)
    requires t in s.tasks && s.tasks[t].Processing? && s.tasks[t].id in s.requests
    ensures ShutdownKept(s, PairOrPutBack(s, t, now))
    ensures s.batch.Keys <= PairOrPutBack(s, t, now).batch.Keys
  {
    var task := s.tasks[t];
    AllAddedKeys(s.batch, task.id, task.payloads, s.requests[task.id].report, task.arn, now);
    hide KeepsBooks, AllAdded, Marked;
  }

  lemma DecideKeeps(cfg: Config, s: State, t: nat, now: int)
    requires s.clock !in s.tasks
    ensures ShutdownKept(s, Decide(cfg, s, t, now))
  {
    if t in s.tasks && s.tasks[t].Processing? && s.tasks[t].id in s.requests {
      PutBackKeeps(s, t, now);
    }
    hide KeepsBooks, PairOrPutBack;
  }

  lemma DecideKeepsKeys(cfg: Config, s: State, t: nat, now: int)
    ensures s.batch.Keys <= Decide(cfg, s, t, now).batch.Keys
  {
    if t in s.tasks && s.tasks[t].Processing? && s.tasks[t].id in s.requests {
      PutBackKeeps(s, t, now);
    }
    hide KeepsBooks, PairOrPutBack;
  }

  lemma ImmediateKeeps(s: State, t: nat, ok: bool, now: int)
    ensures ShutdownKept(s, ImmediateOne(s, t, ok, now))
    ensures s.batch.Keys <= ImmediateOne(s, t, ok, now).batch.Keys
  {
    if t in s.tasks && s.tasks[t].ImmediateSend? && s.tasks[t].remaining != [] {
      AllAddedKeys(s.batch, s.tasks[t].id, [s.tasks[t].remaining[0]], None, s.tasks[t].arn, now);
    }
    hide KeepsBooks, AllAdded, Marked;
  }

  lemma SnapshotKeepsShutdown(s: State, t: nat, ok: bool)
    ensures ShutdownKept(s, SnapshotSent(s, t, ok))
  {
    hide KeepsBooks, Bag, Seen, Unseen, LateNow, SnapshotSerials;
  }

  lemma CollectKeepsShutdown(cfg: Config, s: State, items: seq<Entry>, order: seq<string>, fallbackArn: string,
                             now: int)
    requires s.clock !in s.tasks
    ensures ShutdownKept(s, Collect(cfg, s, items, order, fallbackArn, now))
  {
    hide KeepsBooks, LeavesNothing, Lists, ListsKeys, ChunksOf, BufferItems, Drained;
  }

  lemma ChunkKeepsOut(s: State, t: nat, ok: bool, p: Payload)
    requires t in s.tasks && s.tasks[t].ShutdownSend? && p in Held(s.tasks[t])
    ensures Out(ChunkSent(s, t, ok), p)
  {
    var chunks := s.tasks[t].chunks;
    if chunks == [] {
      ServerlessLedger.NoChunksHeld();
      assert false;
    } else {
      ServerlessLedger.ChunkLeaves(chunks, p);
      hide KeepsBooks, CarriedBy, Serials, Held;
      var after := ChunkSent(s, t, ok);
      if p !in CarriedBy(chunks[0]) {
        assert multiset(Held(ShutdownSend(chunks[1..])))[p] > 0;
        assert t in after.tasks && after.tasks[t].ShutdownSend? && p in Held(after.tasks[t]);
      }
    }
  }

  lemma ChunkGone(s: State, t: nat, ok: bool)
    ensures GoneGrows(s, ChunkSent(s, t, ok))
  {
    hide KeepsBooks, CarriedBy, Serials;
  }

  lemma ChunkKeepsOthers(s: State, t: nat, ok: bool)
    ensures forall u <- s.tasks :: u != t ==>
      u in ChunkSent(s, t, ok).tasks && ChunkSent(s, t, ok).tasks[u] == s.tasks[u]
  {
    hide KeepsBooks, CarriedBy, Serials;
  }

  lemma GoneStays(s: State, after: State, p: Payload)
    requires GoneGrows(s, after)
    ensures ServerlessLedger.Gone(s, p) <= ServerlessLedger.Gone(after, p)
  {
  }

  lemma ChunkStays(s: State, t: nat, ok: bool)
    ensures OutKept(s, ChunkSent(s, t, ok))
  {
    var after := ChunkSent(s, t, ok);
    ChunkGone(s, t, ok);
    ChunkKeepsOthers(s, t, ok);
    forall p: Payload | Out(s, p) ensures Out(after, p) {
      GoneStays(s, after, p);
      if !(ServerlessLedger.Gone(s, p) > 0) {
        var u :| u in s.tasks && s.tasks[u].ShutdownSend? && p in Held(s.tasks[u]);
        if u == t {
          ChunkKeepsOut(s, t, ok, p);
        } else {
          hide ServerlessLedger.Gone, Held, ChunkSent, GoneGrows;
          assert u in after.tasks && after.tasks[u].ShutdownSend? && p in Held(after.tasks[u]);
        }
      }
    }
  }

  // ---- Nothing on its way out comes back -------------------------------------------------

  lemma GoneOrLeft(cfg: Config, s: State, e: Event)
    ensures GoneGrows(s, Effect(cfg, s, e))
  {
    StepIs(cfg, s, e);
    hide *;
    match e {
      case CreateRequest(id, arn) => CreateGone(s, id, arn);
      case Route(t, fallbackArn) => RouteGone(cfg, s, t, fallbackArn);
      case ProcessFinish(t, now) => DecideGone(cfg, s, t, now);
      case ImmediateDone(t, ok, now) => ImmediateGone(s, t, ok, now);
      case SnapshotDone(t, ok) => SnapshotGone(s, t, ok);
      case ChunkDone(t, ok) => ChunkGone(s, t, ok);
      case StaleDone(t, ok) => StaleGone(s, t, ok);
      case _ =>
        MayReleaseIs(e);
        OthersRelease(cfg, s, e);
        NothingLeft(s, Effect(cfg, s, e));
    }
  }

  lemma SameRemovesNothing(s: State, active: Option<string>)
    ensures RemovesNothing(s, s.(active := active))
  {
  }

  /** Every event but the end of a send, a shutdown collection and a chunk keeps batch keys and shutdown tasks. */
  lemma KeysAndShutdownKept(cfg: Config, s: State, e: Event)
    requires s.clock !in s.tasks && !e.SnapshotDone? && !e.CollectAtShutdown? && !e.ChunkDone?
    ensures ShutdownKept(s, Effect(cfg, s, e)) && s.batch.Keys <= Effect(cfg, s, e).batch.Keys
  {
    StepIs(cfg, s, e);
    SameRemovesNothing(s, s.active);
    hide Step, Effect, KeepsBooks, LeavesNothing, RemovesNothing, ShutdownKept, ArriveOnPipe, Create, RouteOn, ReportIn,
         DrainOne, PairOne, Take, Decide, ImmediateOne, SendSnapshot, SweepSnapshot, TakeStale, StaleOne, CanArrive;
    match e {
      case Activate(id) => SameRemovesNothing(s, Some(id)); NothingRemoved(s, Effect(cfg, s, e));
      case ReportArrives(report, fallbackArn) => ReportKeeps(s, report, fallbackArn);
      case PairNext(t, now) => PairKeeps(s, t, now);
      case ProcessFinish(t, now) => DecideKeeps(cfg, s, t, now); DecideKeepsKeys(cfg, s, t, now);
      case ImmediateDone(t, ok, now) => ImmediateKeeps(s, t, ok, now);
      case _ => NothingRemoved(s, Effect(cfg, s, e));
    }
  }

  lemma StepOut(cfg: Config, s: State, e: Event)
    requires s.clock !in s.tasks
    ensures OutKept(s, Effect(cfg, s, e))
  {
    StepIs(cfg, s, e);
    GoneOrLeft(cfg, s, e);
    hide *;
    if e.ChunkDone? {
      ChunkStays(s, e.task, e.ok);
    } else {
      if e.SnapshotDone? {
        SnapshotKeepsShutdown(s, e.task, e.ok);
      } else if e.CollectAtShutdown? {
        CollectKeepsShutdown(cfg, s, e.items, e.order, e.fallbackArn, e.now);
      } else {
        KeysAndShutdownKept(cfg, s, e);
      }
      OutStays(s, Effect(cfg, s, e));
    }
  }

  // ---- What becomes of the entries of a snapshot -----------------------------------------

  /**
   * The entry of `id` has only been added to since the snapshot was taken, or all that it held then is on its way
   * out.
   */
  ghost predicate EntryEvolved(s: State, snapshot: Entries, id: string)
    requires id in snapshot
  {
    || (id in s.batch && snapshot[id].payloads <= s.batch[id].payloads)
    || AllOut(s, snapshot[id].payloads)
  }

  ghost predicate Evolved(s: State, snapshot: Entries) {
    forall id <- snapshot :: EntryEvolved(s, snapshot, id)
  }

  ghost predicate NoneEmpty(batch: Entries) {
    forall id <- batch :: batch[id].payloads != []
  }

  ghost predicate SnapshotsEvolved(s: State) {
    NoneEmpty(s.batch) && forall t <- s.tasks :: IsSnapshot(s.tasks[t]) ==> Evolved(s, s.tasks[t].snapshot)
  }

  lemma AllOutStays(s: State, after: State, payloads: seq<Payload>)
    requires AllOut(s, payloads) && OutKept(s, after)
    ensures AllOut(after, payloads)
  {
    hide Out;
  }

  /** Entries that are kept and only added to evolve further. */
  lemma EvolvesByAdding(s: State, after: State, batchedAt: map<nat, nat>, id: string, payloads: seq<Payload>,
                        snapshot: Entries)
    requires Evolved(s, snapshot) && OutKept(s, after)
    requires Adds(s, after.batch, batchedAt, id, payloads) && s.batch.Keys <= after.batch.Keys
    ensures Evolved(after, snapshot)
  {
    forall k | k in snapshot ensures EntryEvolved(after, snapshot, k) {
      assert EntryEvolved(s, snapshot, k);
      if AllOut(s, snapshot[k].payloads) {
        AllOutStays(s, after, snapshot[k].payloads);
      } else {
        hide AllOut, OutKept, Marked;
        assert k in after.batch;
      }
    }
  }

  lemma NoneEmptyByAdding(s: State, batch: Entries, batchedAt: map<nat, nat>, id: string, payloads: seq<Payload>)
    requires NoneEmpty(s.batch) && Adds(s, batch, batchedAt, id, payloads)
    ensures NoneEmpty(batch)
  {
    hide Marked;
  }

  lemma GrowsEvolves(s: State, after: State, id: string, payloads: seq<Payload>)
    requires SnapshotsEvolved(s) && Grows(s, after, id, payloads) && OutKept(s, after)
      && s.batch.Keys <= after.batch.Keys
    ensures SnapshotsEvolved(after)
  {
    NoneEmptyByAdding(s, after.batch, after.batchedAt, id, payloads);
    hide Adds, OutKept, Evolved, NoneEmpty;
    forall t | t in after.tasks && IsSnapshot(after.tasks[t]) ensures Evolved(after, after.tasks[t].snapshot) {
      EvolvesByAdding(s, after, after.batchedAt, id, payloads, after.tasks[t].snapshot);
    }
  }

  lemma EvolvesUnchanged(s: State, after: State, snapshot: Entries)
    requires Evolved(s, snapshot) && OutKept(s, after) && after.batch == s.batch
    ensures Evolved(after, snapshot)
  {
    forall k | k in snapshot ensures EntryEvolved(after, snapshot, k) {
      assert EntryEvolved(s, snapshot, k);
      if AllOut(s, snapshot[k].payloads) {
        AllOutStays(s, after, snapshot[k].payloads);
      }
      hide AllOut, OutKept;
    }
  }

  lemma FreshSnapshotEvolved(s: State, after: State, e: Event)
    requires after.batch == s.batch
    ensures Evolved(after, SnapshotBy(s, e))
  {
    hide AllOut;
  }

  lemma StartEvolves(s: State, after: State, e: Event)
    requires SnapshotsEvolved(s) && StartsSnapshot(s, after, SnapshotTask(s, e)) && OutKept(s, after)
    ensures SnapshotsEvolved(after)
  {
    FreshSnapshotEvolved(s, after, e);
    hide OutKept, Evolved, NoneEmpty, SnapshotBy, LateKept;
    forall t | t in after.tasks && IsSnapshot(after.tasks[t]) ensures Evolved(after, after.tasks[t].snapshot) {
      if t in s.tasks && s.tasks[t] == after.tasks[t] {
        EvolvesUnchanged(s, after, after.tasks[t].snapshot);
      }
    }
  }

  /** What a send removes is on its way out. */
  lemma RemovedIsOut(s: State, t: nat, ok: bool, id: string, p: Payload)
    requires Removes(s, t, ok) && id in s.tasks[t].snapshot && id in s.batch && p in s.batch[id].payloads
    ensures Out(SnapshotSent(s, t, ok), p)
  {
    var snapshot := s.tasks[t].snapshot;
    NotAmongIs(s.batch[id].payloads, snapshot[id].payloads, p);
    CountTake(Seen(s.batch, snapshot), id, Itself, p);
    CountTake(Unseen(s.batch, snapshot), id, Itself, p);
    assert Count(Seen(s.batch, snapshot), Itself, p) + Count(Unseen(s.batch, snapshot), Itself, p) > 0;
    hide Bag, Unseen, Seen, LateNow, SnapshotSerials, KeepsBooks, ShuttingDown;
  }

  lemma SnapshotSentBatch(s: State, t: nat, ok: bool)
    ensures SnapshotSent(s, t, ok).batch == if Removes(s, t, ok) then s.batch - s.tasks[t].snapshot.Keys else s.batch
  {
    hide Bag, Unseen, Seen, LateNow, SnapshotSerials, KeepsBooks;
  }

  lemma SentEvolves(s: State, t: nat, ok: bool, snapshot: Entries)
    requires Evolved(s, snapshot) && OutKept(s, SnapshotSent(s, t, ok))
    ensures Evolved(SnapshotSent(s, t, ok), snapshot)
  {
    var after := SnapshotSent(s, t, ok);
    SnapshotSentBatch(s, t, ok);
    hide SnapshotSent, KeepsBooks;
    forall k | k in snapshot ensures EntryEvolved(after, snapshot, k) {
      assert EntryEvolved(s, snapshot, k);
      if AllOut(s, snapshot[k].payloads) {
        AllOutStays(s, after, snapshot[k].payloads);
      } else if Removes(s, t, ok) && k in s.tasks[t].snapshot {
        forall p | p in snapshot[k].payloads ensures Out(after, p) {
          assert p in s.batch[k].payloads;
          RemovedIsOut(s, t, ok, k, p);
        }
      }
      hide Removes, OutKept, Out;
    }
  }

  lemma NoneEmptyLess(s: State, t: nat, ok: bool)
    requires NoneEmpty(s.batch)
    ensures NoneEmpty(SnapshotSent(s, t, ok).batch)
  {
    SnapshotSentBatch(s, t, ok);
    hide SnapshotSent, KeepsBooks;
  }

  lemma SnapshotSentEvolves(s: State, t: nat, ok: bool)
    requires SnapshotsEvolved(s) && OutKept(s, SnapshotSent(s, t, ok))
    ensures SnapshotsEvolved(SnapshotSent(s, t, ok))
  {
    var after := SnapshotSent(s, t, ok);
    SentKeepsTasks(s, t, ok);
    NoneEmptyLess(s, t, ok);
    hide SnapshotSent, Evolved, OutKept, NoneEmpty, KeepsBooks;
    forall u | u in after.tasks && IsSnapshot(after.tasks[u]) ensures Evolved(after, after.tasks[u].snapshot) {
      SentEvolves(s, t, ok, after.tasks[u].snapshot);
    }
  }

  /** What the shutdown collects from the batch is on its way out. */
  lemma CollectedIsOut(cfg: Config, s: State, items: seq<Entry>, order: seq<string>, fallbackArn: string, now: int,
                       id: string, p: Payload)
    requires Lists(items, s.batch) && ListsKeys(order, s.requests)
    requires id in s.batch && p in s.batch[id].payloads
    ensures Out(Collect(cfg, s, items, order, fallbackArn, now), p)
  {
    hide Bag, Lists, ChunksOf, BufferItems, CarriedBy, Drained, Held, KeepsBooks, LeavesNothing, ServerlessLedger.Gone;
    var after := Collect(cfg, s, items, order, fallbackArn, now);
    var all := items + BufferItems(s.requests, order, fallbackArn, now);
    CountTake(s.batch, id, Carried, p);
    ServerlessLedger.CollectedCount(s, items, order, fallbackArn, now, p);
    var task := ServerlessLedger.CollectedTask(cfg, all);
    assert multiset(CarriedBy(all))[p] > 0;
    assert s.clock in after.tasks && after.tasks[s.clock] == task && p in Held(task);
  }

  lemma CollectShape(cfg: Config, s: State, items: seq<Entry>, order: seq<string>, fallbackArn: string, now: int)
    requires Lists(items, s.batch) && ListsKeys(order, s.requests)
    ensures var after := Collect(cfg, s, items, order, fallbackArn, now);
      && after.batch == map[]
      && forall t <- after.tasks :: IsSnapshot(after.tasks[t]) ==> t in s.tasks && after.tasks[t] == s.tasks[t]
  {
    hide Lists, ChunksOf, BufferItems, Drained, KeepsBooks, LeavesNothing;
  }

  lemma CollectPutsOut(cfg: Config, s: State, items: seq<Entry>, order: seq<string>, fallbackArn: string, now: int,
                       snapshot: Entries)
    requires Lists(items, s.batch) && ListsKeys(order, s.requests) && Evolved(s, snapshot)
    requires OutKept(s, Collect(cfg, s, items, order, fallbackArn, now))
    ensures Evolved(Collect(cfg, s, items, order, fallbackArn, now), snapshot)
  {
    var after := Collect(cfg, s, items, order, fallbackArn, now);
    hide Collect, KeepsBooks, LeavesNothing, Lists, ListsKeys;
    forall k | k in snapshot ensures EntryEvolved(after, snapshot, k) {
      assert EntryEvolved(s, snapshot, k);
      if AllOut(s, snapshot[k].payloads) {
        AllOutStays(s, after, snapshot[k].payloads);
      } else {
        forall p | p in snapshot[k].payloads ensures Out(after, p) {
          assert p in s.batch[k].payloads;
          CollectedIsOut(cfg, s, items, order, fallbackArn, now, k, p);
        }
      }
      hide OutKept, Out;
    }
  }

  lemma CollectEvolves(cfg: Config, s: State, items: seq<Entry>, order: seq<string>, fallbackArn: string, now: int)
    requires SnapshotsEvolved(s) && OutKept(s, Collect(cfg, s, items, order, fallbackArn, now))
    ensures SnapshotsEvolved(Collect(cfg, s, items, order, fallbackArn, now))
  {
    var after := Collect(cfg, s, items, order, fallbackArn, now);
    if Lists(items, s.batch) && ListsKeys(order, s.requests) {
      CollectShape(cfg, s, items, order, fallbackArn, now);
      hide Collect, Evolved, OutKept, KeepsBooks, LeavesNothing, Lists, ListsKeys;
      forall u | u in after.tasks && IsSnapshot(after.tasks[u]) ensures Evolved(after, after.tasks[u].snapshot) {
        CollectPutsOut(cfg, s, items, order, fallbackArn, now, after.tasks[u].snapshot);
      }
    }
  }

  lemma ChunkEvolves(cfg: Config, s: State, e: Event)
    requires e.ChunkDone? && SnapshotsEvolved(s) && OutKept(s, ChunkSent(s, e.task, e.ok))
    ensures SnapshotsEvolved(ChunkSent(s, e.task, e.ok))
  {
    hide SnapshotsEvolved, OutKept;
    ChunkGrows(s, e.task, e.ok);
    hide ChunkSent, KeepsBooks;
    GrowsEvolves(s, ChunkSent(s, e.task, e.ok), "", []);
  }

  lemma ClockEvolves(s: State, clock: nat)
    requires SnapshotsEvolved(s)
    ensures SnapshotsEvolved(s.(clock := clock))
  {
    var after := s.(clock := clock);
    assert OutKept(s, after) by { OutStays(s, after); }
    hide OutKept, Evolved, NoneEmpty;
    forall t | t in after.tasks && IsSnapshot(after.tasks[t]) ensures Evolved(after, after.tasks[t].snapshot) {
      EvolvesUnchanged(s, after, after.tasks[t].snapshot);
    }
  }

  lemma StepEvolves(cfg: Config, s: State, e: Event)
    requires SnapshotsEvolved(s) && s.clock !in s.tasks
    ensures SnapshotsEvolved(Step(cfg, s, e))
  {
    StepIs(cfg, s, e);
    KindOf(cfg, s, e);
    StepOut(cfg, s, e);
    hide *;
    match e {
      case SnapshotDone(t, ok) => SnapshotSentEvolves(s, t, ok);
      case CollectAtShutdown(items, order, fallbackArn, now) => CollectEvolves(cfg, s, items, order, fallbackArn, now);
      case ChunkDone(_, _) => ChunkEvolves(cfg, s, e);
      case StartBatchSend => StartEvolves(s, Effect(cfg, s, e), e);
      case StartSweep(_) => StartEvolves(s, Effect(cfg, s, e), e);
      case _ =>
        KeysAndShutdownKept(cfg, s, e);
        GrowsEvolves(s, Effect(cfg, s, e), AddedBy(cfg, s, e).0, AddedBy(cfg, s, e).1);
    }
    ClockEvolves(Effect(cfg, s, e), s.clock + 1);
  }

  lemma {:induction false} AlwaysEvolved(cfg: Config, events: seq<Event>)
    ensures SnapshotsEvolved(Run(cfg, events))
  {
    if events != [] {
      hide SnapshotsEvolved, Step;
      AlwaysEvolved(cfg, events[..|events| - 1]);
      TasksInPast(cfg, events[..|events| - 1]);
      StepEvolves(cfg, Run(cfg, events[..|events| - 1]), events[|events| - 1]);
    } else {
      assert NoneEmpty(map[]);
    }
  }

  // ---- Exactness -------------------------------------------------------------------------

  /** A batched payload is in its entry once and is not on its way out. */
  lemma BatchedIsInOnce(cfg: Config, events: seq<Event>, id: string, p: Payload)
    requires id in Run(cfg, events).batch && p in Run(cfg, events).batch[id].payloads
    ensures multiset(Run(cfg, events).batch[id].payloads)[p] == 1 && !Out(Run(cfg, events), p)
  {
    var s := Run(cfg, events);
    ServerlessLedger.ExactlyOnce(cfg, events, p);
    hide Run, Bag, Held, ServerlessLedger.Gone;
    CountTake(s.batch, id, Carried, p);
    if ShuttingDown(s, p) {
      var t :| t in s.tasks && s.tasks[t].ShutdownSend? && p in Held(s.tasks[t]);
      CountTake(s.tasks, t, Held, p);
    }
  }

  lemma ExtraIsUnseen(longer: seq<Payload>, shorter: seq<Payload>) returns (p: Payload)
    requires shorter <= longer && shorter != longer
    requires forall q <- longer :: multiset(longer)[q] == 1
    ensures p in longer && p !in shorter
  {
    var rest := longer[|shorter|..];
    assert longer == shorter + rest;
    p := rest[0];
    assert multiset(longer)[p] == multiset(shorter)[p] + multiset(rest)[p];
  }

  /** An entry that is not what the snapshot holds has a payload that the snapshot lacks. */
  lemma ChangedHoldsUnseen(cfg: Config, events: seq<Event>, t: nat, id: string) returns (p: Payload)
    requires var s := Run(cfg, events);
      && t in s.tasks && IsSnapshot(s.tasks[t]) && id in s.tasks[t].snapshot && id in s.batch
      && s.batch[id].payloads != s.tasks[t].snapshot[id].payloads
    ensures var s := Run(cfg, events);
      p in s.batch[id].payloads && p !in s.tasks[t].snapshot[id].payloads
  {
    var s := Run(cfg, events);
    var now, taken := s.batch[id].payloads, s.tasks[t].snapshot[id].payloads;
    AlwaysEvolved(cfg, events);
    assert EntryEvolved(s, s.tasks[t].snapshot, id) && now != [];
    forall q | q in now ensures multiset(now)[q] == 1 && !Out(s, q) {
      BatchedIsInOnce(cfg, events, id, q);
    }
    hide Run, Out, SnapshotsEvolved;
    if taken <= now {
      p := ExtraIsUnseen(now, taken);
    } else {
      p := now[0];
    }
  }

  /**
   * Every entry that the end of task `t` removes still holds exactly what the task took for sending, and it was sent.
   */
  ghost predicate AllSentUnchanged(s: State, t: nat, ok: bool)
    requires t in s.tasks && IsSnapshot(s.tasks[t])
  {
    forall id <- s.tasks[t].snapshot :: id in s.batch ==> ok && s.batch[id].payloads == s.tasks[t].snapshot[id].payloads
  }

  lemma UnchangedLosesNothing(s: State, t: nat, ok: bool)
    requires Removes(s, t, ok) && AllSentUnchanged(s, t, ok)
    ensures SnapshotSent(s, t, ok).late == s.late && SnapshotSent(s, t, ok).failedSweep == s.failedSweep
  {
    var snapshot := s.tasks[t].snapshot;
    CurrentRemovalLosesNothing(s.batch, snapshot);
    if !ok {
      assert Seen(s.batch, snapshot) == map[];
      NothingInNone();
    }
    RemovalIs(s, t, ok);
    hide SnapshotSent, Bag, Seen, Unseen, KeepsBooks;
  }

  lemma NothingInNone()
    ensures Bag<string, seq<Payload>, Payload>(map[], Itself) == multiset{}
  {
  }

  /** The two ways in which a removing end of a task can lose payloads. */
  lemma RemovalIs(s: State, t: nat, ok: bool)
    requires Removes(s, t, ok)
    ensures var after, snapshot := SnapshotSent(s, t, ok), s.tasks[t].snapshot;
      && after.late == s.late + Bag(Unseen(s.batch, snapshot), Itself)
      && after.failedSweep == if ok then s.failedSweep else s.failedSweep + Bag(Seen(s.batch, snapshot), Itself)
  {
    hide Bag, Seen, Unseen, LateNow, SnapshotSerials, KeepsBooks;
  }

  /** A sweep whose send failed loses every payload it removes. */
  lemma FailedSweepLoses(s: State, t: nat, id: string, p: Payload)
    requires Removes(s, t, false) && id in s.tasks[t].snapshot && id in s.batch && p in s.batch[id].payloads
    ensures var after := SnapshotSent(s, t, false);
      after.late[p] > s.late[p] || after.failedSweep[p] > s.failedSweep[p]
  {
    var snapshot := s.tasks[t].snapshot;
    NotAmongIs(s.batch[id].payloads, snapshot[id].payloads, p);
    CountTake(Seen(s.batch, snapshot), id, Itself, p);
    CountTake(Unseen(s.batch, snapshot), id, Itself, p);
    assert Count(Seen(s.batch, snapshot), Itself, p) + Count(Unseen(s.batch, snapshot), Itself, p) > 0;
    RemovalIs(s, t, false);
    hide Bag, Unseen, Seen, SnapshotSent, KeepsBooks, Removes;
  }

  lemma OthersLose(cfg: Config, events: seq<Event>, t: nat, ok: bool)
    requires Removes(Run(cfg, events), t, ok) && !AllSentUnchanged(Run(cfg, events), t, ok)
    ensures var s := Run(cfg, events);
      var after := SnapshotSent(s, t, ok);
      after.late != s.late || after.failedSweep != s.failedSweep
  {
    var s := Run(cfg, events);
    var id :| id in s.tasks[t].snapshot && id in s.batch
      && !(ok && s.batch[id].payloads == s.tasks[t].snapshot[id].payloads);
    AlwaysEvolved(cfg, events);
    assert s.batch[id].payloads != [];
    hide Run, SnapshotSent, KeepsBooks, SnapshotsEvolved, AllSentUnchanged;
    if ok {
      var p := ChangedHoldsUnseen(cfg, events, t, id);
      UnseenIsLate(s, t, ok, id, p);
    } else {
      FailedSweepLoses(s, t, id, s.batch[id].payloads[0]);
    }
  }

  /** The remaining ways of losing a payload are none of a send's or a sweep's business. */
  lemma OnlyLateOrSwept(s: State, t: nat, ok: bool)
    ensures LosesNothing(s, SnapshotSent(s, t, ok))
  {
    hide Bag, Seen, Unseen, LateNow, SnapshotSerials, KeepsBooks;
  }

  /**
   * The promise of the batch send, that payloads are removed only after they are sent, exactly: in every reachable
   * state the end of a removing send or sweep loses nothing if and only if either it removes no entry, or its send
   * succeeded and each entry it removes still holds exactly the payloads that were taken for sending.
   */
  lemma RemovalLosesNothingExactlyIf(cfg: Config, events: seq<Event>, t: nat, ok: bool)
    requires Removes(Run(cfg, events), t, ok)
    ensures var s := Run(cfg, events);
      var after := Step(cfg, s, SnapshotDone(t, ok));
      after.late == s.late && after.failedSweep == s.failedSweep <==>
      forall id <- s.tasks[t].snapshot :: id in s.batch ==>
        ok && s.batch[id].payloads == s.tasks[t].snapshot[id].payloads
    ensures LosesNothing(Run(cfg, events), Step(cfg, Run(cfg, events), SnapshotDone(t, ok)))
  {
    var s := Run(cfg, events);
    OnlyLateOrSwept(s, t, ok);
    StepIs(cfg, s, SnapshotDone(t, ok));
    if AllSentUnchanged(s, t, ok) {
      UnchangedLosesNothing(s, t, ok);
    } else {
      OthersLose(cfg, events, t, ok);
    }
    hide Run, Step, Effect, SnapshotSent, KeepsBooks;
  }
}
