/** Conservation over every run of the serverless machine. */
module ServerlessLedger {
  import opened Types
  import opened Batch
  import opened Bags
  import opened Serverless
  import Cuts
  import Chunks

  /** How often `p` is still held somewhere. */
  ghost function InPlace(s: State, p: Payload): nat {
    multiset(s.orphans)[p] + Count(s.requests, Buffered, p) + Count(s.batch, Carried, p) + Count(s.tasks, Held, p)
  }

  /** How often `p` left, in one of the recorded ways. */
  ghost function Gone(s: State, p: Payload): nat {
    s.settled[p] + s.late[p] + s.failedSweep[p] + s.failedChunk[p] + s.failedStale[p] + s.unrouted[p] + s.discarded[p]
  }

  ghost predicate Balanced(s: State, p: Payload) {
    multiset(s.arrived)[p] == InPlace(s, p) + Gone(s, p)
  }

  // ---- Effects on the parts --------------------------------------------------------------

  lemma AddedCount(entries: Entries, id: string, payload: Payload, report: Option<Report>, arn: string, now: int,
                   p: Payload)
    ensures Count(Added(entries, id, payload, report, arn, now), Carried, p) ==
      Count(entries, Carried, p) + multiset([payload])[p]
  {
    hide Bag;
    var entry := Added(entries, id, payload, report, arn, now)[id];
    CountUpdate(entries, id, entry, Carried, p);
    if id in entries {
      assert entry.payloads == entries[id].payloads + [payload];
    } else {
      assert entry.payloads == [payload];
    }
  }

  lemma {:induction false} AllAddedCount(entries: Entries, id: string, payloads: seq<Payload>, report: Option<Report>,
                                         arn: string, now: int, p: Payload)
    ensures Count(AllAdded(entries, id, payloads, report, arn, now), Carried, p) ==
      Count(entries, Carried, p) + multiset(payloads)[p]
  {
    hide Bag;
    if payloads != [] {
      var init, last := payloads[..|payloads| - 1], payloads[|payloads| - 1];
      assert payloads == init + [last];
      AllAddedCount(entries, id, init, report, arn, now, p);
      AddedCount(AllAdded(entries, id, init, report, arn, now), id, last, report, arn, now, p);
    }
  }

  lemma AttachedCount(entries: Entries, id: string, report: Report, p: Payload)
    ensures Count(Attached(entries, id, report), Carried, p) == Count(entries, Carried, p)
  {
    hide Bag;
    if id in entries {
      CountUpdate(entries, id, Attached(entries, id, report)[id], Carried, p);
    }
  }

  lemma {:induction false} AmongSplits(payloads: seq<Payload>, known: seq<Payload>, p: Payload)
    ensures multiset(payloads)[p] == multiset(Among(payloads, known))[p] + multiset(NotAmong(payloads, known))[p]
  {
    if payloads != [] {
      var init, last := payloads[..|payloads| - 1], payloads[|payloads| - 1];
      assert payloads == init + [last];
      AmongSplits(init, known, p);
    }
  }

  lemma {:induction false} SeenAndUnseen(batch: Entries, snapshot: Entries, p: Payload)
    requires batch.Keys <= snapshot.Keys
    ensures Count(batch, Carried, p)
      == Count(Seen(batch, snapshot), Itself, p) + Count(Unseen(batch, snapshot), Itself, p)
    decreases |batch|
  {
    if batch == map[] {
      assert Seen(batch, snapshot) == map[] && Unseen(batch, snapshot) == map[];
    } else {
      var id :| id in batch;
      var rest := batch - {id};
      assert Seen(batch, snapshot) - {id} == Seen(rest, snapshot);
      assert Unseen(batch, snapshot) - {id} == Unseen(rest, snapshot);
      SeenAndUnseen(rest, snapshot, p);
      CountTake(batch, id, Carried, p);
      CountTake(Seen(batch, snapshot), id, Itself, p);
      CountTake(Unseen(batch, snapshot), id, Itself, p);
      AmongSplits(batch[id].payloads, snapshot[id].payloads, p);
    }
  }

  lemma RemovalCount(batch: Entries, snapshot: Entries, p: Payload)
    ensures Count(batch, Carried, p) == Count(batch - snapshot.Keys, Carried, p)
      + Count(Seen(batch, snapshot), Itself, p) + Count(Unseen(batch, snapshot), Itself, p)
  {
    hide Bag;
    var hit := Only(batch, snapshot.Keys);
    assert Seen(batch, snapshot) == Seen(hit, snapshot);
    assert Unseen(batch, snapshot) == Unseen(hit, snapshot);
    CountSplit(batch, snapshot.Keys, Carried, p);
    SeenAndUnseen(hit, snapshot, p);
  }

  lemma {:induction false} CarriedByConcat(a: seq<Entry>, b: seq<Entry>)
    ensures CarriedBy(a + b) == CarriedBy(a) + CarriedBy(b)
  {
    if b == [] {
      assert a + b == a;
    } else {
      assert (a + b)[..|a + b| - 1] == a + b[..|b| - 1];
      CarriedByConcat(a, b[..|b| - 1]);
    }
  }

  lemma {:induction false} ListedCount(items: seq<Entry>, entries: Entries, p: Payload)
    requires Lists(items, entries)
    ensures multiset(CarriedBy(items))[p] == Count(entries, Carried, p)
    decreases |items|
  {
    if items == [] {
      assert entries == map[];
    } else {
      var init, last := items[..|items| - 1], items[|items| - 1];
      var rest := entries - {last.requestId};
      assert rest.Keys == entries.Keys - {last.requestId};
      ListedCount(init, rest, p);
      CountTake(entries, last.requestId, Carried, p);
    }
  }

  lemma {:induction false} ItemsCarry(id: string, arn: string, report: Option<Report>, payloads: seq<Payload>, now: int)
    ensures CarriedBy(ItemsOf(id, arn, report, payloads, now)) == payloads
  {
    if payloads != [] {
      var init := payloads[..|payloads| - 1];
      var items := ItemsOf(id, arn, report, payloads, now);
      assert items[..|items| - 1] == ItemsOf(id, arn, report, init, now);
      ItemsCarry(id, arn, report, init, now);
    }
  }

  lemma OnlyPush<V>(m: map<string, V>, init: seq<string>, id: string, order: seq<string>)
    requires order == init + [id] && id !in init && id in m
    ensures var part := Only(m, set k <- order);
      id in part && part[id] == m[id] && part - {id} == Only(m, set k <- init)
  {
  }

  lemma {:induction false} BufferItemsCount(s: State, order: seq<string>, fallbackArn: string, now: int, p: Payload)
    requires forall id <- order :: id in s.requests
    requires forall i, j :: 0 <= i < j < |order| ==> order[i] != order[j]
    ensures multiset(CarriedBy(BufferItems(s.requests, order, fallbackArn, now)))[p] ==
      Count(Only(s.requests, set id <- order), Buffered, p)
  {
    if order == [] {
      assert Only(s.requests, set id <- order) == map[];
    } else {
      var init, id := order[..|order| - 1], order[|order| - 1];
      var part := Only(s.requests, set id <- order);
      OnlyPush(s.requests, init, id, order);
      hide Bag, Only, CarriedBy, ItemsOf, ArnOf;
      BufferItemsCount(s, init, fallbackArn, now, p);
      var request := s.requests[id];
      var earlier := BufferItems(s.requests, init, fallbackArn, now);
      var own := ItemsOf(id, ArnOf(s.requests, id, fallbackArn), request.report, request.buffer, now);
      ItemsCarry(id, ArnOf(s.requests, id, fallbackArn), request.report, request.buffer, now);
      CarriedByConcat(earlier, own);
      CountTake(part, id, Buffered, p);
    }
  }

  lemma HeadAndTail(payloads: seq<Payload>, p: Payload)
    requires payloads != []
    ensures multiset(payloads)[p] == multiset([payloads[0]])[p] + multiset(payloads[1..])[p]
  {
    assert payloads == [payloads[0]] + payloads[1..];
  }

  // ---- Every event keeps the balance -----------------------------------------------------

  lemma ActivateBalanced(s: State, id: string, p: Payload)
    requires Balanced(s, p)
    ensures Balanced(s.(active := Some(id)), p)
  {
    hide Bag;
  }

  lemma CreateBalanced(s: State, id: string, arn: string, p: Payload)
    requires Balanced(s, p)
    ensures Balanced(Create(s, id, arn), p)
  {
    hide Bag;
    CountUpdate(s.requests, id, Request(s.orphans, None, arn), Buffered, p);
  }

  lemma ArriveBalanced(s: State, bytes: seq<Byte>, late: string, p: Payload)
    requires Balanced(s, p) && s.clock !in s.tasks
    requires CanArrive(s, late)
    ensures Balanced(ArriveOnPipe(s, bytes, late), p)
  {
    hide Bag, KeepsBooks, LeavesNothing, RemovesNothing, AllAdded, Marked, ArnOf, CarriedBy;
    var payload := Payload(|s.arrived|, bytes);
    assert multiset(s.arrived + [payload])[p] == multiset(s.arrived)[p] + multiset([payload])[p];
    assert multiset(s.orphans + [payload])[p] == multiset(s.orphans)[p] + multiset([payload])[p];
    var id := if s.active.Some? then s.active.value else late;
    CountUpdate(s.tasks, s.clock, Routing(id, payload, s.active.Some?), Held, p);
  }

  /** Ending a task and starting another, in terms of the count. */
  lemma SwapTask(s: State, t: nat, task: Task, p: Payload)
    requires t in s.tasks && s.clock !in s.tasks
    ensures Count(Spawned(Ended(s, t), task).tasks, Held, p) + multiset(Held(s.tasks[t]))[p]
            == Count(s.tasks, Held, p) + multiset(Held(task))[p]
  {
    hide Bag;
    CountTake(s.tasks, t, Held, p);
    CountUpdate(Ended(s, t).tasks, s.clock, task, Held, p);
  }

  lemma HeldIs(id: string, arn: string, active: bool, payload: Payload, payloads: seq<Payload>)
    ensures Held(Routing(id, payload, active)) == [payload]
    ensures Held(Processing(id, arn, payloads)) == payloads && Held(ImmediateSend(id, arn, payloads)) == payloads
    ensures Held(StaleSend(id, payloads)) == payloads
  {
  }

  lemma RouteBalanced(cfg: Config, s: State, t: nat, fallbackArn: string, p: Payload)
    requires Balanced(s, p) && s.clock !in s.tasks
    ensures Balanced(RouteOn(cfg, s, t, fallbackArn), p)
  {
    hide Bag, KeepsBooks, LeavesNothing, RemovesNothing, ArnOf, Held;
    if t in s.tasks && s.tasks[t].Routing? {
      var task := s.tasks[t];
      HeldIs(task.id, ArnOf(s.requests, task.id, fallbackArn), task.active, task.payload, [task.payload]);
      CountTake(s.tasks, t, Held, p);
      SwapTask(s, t, ImmediateSend(task.id, ArnOf(s.requests, task.id, fallbackArn), [task.payload]), p);
      if task.id in s.requests {
        var request := s.requests[task.id];
        CountUpdate(s.requests, task.id, request.(buffer := request.buffer + [task.payload]), Buffered, p);
      }
    }
  }

  /** A report that finds payloads takes them out of the buffer into its task. */
  lemma BufferToTask(s: State, id: string, request: Request, task: Task, p: Payload)
    requires id in s.requests && request.buffer == [] && Held(task) == s.requests[id].buffer && s.clock !in s.tasks
    ensures Count(s.tasks[s.clock := task], Held, p) + Count(s.requests[id := request], Buffered, p)
            == Count(s.tasks, Held, p) + Count(s.requests, Buffered, p)
  {
    hide Bag;
    CountUpdate(s.tasks, s.clock, task, Held, p);
    CountUpdate(s.requests, id, request, Buffered, p);
  }

  lemma ReportBalanced(s: State, report: Report, fallbackArn: string, p: Payload)
    requires Balanced(s, p) && s.clock !in s.tasks
    ensures Balanced(ReportIn(s, report, fallbackArn), p)
  {
    hide Bag, Count, KeepsBooks, LeavesNothing, RemovesNothing, AllAdded, Marked, ArnOf, CarriedBy;
    var id := report.requestId;
    if id in s.batch {
      AttachedCount(s.batch, id, report, p);
    } else if id in s.requests {
      var request := s.requests[id];
      if request.buffer == [] {
        CountUpdate(s.requests, id, request.(report := Some(report)), Buffered, p);
      } else {
        var task := Pairing(id, ArnOf(s.requests, id, fallbackArn), report, request.buffer);
        BufferToTask(s, id, request.(buffer := []), task, p);
      }
    }
  }

  lemma DrainBalanced(s: State, current: string, id: string, fallbackArn: string, p: Payload)
    requires Balanced(s, p) && s.clock !in s.tasks
    ensures Balanced(DrainOne(s, current, id, fallbackArn), p)
  {
    hide Bag, KeepsBooks, LeavesNothing, RemovesNothing, AllAdded, Marked, ArnOf, CarriedBy;
    if id in s.requests && s.requests[id].report.Some? {
      var request := s.requests[id];
      CountUpdate(s.tasks, s.clock,
        Pairing(id, ArnOf(s.requests, id, fallbackArn), request.report.value, request.buffer), Held, p);
      CountUpdate(s.requests, id, request.(buffer := [], report := None), Buffered, p);
    }
  }

  lemma PairBalanced(s: State, t: nat, now: int, p: Payload)
    requires Balanced(s, p) && s.clock !in s.tasks
    ensures Balanced(PairOne(s, t, now), p)
  {
    hide Bag, Count, KeepsBooks, LeavesNothing, RemovesNothing, AllAdded, Marked, ArnOf, CarriedBy;
    if t in s.tasks && s.tasks[t].Pairing? {
      var task := s.tasks[t];
      if task.remaining == [] {
        CountTake(s.tasks, t, Held, p);
      } else {
        HeadAndTail(task.remaining, p);
        AllAddedCount(s.batch, task.id, [task.remaining[0]], Some(task.report), task.arn, now, p);
        CountUpdate(s.tasks, t, Pairing(task.id, task.arn, task.report, task.remaining[1..]), Held, p);
      }
    }
  }

  lemma TakeBalanced(s: State, id: string, arn: string, p: Payload)
    requires Balanced(s, p) && s.clock !in s.tasks
    ensures Balanced(Take(s, id, arn), p)
  {
    hide Bag, KeepsBooks, LeavesNothing, RemovesNothing, AllAdded, Marked, ArnOf, CarriedBy;
    if id in s.requests {
      CountUpdate(s.tasks, s.clock, Processing(id, arn, s.requests[id].buffer), Held, p);
      CountUpdate(s.requests, id, s.requests[id].(buffer := []), Buffered, p);
    }
  }

  lemma PutBackBalanced(s: State, t: nat, now: int, p: Payload)
    requires Balanced(s, p) && t in s.tasks && s.tasks[t].Processing? && s.tasks[t].id in s.requests
    ensures Balanced(PairOrPutBack(s, t, now), p)
  {
    hide Bag, KeepsBooks, AllAdded, Marked, Held;
    var task := s.tasks[t];
    var request := s.requests[task.id];
    HeldIs(task.id, task.arn, true, p, task.payloads);
    CountTake(s.tasks, t, Held, p);
    if request.report.Some? {
      AllAddedCount(s.batch, task.id, task.payloads, request.report, task.arn, now, p);
      CountUpdate(s.requests, task.id, request.(report := None), Buffered, p);
    } else {
      CountUpdate(s.requests, task.id, request.(buffer := request.buffer + task.payloads), Buffered, p);
    }
  }

  lemma DecideBalanced(cfg: Config, s: State, t: nat, now: int, p: Payload)
    requires Balanced(s, p) && s.clock !in s.tasks
    ensures Balanced(Decide(cfg, s, t, now), p)
  {
    hide Bag, Count, KeepsBooks, Held, PairOrPutBack;
    if t in s.tasks && s.tasks[t].Processing? {
      var task := s.tasks[t];
      HeldIs(task.id, task.arn, true, p, task.payloads);
      CountTake(s.tasks, t, Held, p);
      SwapTask(s, t, ImmediateSend(task.id, task.arn, task.payloads), p);
      if task.id in s.requests {
        PutBackBalanced(s, t, now, p);
      }
    }
  }

  lemma TakeStaleBalanced(s: State, id: string, p: Payload)
    requires Balanced(s, p) && s.clock !in s.tasks
    ensures Balanced(TakeStale(s, id), p)
  {
    hide Bag, KeepsBooks, LeavesNothing, RemovesNothing;
    if id in s.requests {
      CountUpdate(s.tasks, s.clock, StaleSend(id, s.requests[id].buffer), Held, p);
      CountUpdate(s.requests, id, s.requests[id].(buffer := []), Buffered, p);
    }
  }

  lemma StaleLeavesTask(s: State, t: nat, p: Payload)
    requires t in s.tasks && s.tasks[t].StaleSend? && s.tasks[t].remaining != []
    ensures var task := s.tasks[t];
      Count(s.tasks[t := StaleSend(task.id, task.remaining[1..])], Held, p) + multiset{task.remaining[0]}[p]
      == Count(s.tasks, Held, p)
  {
    hide Bag;
    var task := s.tasks[t];
    HeadAndTail(task.remaining, p);
    CountUpdate(s.tasks, t, StaleSend(task.id, task.remaining[1..]), Held, p);
  }

  lemma StaleOver(s: State, t: nat, p: Payload)
    requires t in s.tasks && s.tasks[t].StaleSend? && s.tasks[t].remaining == []
    ensures Count(Ended(s, t).tasks, Held, p) == Count(s.tasks, Held, p)
  {
    hide Bag;
    CountTake(s.tasks, t, Held, p);
  }

  lemma StaleRemovalBalanced(s: State, t: nat, ok: bool, p: Payload)
    requires Balanced(s, p) && t in s.tasks && s.tasks[t].StaleSend? && s.tasks[t].remaining == []
    ensures Balanced(StaleOne(s, t, ok), p)
  {
    StaleOver(s, t, p);
    RequestRemoved(s.requests, s.tasks[t].id, p);
    hide Bag, Count, KeepsBooks, RemovesNothing, Held;
  }

  lemma StaleBalanced(s: State, t: nat, ok: bool, p: Payload)
    requires Balanced(s, p)
    ensures Balanced(StaleOne(s, t, ok), p)
  {
    if t in s.tasks && s.tasks[t].StaleSend? {
      if s.tasks[t].remaining == [] {
        StaleRemovalBalanced(s, t, ok, p);
      } else {
        StaleLeavesTask(s, t, p);
        hide Bag, Count, KeepsBooks, RemovesNothing, Held;
      }
    }
  }

  lemma RequestRemoved(requests: map<string, Request>, id: string, p: Payload)
    ensures Count(requests - {id}, Buffered, p) + multiset(if id in requests then requests[id].buffer else [])[p]
            == Count(requests, Buffered, p)
  {
    hide Bag;
    if id in requests {
      CountTake(requests, id, Buffered, p);
    } else {
      assert requests - {id} == requests;
    }
  }

  lemma ImmediateLeavesTask(s: State, t: nat, p: Payload)
    requires t in s.tasks && s.tasks[t].ImmediateSend? && s.tasks[t].remaining != []
    ensures var task := s.tasks[t];
      Count(s.tasks[t := ImmediateSend(task.id, task.arn, task.remaining[1..])], Held, p)
        + multiset([task.remaining[0]])[p]
      == Count(s.tasks, Held, p)
  {
    hide Bag;
    var task := s.tasks[t];
    HeadAndTail(task.remaining, p);
    CountUpdate(s.tasks, t, ImmediateSend(task.id, task.arn, task.remaining[1..]), Held, p);
  }

  lemma ImmediateBalanced(s: State, t: nat, ok: bool, now: int, p: Payload)
    requires Balanced(s, p) && s.clock !in s.tasks
    ensures Balanced(ImmediateOne(s, t, ok, now), p)
  {
    hide Bag, KeepsBooks, LeavesNothing, RemovesNothing, AllAdded, Marked, Held;
    if t in s.tasks && s.tasks[t].ImmediateSend? {
      var task := s.tasks[t];
      if task.remaining == [] {
        ImmediateOver(s, t, p);
      } else {
        ImmediateLeavesTask(s, t, p);
        if !ok {
          AllAddedCount(s.batch, task.id, [task.remaining[0]], None, task.arn, now, p);
        }
      }
    }
  }

  lemma ImmediateOver(s: State, t: nat, p: Payload)
    requires t in s.tasks && s.tasks[t].ImmediateSend? && s.tasks[t].remaining == []
    ensures Count(Ended(s, t).tasks, Held, p) == Count(s.tasks, Held, p)
  {
    hide Bag;
    CountTake(s.tasks, t, Held, p);
  }

  lemma RemovedBalanced(s: State, t: nat, snapshot: Entries, ok: bool, p: Payload)
    requires Balanced(s, p)
    ensures Balanced(Removed(s, t, snapshot, ok), p)
  {
    hide Bag;
    RemovalCount(s.batch, snapshot, p);
  }

  lemma SnapshotBalanced(s: State, t: nat, ok: bool, p: Payload)
    requires Balanced(s, p)
    ensures Balanced(SnapshotSent(s, t, ok), p)
  {
    hide Bag;
    if t in s.tasks && (s.tasks[t].BatchSend? || s.tasks[t].Sweep?) {
      CountTake(s.tasks, t, Held, p);
      var ended := Ended(s, t);
      assert Balanced(ended, p);
      var sent := if ok then ended.(delivered := ended.delivered + SnapshotSerials(s.tasks[t].snapshot)) else ended;
      assert Balanced(sent, p);
      RemovedBalanced(sent, t, s.tasks[t].snapshot, ok, p);
    }
  }

  /** What shutdown collects is what the batch and the buffers held. */
  lemma CollectedCount(s: State, items: seq<Entry>, order: seq<string>, fallbackArn: string, now: int, p: Payload)
    requires Lists(items, s.batch) && ListsKeys(order, s.requests)
    ensures multiset(CarriedBy(items + BufferItems(s.requests, order, fallbackArn, now)))[p] ==
      Count(s.batch, Carried, p) + Count(s.requests, Buffered, p)
  {
    hide Bag;
    assert Only(s.requests, set id <- order) == s.requests;
    CarriedByConcat(items, BufferItems(s.requests, order, fallbackArn, now));
    ListedCount(items, s.batch, p);
    BufferItemsCount(s, order, fallbackArn, now, p);
  }

  ghost function Emptied(s: State, task: Task): State {
    Spawned(s, task).(batch := map[], requests := map id | id in s.requests :: Drained(s.requests[id]))
  }

  lemma EmptiedBalanced(s: State, task: Task, p: Payload)
    requires Balanced(s, p) && s.clock !in s.tasks
    requires multiset(Held(task))[p] == Count(s.batch, Carried, p) + Count(s.requests, Buffered, p)
    ensures Balanced(Emptied(s, task), p)
  {
    hide Bag;
    CountUpdate(s.tasks, s.clock, task, Held, p);
    CountNone(Emptied(s, task).requests, Buffered, p);
    CountNone(Emptied(s, task).batch, Carried, p);
  }

  lemma CollectBalanced(cfg: Config, s: State, items: seq<Entry>, order: seq<string>, fallbackArn: string, now: int,
                        p: Payload)
    requires Balanced(s, p) && s.clock !in s.tasks
    ensures Balanced(Collect(cfg, s, items, order, fallbackArn, now), p)
  {
    hide Bag;
    if Lists(items, s.batch) && ListsKeys(order, s.requests) {
      CollectedCount(s, items, order, fallbackArn, now, p);
      var task := CollectedTask(cfg, items + BufferItems(s.requests, order, fallbackArn, now));
      EmptiedBalanced(s, task, p);
    }
  }

  /** The send task of shutdown holds exactly the collected items. */
  lemma CollectedTask(cfg: Config, all: seq<Entry>) returns (task: Task)
    ensures task == ShutdownSend(ChunksOf(cfg, all)) && Held(task) == CarriedBy(all)
  {
    task := ShutdownSend(ChunksOf(cfg, all));
    Cuts.GreedyCutFlattens(all, Chunks.ItemSize, RoomFor(cfg));
  }

  lemma {:induction false} FlattenHead(chunks: seq<seq<Entry>>)
    requires chunks != []
    ensures Cuts.Flatten(chunks) == chunks[0] + Cuts.Flatten(chunks[1..])
  {
    if |chunks| > 1 {
      var init, tail := chunks[..|chunks| - 1], chunks[1..];
      FlattenHead(init);
      assert init[1..] == tail[..|tail| - 1];
    }
  }

  lemma ChunkLeaves(chunks: seq<seq<Entry>>, p: Payload)
    requires chunks != []
    ensures multiset(Held(ShutdownSend(chunks)))[p] ==
      multiset(CarriedBy(chunks[0]))[p] + multiset(Held(ShutdownSend(chunks[1..])))[p]
  {
    hide CarriedBy, Cuts.Flatten;
    FlattenHead(chunks);
    CarriedByConcat(chunks[0], Cuts.Flatten(chunks[1..]));
  }

  lemma NoChunksHeld()
    ensures Held(ShutdownSend([])) == []
  {
  }

  lemma ChunkBalanced(s: State, t: nat, ok: bool, p: Payload)
    requires Balanced(s, p)
    ensures Balanced(ChunkSent(s, t, ok), p)
  {
    hide Bag, KeepsBooks, LeavesNothing, RemovesNothing, Held, CarriedBy, Serials;
    if t in s.tasks && s.tasks[t].ShutdownSend? {
      var chunks := s.tasks[t].chunks;
      if chunks == [] {
        NoChunksHeld();
        CountTake(s.tasks, t, Held, p);
      } else {
        ChunkLeaves(chunks, p);
        CountUpdate(s.tasks, t, ShutdownSend(chunks[1..]), Held, p);
      }
    }
  }

  lemma SpawnedBalanced(s: State, task: Task, p: Payload)
    requires Balanced(s, p) && s.clock !in s.tasks && Held(task) == []
    ensures Balanced(Spawned(s, task), p)
  {
    hide Bag;
    CountUpdate(s.tasks, s.clock, task, Held, p);
  }

  lemma StartBalanced(s: State, now: int, p: Payload)
    requires Balanced(s, p) && s.clock !in s.tasks
    ensures Balanced(SendSnapshot(s), p) && Balanced(SweepSnapshot(s, now), p)
  {
    hide Bag, Balanced;
    SpawnedBalanced(s, BatchSend(WithReports(s.batch)), p);
    SpawnedBalanced(s, Sweep(OlderThan(s.batch, now)), p);
  }

  lemma TickBalanced(s: State, clock: nat, p: Payload)
    requires Balanced(s, p)
    ensures Balanced(s.(clock := clock), p)
  {
    hide Bag;
  }

  lemma StepBalanced(cfg: Config, s: State, e: Event, p: Payload)
    requires Balanced(s, p) && s.clock !in s.tasks
    ensures Balanced(Step(cfg, s, e), p)
  {
    hide *;
    StepIs(cfg, s, e);
    match e {
      case Activate(id) => ActivateBalanced(s, id, p);
      case CreateRequest(id, arn) => CreateBalanced(s, id, arn, p);
      case Arrive(bytes, late) =>
        if CanArrive(s, late) { ArriveBalanced(s, bytes, late, p); }
      case Route(t, fallbackArn) => RouteBalanced(cfg, s, t, fallbackArn, p);
      case ReportArrives(report, fallbackArn) => ReportBalanced(s, report, fallbackArn, p);
      case DrainCandidate(current, id, fallbackArn) => DrainBalanced(s, current, id, fallbackArn, p);
      case PairNext(t, now) => PairBalanced(s, t, now, p);
      case ProcessTake(id, arn) => TakeBalanced(s, id, arn, p);
      case ProcessFinish(t, now) => DecideBalanced(cfg, s, t, now, p);
      case ImmediateDone(t, ok, now) => ImmediateBalanced(s, t, ok, now, p);
      case StartBatchSend => StartBalanced(s, 0, p);
      case StartSweep(now) => StartBalanced(s, now, p);
      case SnapshotDone(t, ok) => SnapshotBalanced(s, t, ok, p);
      case CollectAtShutdown(items, order, fallbackArn, now) =>
        CollectBalanced(cfg, s, items, order, fallbackArn, now, p);
      case ChunkDone(t, ok) => ChunkBalanced(s, t, ok, p);
      case StartStale(id) => TakeStaleBalanced(s, id, p);
      case StaleDone(t, ok) => StaleBalanced(s, t, ok, p);
    }
    TickBalanced(Effect(cfg, s, e), s.clock + 1, p);
  }

  /** Task ids are the numbers of the events that started them. */
  ghost predicate TasksArePast(s: State) {
    forall t <- s.tasks :: t < s.clock
  }

  lemma StepKeepsTasksPast(cfg: Config, s: State, e: Event)
    requires TasksArePast(s)
    ensures TasksArePast(Step(cfg, s, e))
  {
    StepIs(cfg, s, e);
    assert KeepsBooks(s, Effect(cfg, s, e));
    hide *;
  }

  /**
   * The ledger: over every interleaving, each payload that ever arrived is held in exactly one place or left
   * in exactly one of the recorded ways.
   */
  lemma {:induction false} EveryPayloadAccounted(cfg: Config, events: seq<Event>, p: Payload)
    ensures Balanced(Run(cfg, events), p) && TasksArePast(Run(cfg, events))
  {
    if events != [] {
      var before := Run(cfg, events[..|events| - 1]);
      EveryPayloadAccounted(cfg, events[..|events| - 1], p);
      StepBalanced(cfg, before, events[|events| - 1], p);
      StepKeepsTasksPast(cfg, before, events[|events| - 1]);
    }
  }

  lemma {:induction false} SerialsAreArrivalNumbers(cfg: Config, events: seq<Event>, i: nat)
    requires i < |Run(cfg, events).arrived|
    ensures Run(cfg, events).arrived[i].serial == i
  {
    if events != [] {
      var init, last := events[..|events| - 1], events[|events| - 1];
      var before := Run(cfg, init);
      assert KeepsBooks(before, Effect(cfg, before, last));
      if i < |before.arrived| {
        SerialsAreArrivalNumbers(cfg, init, i);
      }
    }
  }

  /** A payload that arrived is in one place or left in one way, once; nothing else is ever anywhere. */
  lemma ExactlyOnce(cfg: Config, events: seq<Event>, p: Payload)
    ensures var s := Run(cfg, events);
      InPlace(s, p) + Gone(s, p) == if p in s.arrived then 1 else 0
  {
    hide Run, InPlace, Gone;
    var arrived := Run(cfg, events).arrived;
    EveryPayloadAccounted(cfg, events, p);
    if p in arrived {
      var i :| 0 <= i < |arrived| && arrived[i] == p;
      assert arrived == arrived[..i] + [p] + arrived[i + 1..];
      forall j | 0 <= j < |arrived| && arrived[j] == p ensures j == i {
        SerialsAreArrivalNumbers(cfg, events, i);
        SerialsAreArrivalNumbers(cfg, events, j);
      }
      assert p !in arrived[..i] && p !in arrived[i + 1..];
    }
  }
}
