/** What the serverless machine guarantees over whole runs, put together. */
module ServerlessTheorems {
  import opened Types
  import opened Batch
  import opened Bags
  import opened Serverless
  import opened ServerlessLoss
  import ServerlessLedger
  import ServerlessFiling
  import Cuts
  import Chunks

  ghost function Before(cfg: Config, events: seq<Event>, i: nat): State
    requires i <= |events|
  {
    Run(cfg, events[..i])
  }

  // ---- Where snapshots and batching times come from --------------------------------------

  ghost predicate SnapshotFrom(cfg: Config, events: seq<Event>, t: nat, task: Task) {
    && t < |events| && TakesSnapshot(events[t])
    && task == SnapshotTask(Before(cfg, events, t), events[t])
  }

  ghost predicate BatchedBy(cfg: Config, events: seq<Event>, n: nat, i: nat) {
    i < |events| && n in Serials(AddedBy(cfg, Before(cfg, events, i), events[i]).1)
  }

  ghost predicate Origins(cfg: Config, events: seq<Event>, s: State) {
    && (forall t <- s.tasks :: IsSnapshot(s.tasks[t]) ==> SnapshotFrom(cfg, events, t, s.tasks[t]))
    && (forall n <- s.batchedAt :: BatchedBy(cfg, events, n, s.batchedAt[n]))
  }

  lemma OriginsExtend(cfg: Config, events: seq<Event>, e: Event, s: State)
    requires Origins(cfg, events, s)
    ensures Origins(cfg, events + [e], s)
  {
    hide Run, SnapshotTask, AddedBy, Serials;
    forall t | 0 <= t <= |events| ensures (events + [e])[..t] == events[..t] {
    }
  }

  lemma GrowthMarks(s: State, after: State, id: string, payloads: seq<Payload>)
    requires Grows(s, after, id, payloads)
    ensures SnapshotsKept(s, after)
    ensures forall n <- after.batchedAt ::
      if n in Serials(payloads) then after.batchedAt[n] == s.clock
      else n in s.batchedAt && after.batchedAt[n] == s.batchedAt[n]
  {
  }

  lemma NowBatched(cfg: Config, events: seq<Event>, e: Event, n: nat)
    requires n in Serials(AddedBy(cfg, Run(cfg, events), e).1)
    ensures BatchedBy(cfg, events + [e], n, |events|)
  {
    assert (events + [e])[..|events|] == events;
    hide Run, AddedBy, Serials;
  }

  lemma GrowsOrigins(cfg: Config, events: seq<Event>, e: Event, s: State, after: State)
    requires s == Run(cfg, events) && s.clock == |events|
    requires Origins(cfg, events, s)
    requires Grows(s, after, AddedBy(cfg, s, e).0, AddedBy(cfg, s, e).1)
    ensures Origins(cfg, events + [e], after)
  {
    OriginsExtend(cfg, events, e, s);
    GrowthMarks(s, after, AddedBy(cfg, s, e).0, AddedBy(cfg, s, e).1);
    hide Run, AddedBy, BatchedBy, SnapshotFrom, Serials, Grows;
    forall n | n in after.batchedAt ensures BatchedBy(cfg, events + [e], n, after.batchedAt[n]) {
      if n in Serials(AddedBy(cfg, s, e).1) {
        NowBatched(cfg, events, e, n);
      }
    }
  }

  lemma StartsOrigins(cfg: Config, events: seq<Event>, e: Event, s: State, after: State)
    requires s == Run(cfg, events) && s.clock == |events| && TakesSnapshot(e)
    requires Origins(cfg, events, s) && StartsSnapshot(s, after, SnapshotTask(s, e))
    ensures Origins(cfg, events + [e], after)
  {
    assert (events + [e])[..|events|] == events;
    assert SnapshotFrom(cfg, events + [e], |events|, SnapshotTask(s, e)) by { hide Run, SnapshotTask; }
    OriginsExtend(cfg, events, e, s);
    hide Run, SnapshotTask, BatchedBy, SnapshotFrom;
  }

  lemma SentKeepsTasks(s: State, t: nat, ok: bool)
    ensures var after := SnapshotSent(s, t, ok);
      && after.batchedAt == s.batchedAt
      && forall u <- after.tasks :: u in s.tasks && after.tasks[u] == s.tasks[u]
  {
    hide Bag, Seen, Unseen, LateNow, SnapshotSerials, KeepsBooks;
  }

  lemma SentKeepsOrigins(cfg: Config, events: seq<Event>, e: Event, s: State)
    requires e.SnapshotDone? && Origins(cfg, events, s)
    ensures Origins(cfg, events + [e], SnapshotSent(s, e.task, e.ok))
  {
    SentKeepsTasks(s, e.task, e.ok);
    OriginsExtend(cfg, events, e, s);
    hide SnapshotFrom, BatchedBy, SnapshotSent;
  }

  lemma StepOrigins(cfg: Config, events: seq<Event>, e: Event, s: State)
    requires s == Run(cfg, events) && s.clock == |events| && s.clock !in s.tasks
    requires Origins(cfg, events, s)
    ensures Origins(cfg, events + [e], Step(cfg, s, e))
  {
    KindOf(cfg, s, e);
    StepIs(cfg, s, e);
    TakesSnapshotIs(e);
    hide *;
    var after := Effect(cfg, s, e);
    if e.SnapshotDone? {
      SentKeepsOrigins(cfg, events, e, s);
    } else if e.StartBatchSend? || e.StartSweep? {
      StartsOrigins(cfg, events, e, s, after);
    } else {
      GrowsOrigins(cfg, events, e, s, after);
    }
    OriginsIgnoreClock(cfg, events + [e], after, s.clock + 1);
  }

  lemma {:induction false} HistoryIsTrue(cfg: Config, events: seq<Event>)
    ensures Origins(cfg, events, Run(cfg, events)) && SnapshotsSee(Run(cfg, events)) && LateKnown(Run(cfg, events))
  {
    if events != [] {
      var init, e := events[..|events| - 1], events[|events| - 1];
      assert init + [e] == events;
      assert Run(cfg, events) == Step(cfg, Run(cfg, init), e);
      TasksInPast(cfg, init);
      HistoryIsTrue(cfg, init);
      hide *;
      StepExplains(cfg, Run(cfg, init), e);
      StepOrigins(cfg, init, e, Run(cfg, init));
    }
  }

  lemma TakesSnapshotIs(e: Event)
    ensures TakesSnapshot(e) <==> e.StartBatchSend? || e.StartSweep?
  {
  }

  lemma OriginsIgnoreClock(cfg: Config, events: seq<Event>, s: State, clock: nat)
    requires Origins(cfg, events, s)
    ensures Origins(cfg, events, s.(clock := clock))
  {
    hide SnapshotFrom, BatchedBy;
  }

  /** A running sweep took exactly the entries that were five minutes old when it started, as they were then. */
  lemma SweepTakesExactlyTheOld(cfg: Config, events: seq<Event>, t: nat)
    requires t in Run(cfg, events).tasks && Run(cfg, events).tasks[t].Sweep?
    ensures t < |events| && events[t].StartSweep?
    ensures var snapshot, taken := Run(cfg, events).tasks[t].snapshot, Run(cfg, events[..t]).batch;
      && (forall id :: id in snapshot <==> id in taken && events[t].now - taken[id].timestamp >= 300_000)
      && (forall id <- snapshot :: snapshot[id] == taken[id])
  {
    HistoryIsTrue(cfg, events);
    assert SnapshotFrom(cfg, events, t, Run(cfg, events).tasks[t]);
    hide Run;
  }

  /** A running batch send took exactly the entries that had a report when it started, as they were then. */
  lemma BatchSendTakesExactlyTheReported(cfg: Config, events: seq<Event>, t: nat)
    requires t in Run(cfg, events).tasks && Run(cfg, events).tasks[t].BatchSend?
    ensures t < |events| && events[t].StartBatchSend?
    ensures var snapshot, taken := Run(cfg, events).tasks[t].snapshot, Run(cfg, events[..t]).batch;
      && (forall id :: id in snapshot <==> id in taken && taken[id].report.Some?)
      && (forall id <- snapshot :: snapshot[id] == taken[id])
  {
    HistoryIsTrue(cfg, events);
    assert SnapshotFrom(cfg, events, t, Run(cfg, events).tasks[t]);
    hide Run;
  }

  // ---- Why a payload was removed unsent --------------------------------------------------

  /** Event `since` took a snapshot holding the key, and a later event batched payload `n` under that key. */
  ghost predicate BatchedWhileSending(cfg: Config, events: seq<Event>, n: nat, span: Span) {
    && span.since < span.batched < |events|
    && TakesSnapshot(events[span.since])
    && span.key in SnapshotBy(Before(cfg, events, span.since), events[span.since])
    && BatchedBy(cfg, events, n, span.batched)
    && AddedBy(cfg, Before(cfg, events, span.batched), events[span.batched]).0 == span.key
  }

  /** The sending of that snapshot then ended with the removal of its keys: on success, or the sweep in either case. */
  ghost predicate Explains(cfg: Config, events: seq<Event>, n: nat, span: Span) {
    && span.batched < span.until < |events|
    && BatchedWhileSending(cfg, events, n, span)
    && events[span.until].SnapshotDone? && events[span.until].task == span.since
    && (events[span.until].ok || events[span.since].StartSweep?)
  }

  lemma WhileSendingExtends(cfg: Config, events: seq<Event>, e: Event, n: nat, span: Span)
    requires BatchedWhileSending(cfg, events, n, span)
    ensures BatchedWhileSending(cfg, events + [e], n, span)
  {
    hide Run, SnapshotBy, AddedBy, Serials;
    forall t | 0 <= t <= |events| ensures (events + [e])[..t] == events[..t] {
    }
  }

  lemma RunStep(cfg: Config, events: seq<Event>, e: Event)
    ensures Run(cfg, events + [e]) == Step(cfg, Run(cfg, events), e)
  {
    assert (events + [e])[..|events|] == events;
    hide Step;
  }

  lemma AddedIsFiled(cfg: Config, s: State, e: Event, n: nat)
    requires ServerlessFiling.Filed(s) && n in Serials(AddedBy(cfg, s, e).1)
    ensures n in s.filed && s.filed[n] == AddedBy(cfg, s, e).0
  {
    var p :| p in AddedBy(cfg, s, e).1 && p.serial == n;
    if e.PairNext? || e.ProcessFinish? || e.ImmediateDone? {
      var task := s.tasks[e.task];
      assert ServerlessFiling.TaskFiled(s.filed, task);
      hide ServerlessFiling.Filed;
      if e.PairNext? || e.ImmediateDone? {
        assert p == task.remaining[0];
      }
    }
  }

  lemma BatchIsFiled(s: State, id: string, p: Payload)
    requires ServerlessFiling.Filed(s) && id in s.batch && p in s.batch[id].payloads
    ensures p.serial in s.filed && s.filed[p.serial] == id
  {
    assert ServerlessFiling.EntryFiled(s.filed, s.batch[id], id);
    hide ServerlessFiling.Filed;
  }

  /** A payload is batched under the key it is later found under. */
  lemma BatchedUnderItsKey(cfg: Config, events: seq<Event>, n: nat, i: nat, id: string, p: Payload)
    requires BatchedBy(cfg, events, n, i) && p.serial == n
    requires id in Run(cfg, events).batch && p in Run(cfg, events).batch[id].payloads
    ensures AddedBy(cfg, Before(cfg, events, i), events[i]).0 == id
  {
    ServerlessFiling.NothingMisfiled(cfg, events, i);
    ServerlessFiling.NothingMisfiled(cfg, events[..i], 0);
    hide Run, AddedBy, Serials, ServerlessFiling.Filed;
    AddedIsFiled(cfg, Before(cfg, events, i), events[i], n);
    BatchIsFiled(Run(cfg, events), id, p);
  }

  lemma UnseenWhileSending(cfg: Config, events: seq<Event>, t: nat, s: State, n: nat, span: Span)
    requires s == Run(cfg, events)
    requires Origins(cfg, events, s) && SnapshotsSee(s)
    requires t in s.tasks && IsSnapshot(s.tasks[t])
    requires (n, span) in LateNow(s, s.tasks[t].snapshot, t)
    ensures BatchedWhileSending(cfg, events, n, span) && span.since == t && span.until == s.clock
    ensures events[t].StartSweep? <==> s.tasks[t].Sweep?
  {
    var snapshot := s.tasks[t].snapshot;
    assert SnapshotFrom(cfg, events, t, s.tasks[t]);
    RemovalTimed(s, t, snapshot, n, span);
    var p :| p in s.batch[span.key].payloads && p !in snapshot[span.key].payloads && p.serial == n;
    assert BatchedBy(cfg, events, n, span.batched);
    hide Run, SnapshotBy, AddedBy, Serials, LateNow, Sees, SnapshotsSee, Origins;
    BatchedUnderItsKey(cfg, events, n, span.batched, span.key, p);
  }

  lemma RemovalIsExplained(cfg: Config, events: seq<Event>, e: Event, s: State, n: nat, span: Span)
    requires s == Run(cfg, events) && s.clock == |events| && e.SnapshotDone?
    requires Origins(cfg, events, s) && SnapshotsSee(s)
    requires e.task in s.tasks && IsSnapshot(s.tasks[e.task]) && (e.ok || s.tasks[e.task].Sweep?)
    requires (n, span) in LateNow(s, s.tasks[e.task].snapshot, e.task)
    ensures Explains(cfg, events + [e], n, span)
  {
    UnseenWhileSending(cfg, events, e.task, s, n, span);
    WhileSendingExtends(cfg, events, e, n, span);
    assert span.batched < |events| by { hide BatchedBy, AddedBy, SnapshotBy, Run; }
    hide BatchedWhileSending, Run, Origins, SnapshotsSee, LateNow;
  }

  lemma LateWhyGrows(cfg: Config, s: State, e: Event, n: nat, span: Span)
    requires s.clock !in s.tasks && (n, span) in Step(cfg, s, e).lateWhy
    ensures (n, span) in s.lateWhy || (
      && e.SnapshotDone? && e.task in s.tasks && IsSnapshot(s.tasks[e.task]) && (e.ok || s.tasks[e.task].Sweep?)
      && (n, span) in LateNow(s, s.tasks[e.task].snapshot, e.task))
  {
    KindOf(cfg, s, e);
    StepIs(cfg, s, e);
    hide Step, Effect, SnapshotSent, SnapshotBy, AddedBy, LateNow, KeepsBooks, Adds, SnapshotsKept;
    if e.SnapshotDone? {
      SnapshotSentLate(s, e.task, e.ok);
    }
  }

  lemma ReasonsExtend(cfg: Config, events: seq<Event>, e: Event, n: nat, span: Span)
    requires Explains(cfg, events, n, span)
    ensures Explains(cfg, events + [e], n, span)
  {
    WhileSendingExtends(cfg, events, e, n, span);
    hide BatchedWhileSending;
  }

  lemma NewReasonIsTrue(cfg: Config, events: seq<Event>, e: Event, n: nat, span: Span)
    requires (n, span) in Run(cfg, events + [e]).lateWhy && (n, span) !in Run(cfg, events).lateWhy
    ensures Explains(cfg, events + [e], n, span)
  {
    hide *;
    RunStep(cfg, events, e);
    TasksInPast(cfg, events);
    LateWhyGrows(cfg, Run(cfg, events), e, n, span);
    HistoryIsTrue(cfg, events);
    RemovalIsExplained(cfg, events, e, Run(cfg, events), n, span);
  }

  ghost predicate ReasonsTrue(cfg: Config, events: seq<Event>) {
    forall n, span :: (n, span) in Run(cfg, events).lateWhy ==> Explains(cfg, events, n, span)
  }

  lemma ReasonsStayTrue(cfg: Config, events: seq<Event>, e: Event)
    requires ReasonsTrue(cfg, events)
    ensures ReasonsTrue(cfg, events + [e])
  {
    hide Run, Explains;
    forall n, span | (n, span) in Run(cfg, events + [e]).lateWhy ensures Explains(cfg, events + [e], n, span) {
      if (n, span) in Run(cfg, events).lateWhy {
        ReasonsExtend(cfg, events, e, n, span);
      } else {
        NewReasonIsTrue(cfg, events, e, n, span);
      }
    }
  }

  lemma {:induction false} ReasonsAreTrue(cfg: Config, events: seq<Event>)
    ensures ReasonsTrue(cfg, events)
  {
    if events != [] {
      var init, e := events[..|events| - 1], events[|events| - 1];
      assert init + [e] == events;
      hide ReasonsTrue;
      ReasonsAreTrue(cfg, init);
      ReasonsStayTrue(cfg, init, e);
    }
  }

  /**
   * A late payload was batched under a key between a snapshot of that key and the event that removed the key: the
   * success of that snapshot's send, or the end of that sweep.
   */
  lemma LateOnlyWhileSending(cfg: Config, events: seq<Event>, p: Payload)
    requires Run(cfg, events).late[p] > 0
    ensures exists span :: Explains(cfg, events, p.serial, span)
  {
    HistoryIsTrue(cfg, events);
    hide Run, Origins, SnapshotsSee, Explains;
    var span :| (p.serial, span) in Run(cfg, events).lateWhy;
    ReasonsAreTrue(cfg, events);
  }

  // ---- Settled means sent ----------------------------------------------------------------

  ghost predicate SettledWereSent(s: State) {
    forall p: Payload :: s.settled[p] > 0 ==> p.serial in s.delivered
  }

  lemma SnapshotSettles(s: State, t: nat, ok: bool)
    requires SettledWereSent(s)
    ensures SettledWereSent(SnapshotSent(s, t, ok))
  {
    hide Bag, Unseen, LateNow, KeepsBooks;
    if t in s.tasks && IsSnapshot(s.tasks[t]) && ok {
      var snapshot := s.tasks[t].snapshot;
      var seen := Seen(s.batch, snapshot);
      forall p: Payload | Bag(seen, Itself)[p] > 0 ensures p.serial in SnapshotSerials(snapshot) {
        var id := CountMember(seen, Itself, p);
        NotAmongIs(s.batch[id].payloads, snapshot[id].payloads, p);
      }
      assert SnapshotSent(s, t, ok).settled == s.settled + Bag(seen, Itself);
    }
  }

  lemma ImmediateSettles(s: State, t: nat, ok: bool, now: int)
    requires SettledWereSent(s)
    ensures SettledWereSent(ImmediateOne(s, t, ok, now))
  {
    hide KeepsBooks, AllAdded, Marked;
  }

  lemma ChunkSettles(s: State, t: nat, ok: bool)
    requires SettledWereSent(s)
    ensures SettledWereSent(ChunkSent(s, t, ok))
  {
    hide KeepsBooks, CarriedBy;
  }

  lemma RouteSettles(cfg: Config, s: State, t: nat, fallbackArn: string)
    requires SettledWereSent(s)
    ensures SettledWereSent(RouteOn(cfg, s, t, fallbackArn))
  {
    hide KeepsBooks, ArnOf;
  }

  lemma CreateSettles(s: State, id: string, arn: string)
    requires SettledWereSent(s)
    ensures SettledWereSent(Create(s, id, arn))
  {
    hide KeepsBooks, Marked;
  }

  lemma DecideSettles(cfg: Config, s: State, t: nat, now: int)
    requires SettledWereSent(s)
    ensures SettledWereSent(Decide(cfg, s, t, now))
  {
    hide KeepsBooks, AllAdded, Marked;
  }

  lemma StaleSettles(s: State, t: nat, ok: bool)
    requires SettledWereSent(s)
    ensures SettledWereSent(StaleOne(s, t, ok))
  {
    hide KeepsBooks, RemovesNothing;
  }

  lemma UnsentSettles(s: State, after: State)
    requires SettledWereSent(s) && LeavesNothing(s, after)
    ensures SettledWereSent(after)
  {
  }

  lemma StepSettles(cfg: Config, s: State, e: Event)
    requires SettledWereSent(s)
    ensures SettledWereSent(Step(cfg, s, e))
  {
    StepIs(cfg, s, e);
    hide *;
    match e {
      case SnapshotDone(t, ok) => SnapshotSettles(s, t, ok);
      case ImmediateDone(t, ok, now) => ImmediateSettles(s, t, ok, now);
      case ChunkDone(t, ok) => ChunkSettles(s, t, ok);
      case Route(t, fallbackArn) => RouteSettles(cfg, s, t, fallbackArn);
      case CreateRequest(id, arn) => CreateSettles(s, id, arn);
      case ProcessFinish(t, now) => DecideSettles(cfg, s, t, now);
      case StaleDone(t, ok) => StaleSettles(s, t, ok);
      case _ =>
        MayReleaseIs(e);
        OthersRelease(cfg, s, e);
        UnsentSettles(s, Effect(cfg, s, e));
    }
    ClockSettles(Effect(cfg, s, e), s.clock + 1);
  }

  lemma MayReleaseIs(e: Event)
    ensures MayRelease(e) <==>
      e.CreateRequest? || e.Route? || e.ProcessFinish? || e.ImmediateDone? || e.SnapshotDone? || e.ChunkDone?
        || e.StaleDone?
  {
  }

  lemma ClockSettles(s: State, clock: nat)
    requires SettledWereSent(s)
    ensures SettledWereSent(s.(clock := clock))
  {
  }

  lemma {:induction false} SettledOnlyBySending(cfg: Config, events: seq<Event>)
    ensures SettledWereSent(Run(cfg, events))
  {
    if events != [] {
      SettledOnlyBySending(cfg, events[..|events| - 1]);
      StepSettles(cfg, Run(cfg, events[..|events| - 1]), events[|events| - 1]);
    }
  }

  // ---- What counts as sent ---------------------------------------------------------------

  /** The event is the success of a request that carries payload `n`. */
  ghost predicate SentBy(s: State, e: Event, n: nat) {
    match e
    case SnapshotDone(t, ok) =>
      && ok && t in s.tasks && (s.tasks[t].BatchSend? || s.tasks[t].Sweep?)
      && exists id <- s.tasks[t].snapshot :: exists p <- s.tasks[t].snapshot[id].payloads :: p.serial == n
    case ImmediateDone(t, ok, _) =>
      && ok && t in s.tasks && s.tasks[t].ImmediateSend? && s.tasks[t].remaining != []
      && s.tasks[t].remaining[0].serial == n
    case ChunkDone(t, ok) =>
      && ok && t in s.tasks && s.tasks[t].ShutdownSend? && s.tasks[t].chunks != []
      && exists item <- s.tasks[t].chunks[0] :: exists p <- item.payloads :: p.serial == n
    case StaleDone(t, ok) =>
      && ok && t in s.tasks && s.tasks[t].StaleSend? && s.tasks[t].remaining != []
      && s.tasks[t].remaining[0].serial == n
    case _ => false
  }

  lemma {:induction false} CarriedMembers(items: seq<Entry>, n: nat)
    ensures n in Serials(CarriedBy(items)) <==> exists item <- items :: exists p <- item.payloads :: p.serial == n
  {
    if items != [] {
      var init, last := items[..|items| - 1], items[|items| - 1];
      assert items == init + [last];
      CarriedMembers(init, n);
      assert Serials(CarriedBy(items)) == Serials(CarriedBy(init)) + Serials(last.payloads);
    }
  }

  lemma SnapshotDelivers(s: State, t: nat, ok: bool, n: nat)
    ensures n in SnapshotSent(s, t, ok).delivered <==> n in s.delivered || SentBy(s, SnapshotDone(t, ok), n)
  {
    hide KeepsBooks, Bag, Seen, Unseen, LateNow;
  }

  lemma ImmediateDelivers(s: State, t: nat, ok: bool, now: int, n: nat)
    ensures n in ImmediateOne(s, t, ok, now).delivered <==> n in s.delivered || SentBy(s, ImmediateDone(t, ok, now), n)
  {
    hide KeepsBooks, AllAdded, Marked;
  }

  lemma ChunkDelivers(s: State, t: nat, ok: bool, n: nat)
    ensures n in ChunkSent(s, t, ok).delivered <==> n in s.delivered || SentBy(s, ChunkDone(t, ok), n)
  {
    if t in s.tasks && s.tasks[t].ShutdownSend? && s.tasks[t].chunks != [] {
      CarriedMembers(s.tasks[t].chunks[0], n);
    }
    hide KeepsBooks, CarriedBy;
  }

  lemma StaleDelivers(s: State, t: nat, ok: bool, n: nat)
    ensures n in StaleOne(s, t, ok).delivered <==> n in s.delivered || SentBy(s, StaleDone(t, ok), n)
  {
    hide KeepsBooks, RemovesNothing;
  }

  lemma OthersDeliverNothing(cfg: Config, s: State, e: Event)
    requires !e.SnapshotDone? && !e.ImmediateDone? && !e.ChunkDone? && !e.StaleDone?
    ensures Effect(cfg, s, e).delivered == s.delivered
  {
    StepIs(cfg, s, e);
    hide Effect, Step, Create, RouteOn, Decide;
    match e {
      case CreateRequest(id, arn) => CreateDelivers(s, id, arn);
      case Route(t, fallbackArn) => RouteDelivers(cfg, s, t, fallbackArn);
      case ProcessFinish(t, now) => DecideDelivers(cfg, s, t, now);
      case _ =>
        MayReleaseIs(e);
        hide MayRelease;
        OthersRelease(cfg, s, e);
    }
  }

  lemma CreateDelivers(s: State, id: string, arn: string)
    ensures Create(s, id, arn).delivered == s.delivered
  {
    hide KeepsBooks, RemovesNothing, Marked;
  }

  lemma RouteDelivers(cfg: Config, s: State, t: nat, fallbackArn: string)
    ensures RouteOn(cfg, s, t, fallbackArn).delivered == s.delivered
  {
    hide KeepsBooks, RemovesNothing, ArnOf;
  }

  lemma DecideDelivers(cfg: Config, s: State, t: nat, now: int)
    ensures Decide(cfg, s, t, now).delivered == s.delivered
  {
    hide KeepsBooks, AllAdded, Marked;
  }

  lemma NobodySends(s: State, e: Event, n: nat)
    requires !e.SnapshotDone? && !e.ImmediateDone? && !e.ChunkDone? && !e.StaleDone?
    ensures !SentBy(s, e, n)
  {
  }

  /** In every run, an event adds to what counts as sent exactly the payloads of a request that succeeded. */
  lemma DeliveredExactlyIf(cfg: Config, events: seq<Event>, e: Event, n: nat)
    ensures var s := Run(cfg, events);
      n in Run(cfg, events + [e]).delivered <==> n in s.delivered || SentBy(s, e, n)
  {
    var s := Run(cfg, events);
    RunStep(cfg, events, e);
    StepIs(cfg, s, e);
    hide *;
    match e
    case SnapshotDone(t, ok) => SnapshotDelivers(s, t, ok, n);
    case ImmediateDone(t, ok, now) => ImmediateDelivers(s, t, ok, now, n);
    case ChunkDone(t, ok) => ChunkDelivers(s, t, ok, n);
    case StaleDone(t, ok) => StaleDelivers(s, t, ok, n);
    case _ =>
      OthersDeliverNothing(cfg, s, e);
      NobodySends(s, e, n);
  }

  // ---- The theorems ----------------------------------------------------------------------

  /**
   * Every payload that ever arrived is still held in one place, was sent, or is in the loss set: removed by the end of
   * a send whose snapshot lacked it, swept after its send failed, in a failed shutdown chunk, failed in the cleanup of
   * its stale request, without a request to go to, or in the buffer of a request created again or removed as stale.
   */
  lemma HeldSentOrLost(cfg: Config, events: seq<Event>, p: Payload)
    requires p in Run(cfg, events).arrived
    ensures var s := Run(cfg, events);
      || (ServerlessLedger.InPlace(s, p) == 1 && ServerlessLedger.Gone(s, p) == 0)
      || p.serial in s.delivered
      || (s.late[p] == 1 && exists span :: Explains(cfg, events, p.serial, span))
      || s.failedSweep[p] == 1 || s.failedChunk[p] == 1 || s.failedStale[p] == 1 || s.unrouted[p] == 1
        || s.discarded[p] == 1
  {
    ServerlessLedger.ExactlyOnce(cfg, events, p);
    SettledOnlyBySending(cfg, events);
    hide Run, ServerlessLedger.InPlace, Explains;
    if Run(cfg, events).late[p] > 0 {
      LateOnlyWhileSending(cfg, events, p);
    }
  }

  /** Without a risky event every payload is still held or was sent, however many batch sends fail. */
  lemma NoRiskNoLoss(cfg: Config, events: seq<Event>, p: Payload)
    requires forall i :: 0 <= i < |events| ==> !Risky(cfg, Run(cfg, events[..i]), events[i])
    requires p in Run(cfg, events).arrived
    ensures ServerlessLedger.InPlace(Run(cfg, events), p) == 1 || p.serial in Run(cfg, events).delivered
  {
    ServerlessLedger.ExactlyOnce(cfg, events, p);
    SettledOnlyBySending(cfg, events);
    NothingLostWithoutRisk(cfg, events);
    hide Run, ServerlessLedger.InPlace, Risky, SnapshotsCurrent;
  }

  /** Task `t` is a snapshot, and ending it with `ok` removes the keys of the snapshot. */
  ghost predicate Removes(s: State, t: nat, ok: bool) {
    t in s.tasks && IsSnapshot(s.tasks[t]) && (ok || s.tasks[t].Sweep?)
  }

  /** A payload that a removing send or sweep did not see is gone for good. */
  lemma RemovedUnseenIsLost(cfg: Config, events: seq<Event>, t: nat, ok: bool, id: string, p: Payload)
    requires var s := Run(cfg, events);
      && Removes(s, t, ok)
      && id in s.tasks[t].snapshot && id in s.batch
      && p in s.batch[id].payloads && p !in s.tasks[t].snapshot[id].payloads
    ensures var after := Run(cfg, events + [SnapshotDone(t, ok)]);
      after.late[p] == 1 && ServerlessLedger.InPlace(after, p) == 0 && after.settled[p] == 0
        && after.failedSweep[p] == 0
  {
    hide Run, Step, Effect, SnapshotSent, ServerlessLedger.InPlace, Removes, Bag, Count, KeepsBooks;
    var s := Run(cfg, events);
    var e := SnapshotDone(t, ok);
    RunStep(cfg, events, e);
    StepIs(cfg, s, e);
    ServerlessLedger.ExactlyOnce(cfg, events + [e], p);
    UnseenIsLate(s, t, ok, id, p);
  }

  lemma UnseenIsLate(s: State, t: nat, ok: bool, id: string, p: Payload)
    requires Removes(s, t, ok) && id in s.tasks[t].snapshot && id in s.batch
    requires p in s.batch[id].payloads && p !in s.tasks[t].snapshot[id].payloads
    ensures SnapshotSent(s, t, ok).late[p] > s.late[p]
  {
    var unseen := Unseen(s.batch, s.tasks[t].snapshot);
    NotAmongIs(s.batch[id].payloads, s.tasks[t].snapshot[id].payloads, p);
    CountTake(unseen, id, Itself, p);
    assert Count(unseen, Itself, p) > 0;
    hide Bag, Unseen, Seen, LateNow, SnapshotSerials, KeepsBooks;
  }

  // ---- Shutdown --------------------------------------------------------------------------

  /**
   * Collecting at shutdown empties the batch and every buffer, and its chunks carry the events of the collected
   * items.
   */
  lemma ShutdownCollectsAll(cfg: Config, s: State, items: seq<Entry>, order: seq<string>, fallbackArn: string, now: int)
    requires Lists(items, s.batch) && ListsKeys(order, s.requests)
    ensures var after := Collect(cfg, s, items, order, fallbackArn, now);
      && after.batch == map[]
      && after.requests.Keys == s.requests.Keys
      && (forall id <- after.requests :: after.requests[id].buffer == [])
      && s.clock in after.tasks && after.tasks[s.clock].ShutdownSend?
      && Chunks.ChunkEvents(after.tasks[s.clock].chunks)
         == Chunks.EventsOf(items + BufferItems(s.requests, order, fallbackArn, now))
  {
    hide KeepsBooks, Lists, BufferItems, Cuts.GreedyCut, Chunks.EventsOf, Chunks.ChunkEvents;
    var all := items + BufferItems(s.requests, order, fallbackArn, now);
    Cuts.GreedyCutIsOptimal(all, Chunks.ItemSize, RoomFor(cfg));
    Chunks.ChunksKeepEvents(ChunksOf(cfg, all), all, RoomFor(cfg));
  }

  /** Every chunk of several items fits a megabyte by estimate; an item too large for that goes alone. */
  lemma ChunksFitOneMegabyte(cfg: Config, items: seq<Entry>, i: nat)
    requires i < |ChunksOf(cfg, items)|
    ensures var chunk := ChunksOf(cfg, items)[i];
      |chunk| == 1 ||
      (chunk != [] && Cuts.TotalSize(chunk, Chunks.ItemSize) + 500 + 3 * |cfg.functionName| <= 1_000_000)
  {
    Cuts.GreedyCutIsOptimal(items, Chunks.ItemSize, RoomFor(cfg));
    hide Cuts.GreedyCut, Cuts.TotalSize, Cuts.Flatten;
  }

  /** The payloads of the agent events among `events`, in order. */
  function SentPayloads(events: seq<LogEvent>): seq<Payload> {
    if events == [] then []
    else
      var last := events[|events| - 1];
      SentPayloads(events[..|events| - 1]) + if last.AgentEvent? then [last.payload] else []
  }

  lemma {:induction false} SentPayloadsConcat(a: seq<LogEvent>, b: seq<LogEvent>)
    ensures SentPayloads(a + b) == SentPayloads(a) + SentPayloads(b)
  {
    if b == [] {
      assert a + b == a;
    } else {
      assert (a + b)[..|a + b| - 1] == a + b[..|b| - 1];
      SentPayloadsConcat(a, b[..|b| - 1]);
    }
  }

  lemma {:induction false} AgentEventsSend(item: Entry, payloads: seq<Payload>)
    ensures SentPayloads(Chunks.AgentEvents(item, payloads)) == payloads
  {
    if payloads != [] {
      var init := payloads[..|payloads| - 1];
      assert Chunks.AgentEvents(item, payloads)[..|init|] == Chunks.AgentEvents(item, init);
      AgentEventsSend(item, init);
    }
  }

  lemma LogEventsSend(item: Entry)
    ensures SentPayloads(Chunks.LogEvents(item)) == item.payloads
  {
    hide Chunks.AgentEvents;
    SentPayloadsConcat(Chunks.AgentEvents(item, item.payloads), Chunks.ReportEvents(item));
    AgentEventsSend(item, item.payloads);
  }

  /** The events of a list of items carry the payloads of the items, each once and in order. */
  lemma {:induction false} EventsCarry(items: seq<Entry>)
    ensures SentPayloads(Chunks.EventsOf(items)) == CarriedBy(items)
  {
    if items != [] {
      hide SentPayloads, Chunks.LogEvents;
      var init, last := items[..|items| - 1], items[|items| - 1];
      SentPayloadsConcat(Chunks.EventsOf(init), Chunks.LogEvents(last));
      EventsCarry(init);
      LogEventsSend(last);
    } else {
      assert SentPayloads([]) == [];
    }
  }

  ghost predicate BatchedOrBuffered(s: State, p: Payload) {
    || (exists id :: id in s.batch && p in s.batch[id].payloads)
    || (exists id :: id in s.requests && p in s.requests[id].buffer)
  }

  lemma BatchedOrBufferedIsCounted(s: State, p: Payload)
    ensures BatchedOrBuffered(s, p) <==> Count(s.batch, Carried, p) + Count(s.requests, Buffered, p) > 0
  {
    hide Bag;
    if BatchedOrBuffered(s, p) {
      if id :| id in s.batch && p in s.batch[id].payloads {
        CountTake(s.batch, id, Carried, p);
      } else {
        var id :| id in s.requests && p in s.requests[id].buffer;
        CountTake(s.requests, id, Buffered, p);
      }
    } else {
      CountNone(s.batch, Carried, p);
      CountNone(s.requests, Buffered, p);
    }
  }

  /** What a chunk's events carry, in terms of what the shutdown collected. */
  lemma CollectedEvents(cfg: Config, s: State, items: seq<Entry>, order: seq<string>, fallbackArn: string, now: int,
                        p: Payload)
    requires Lists(items, s.batch) && ListsKeys(order, s.requests)
    ensures var events := Chunks.ChunkEvents(ChunksOf(cfg, items + BufferItems(s.requests, order, fallbackArn, now)));
      multiset(SentPayloads(events))[p] == Count(s.batch, Carried, p) + Count(s.requests, Buffered, p)
  {
    hide Bag, Count, Lists, BufferItems, ChunksOf, CarriedBy, SentPayloads, Chunks.EventsOf, Chunks.ChunkEvents,
         Cuts.GreedyCut, Cuts.Optimal, Cuts.LegalCut;
    var all := items + BufferItems(s.requests, order, fallbackArn, now);
    Cuts.GreedyCutIsOptimal(all, Chunks.ItemSize, RoomFor(cfg));
    OptimalIsLegal(ChunksOf(cfg, all), all, RoomFor(cfg), cfg);
    Chunks.ChunksKeepEvents(ChunksOf(cfg, all), all, RoomFor(cfg));
    EventsCarry(all);
    ServerlessLedger.CollectedCount(s, items, order, fallbackArn, now, p);
  }

  lemma OptimalIsLegal(chunks: seq<seq<Entry>>, items: seq<Entry>, room: int, cfg: Config)
    requires chunks == ChunksOf(cfg, items) && room == RoomFor(cfg)
    requires Cuts.Optimal(Cuts.GreedyCut(items, Chunks.ItemSize, RoomFor(cfg)), items, Chunks.ItemSize, RoomFor(cfg))
    ensures Cuts.LegalCut(chunks, items, Chunks.ItemSize, room)
  {
    hide Cuts.LegalCut, Cuts.GreedyCut;
  }

  /**
   * In every reachable state the shutdown sends each payload that is batched or buffered exactly once across all its
   * chunks, and nothing else.
   */
  lemma ShutdownSendsEachOnce(cfg: Config, events: seq<Event>, items: seq<Entry>, order: seq<string>,
                              fallbackArn: string, now: int, p: Payload)
    requires var s := Run(cfg, events); Lists(items, s.batch) && ListsKeys(order, s.requests)
    ensures var s := Run(cfg, events);
      var after := Collect(cfg, s, items, order, fallbackArn, now);
      && s.clock in after.tasks && after.tasks[s.clock].ShutdownSend?
      && multiset(SentPayloads(Chunks.ChunkEvents(after.tasks[s.clock].chunks)))[p] ==
           if BatchedOrBuffered(s, p) then 1 else 0
  {
    var s := Run(cfg, events);
    CollectedEvents(cfg, s, items, order, fallbackArn, now, p);
    BatchedOrBufferedIsCounted(s, p);
    ServerlessLedger.ExactlyOnce(cfg, events, p);
    hide Run, Bag, Count, KeepsBooks, LeavesNothing, Lists, ListsKeys, ChunksOf, BufferItems, Chunks.ChunkEvents,
         SentPayloads, BatchedOrBuffered;
  }
}
