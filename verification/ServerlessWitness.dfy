/** The loss of a late payload is real: a run in which every event is one the code can make ends in it. */
module ServerlessWitness {
  import opened Types
  import opened Batch
  import opened Serverless
  import opened ServerlessLoss
  import ServerlessLedger
  import ServerlessTheorems
  import Bags

  const SYNCHRONOUS := Config(true, [])

  /**
   * The guards of the code that the machine leaves out, because nothing proved about all runs needs them: a batch send
   * outside an emergency shutdown wants the synchronous flush or three reported entries, a request is created right
   * after it became the active one, a drain runs for the active request, and only a running task can be resumed.
   */
  ghost predicate CodeAllows(cfg: Config, s: State, e: Event) {
    match e
    case Activate(_) => true
    case CreateRequest(id, _) => s.active == Some(id)
    case Arrive(_, late) => CanArrive(s, late)
    case Route(t, _) => t in s.tasks && s.tasks[t].Routing?
    case ReportArrives(_, _) => true
    case DrainCandidate(current, id, _) => s.active == Some(current) && id in s.requests
    case PairNext(t, _) => t in s.tasks && s.tasks[t].Pairing?
    case ProcessTake(id, _) => id in s.requests
    case ProcessFinish(t, _) => t in s.tasks && s.tasks[t].Processing?
    case ImmediateDone(t, _, _) => t in s.tasks && s.tasks[t].ImmediateSend?
    case StartBatchSend => cfg.synchronousFlush || |WithReports(s.batch)| >= SEND_THRESHOLD
    case StartSweep(_) => true
    case SnapshotDone(t, _) => t in s.tasks && IsSnapshot(s.tasks[t])
    case CollectAtShutdown(items, order, _, _) => Lists(items, s.batch) && ListsKeys(order, s.requests)
    case ChunkDone(t, _) => t in s.tasks && s.tasks[t].ShutdownSend?
    case StartStale(id) => id in s.requests
    case StaleDone(t, _) => t in s.tasks && s.tasks[t].StaleSend?
  }

  ghost predicate AllowedRun(cfg: Config, events: seq<Event>) {
    forall i :: 0 <= i < |events| ==> CodeAllows(cfg, Run(cfg, events[..i]), events[i])
  }

  lemma OneMoreAllowed(cfg: Config, events: seq<Event>, e: Event)
    requires AllowedRun(cfg, events) && CodeAllows(cfg, Run(cfg, events), e)
    ensures AllowedRun(cfg, events + [e]) && Run(cfg, events + [e]) == Step(cfg, Run(cfg, events), e)
    ensures |events + [e]| == |events| + 1
  {
    ServerlessTheorems.RunStep(cfg, events, e);
    hide Run, CodeAllows, Step;
    forall i | 0 <= i <= |events| ensures (events + [e])[..i] == events[..i] {
    }
    assert events[..|events|] == events;
  }

  /** Request "r" is the active one, `batched` is all that is batched, under "r", and nothing was delivered. */
  ghost predicate Serving(s: State, batched: seq<Payload>, report: Option<Report>, arrivals: nat) {
    && s.active == Some("r") && "r" in s.requests && |s.arrived| == arrivals && s.delivered == {}
    && (forall t <- s.tasks :: t < s.clock)
    && s.batch.Keys <= {"r"}
    && (if "r" in s.batch then s.batch["r"].payloads == batched && s.batch["r"].report == report
        else batched == [] && report == None)
  }

  ghost predicate OthersKept(s: State, after: State, t: nat) {
    && after.clock == s.clock + 1
    && forall k <- s.tasks :: k != t ==> k in after.tasks && after.tasks[k] == s.tasks[k]
  }

  lemma ActivatesFirst()
    ensures var after := Step(SYNCHRONOUS, INITIAL, Activate("r"));
      after == INITIAL.(active := Some("r"), clock := 1)
  {
    StepIs(SYNCHRONOUS, INITIAL, Activate("r"));
    hide Effect, Step;
  }

  lemma CreatesNext()
    ensures var s := INITIAL.(active := Some("r"), clock := 1);
      CodeAllows(SYNCHRONOUS, s, CreateRequest("r", "arn"))
        && Serving(Step(SYNCHRONOUS, s, CreateRequest("r", "arn")), [], None, 0)
  {
    StepIs(SYNCHRONOUS, INITIAL.(active := Some("r"), clock := 1), CreateRequest("r", "arn"));
    hide Effect, Step, KeepsBooks, RemovesNothing, Marked;
  }

  lemma Nothing()
    ensures AllowedRun(SYNCHRONOUS, []) && Run(SYNCHRONOUS, []) == INITIAL
      && CodeAllows(SYNCHRONOUS, INITIAL, Activate("r"))
  {
  }

  lemma Begins() returns (events: seq<Event>)
    ensures AllowedRun(SYNCHRONOUS, events) && Serving(Run(SYNCHRONOUS, events), [], None, 0)
  {
    hide *;
    var activate, create := Activate("r"), CreateRequest("r", "arn");
    Nothing();
    OneMoreAllowed(SYNCHRONOUS, [], activate);
    ActivatesFirst();
    CreatesNext();
    OneMoreAllowed(SYNCHRONOUS, [] + [activate], create);
    events := [] + [activate] + [create];
  }

  lemma ArrivesNow(s: State, batched: seq<Payload>, report: Option<Report>, arrivals: nat, bytes: seq<Byte>)
    requires Serving(s, batched, report, arrivals)
    ensures var after := Step(SYNCHRONOUS, s, Arrive(bytes, ""));
      && CodeAllows(SYNCHRONOUS, s, Arrive(bytes, ""))
      && Serving(after, batched, report, arrivals + 1) && OthersKept(s, after, s.clock) && after.clock == s.clock + 1
      && s.clock in after.tasks && after.tasks[s.clock] == Routing("r", Payload(arrivals, bytes), true)
  {
    StepIs(SYNCHRONOUS, s, Arrive(bytes, ""));
    hide Effect, Step, KeepsBooks, RemovesNothing, LeavesNothing;
  }

  lemma RoutesNow(s: State, batched: seq<Payload>, report: Option<Report>, arrivals: nat, t: nat, p: Payload)
    requires Serving(s, batched, report, arrivals)
    requires t in s.tasks && s.tasks[t] == Routing("r", p, true)
    ensures var after := Step(SYNCHRONOUS, s, Route(t, ""));
      && CodeAllows(SYNCHRONOUS, s, Route(t, ""))
      && Serving(after, batched, report, arrivals) && OthersKept(s, after, t) && after.clock == s.clock + 1
      && s.clock in after.tasks && after.tasks[s.clock] == ImmediateSend("r", ArnOf(s.requests, "r", ""), [p])
  {
    StepIs(SYNCHRONOUS, s, Route(t, ""));
    hide Effect, Step, KeepsBooks, RemovesNothing, LeavesNothing, ArnOf;
  }

  lemma OneAddedAlone(entries: Entries, p: Payload, arn: string)
    ensures AllAdded(entries, "r", [p], None, arn, 0) == Added(entries, "r", p, None, arn, 0)
  {
    assert [p][..0] == [];
    assert AllAdded(entries, "r", [], None, arn, 0) == entries;
  }

  lemma FailsNow(s: State, batched: seq<Payload>, report: Option<Report>, arrivals: nat, t: nat, p: Payload)
    requires Serving(s, batched, report, arrivals)
    requires t in s.tasks && s.tasks[t].ImmediateSend? && s.tasks[t].id == "r" && s.tasks[t].remaining == [p]
    ensures var after := Step(SYNCHRONOUS, s, ImmediateDone(t, false, 0));
      && CodeAllows(SYNCHRONOUS, s, ImmediateDone(t, false, 0))
      && Serving(after, batched + [p], report, arrivals) && OthersKept(s, after, t)
  {
    StepIs(SYNCHRONOUS, s, ImmediateDone(t, false, 0));
    OneAddedAlone(s.batch, p, s.tasks[t].arn);
    assert [] + [p] == [p];
    hide Effect, Step, KeepsBooks, AllAdded, Marked;
  }

  ghost function Arrived(s: State, bytes: seq<Byte>): State {
    Step(SYNCHRONOUS, s, Arrive(bytes, ""))
  }

  ghost function Routed(s: State, bytes: seq<Byte>): State {
    Step(SYNCHRONOUS, Arrived(s, bytes), Route(s.clock, ""))
  }

  ghost function Failed(s: State, bytes: seq<Byte>): State {
    Step(SYNCHRONOUS, Routed(s, bytes), ImmediateDone(s.clock + 1, false, 0))
  }

  /** One agent payload arrives for the active request, its immediate send fails, and it is batched. */
  lemma AttemptFails(s: State, batched: seq<Payload>, report: Option<Report>, bytes: seq<Byte>)
    requires Serving(s, batched, report, |batched|)
    ensures CodeAllows(SYNCHRONOUS, s, Arrive(bytes, ""))
    ensures CodeAllows(SYNCHRONOUS, Arrived(s, bytes), Route(s.clock, ""))
    ensures CodeAllows(SYNCHRONOUS, Routed(s, bytes), ImmediateDone(s.clock + 1, false, 0))
    ensures Serving(Failed(s, bytes), batched + [Payload(|batched|, bytes)], report, |batched| + 1)
    ensures OthersKept(s, Arrived(s, bytes), s.clock) && OthersKept(Arrived(s, bytes), Routed(s, bytes), s.clock)
    ensures OthersKept(Routed(s, bytes), Failed(s, bytes), s.clock + 1)
  {
    hide Step, CodeAllows, Serving, OthersKept, ArnOf;
    ArrivesNow(s, batched, report, |batched|, bytes);
    RoutesNow(Arrived(s, bytes), batched, report, |batched| + 1, s.clock, Payload(|batched|, bytes));
    FailsNow(Routed(s, bytes), batched, report, |batched| + 1, s.clock + 1, Payload(|batched|, bytes));
  }

  lemma AttemptKeeps(s: State, s1: State, s2: State, after: State, kept: nat)
    requires OthersKept(s, s1, s.clock) && OthersKept(s1, s2, s.clock) && OthersKept(s2, after, s.clock + 1)
    requires kept in s.tasks ==> kept < s.clock
    ensures kept in s.tasks ==> kept in after.tasks && after.tasks[kept] == s.tasks[kept]
  {
  }

  lemma AttemptIs(s: State, bytes: seq<Byte>)
    ensures Arrived(s, bytes) == Step(SYNCHRONOUS, s, Arrive(bytes, ""))
    ensures Routed(s, bytes) == Step(SYNCHRONOUS, Arrived(s, bytes), Route(s.clock, ""))
    ensures Failed(s, bytes) == Step(SYNCHRONOUS, Routed(s, bytes), ImmediateDone(s.clock + 1, false, 0))
  {
    hide Step;
  }

  lemma ServesInPast(s: State, batched: seq<Payload>, report: Option<Report>, arrivals: nat, t: nat)
    requires Serving(s, batched, report, arrivals)
    ensures t in s.tasks ==> t < s.clock
  {
  }

  lemma FailsToSend(events: seq<Event>, batched: seq<Payload>, report: Option<Report>, bytes: seq<Byte>, kept: nat)
    returns (longer: seq<Event>)
    requires AllowedRun(SYNCHRONOUS, events) && Serving(Run(SYNCHRONOUS, events), batched, report, |batched|)
    ensures AllowedRun(SYNCHRONOUS, longer)
    ensures Serving(Run(SYNCHRONOUS, longer), batched + [Payload(|batched|, bytes)], report, |batched| + 1)
    ensures var s := Run(SYNCHRONOUS, events);
      var after := Run(SYNCHRONOUS, longer);
      kept in s.tasks ==> kept in after.tasks && after.tasks[kept] == s.tasks[kept]
  {
    hide *;
    var n := Run(SYNCHRONOUS, events).clock;
    var arrive, route, done := Arrive(bytes, ""), Route(n, ""), ImmediateDone(n + 1, false, 0);
    ServesInPast(Run(SYNCHRONOUS, events), batched, report, |batched|, kept);
    AttemptIs(Run(SYNCHRONOUS, events), bytes);
    AttemptFails(Run(SYNCHRONOUS, events), batched, report, bytes);
    OneMoreAllowed(SYNCHRONOUS, events, arrive);
    OneMoreAllowed(SYNCHRONOUS, events + [arrive], route);
    OneMoreAllowed(SYNCHRONOUS, events + [arrive] + [route], done);
    longer := events + [arrive] + [route] + [done];
    var s := Run(SYNCHRONOUS, events);
    AttemptKeeps(s, Arrived(s, bytes), Routed(s, bytes), Failed(s, bytes), kept);
  }

  lemma ReportAttaches(s: State, batched: seq<Payload>, arrivals: nat, report: Report)
    requires Serving(s, batched, None, arrivals) && batched != [] && report.requestId == "r"
    ensures Serving(Step(SYNCHRONOUS, s, ReportArrives(report, "")), batched, Some(report), arrivals)
  {
    StepIs(SYNCHRONOUS, s, ReportArrives(report, ""));
    hide Effect, Step, KeepsBooks, LeavesNothing;
  }

  lemma ReportedOnly(s: State, batched: seq<Payload>, report: Report, arrivals: nat)
    requires Serving(s, batched, Some(report), arrivals) && batched != []
    ensures var snapshot := WithReports(s.batch);
      "r" in snapshot && snapshot["r"].payloads == batched && snapshot.Keys == {"r"} && |snapshot| != 0
  {
    assert "r" in WithReports(s.batch);
  }

  lemma SendStarts(s: State, batched: seq<Payload>, report: Report, arrivals: nat)
    requires Serving(s, batched, Some(report), arrivals) && batched != []
    ensures var after := Step(SYNCHRONOUS, s, StartBatchSend);
      && Serving(after, batched, Some(report), arrivals)
      && s.clock in after.tasks && after.tasks[s.clock].BatchSend?
      && var snapshot := after.tasks[s.clock].snapshot;
         "r" in snapshot && snapshot.Keys == {"r"} && snapshot["r"].payloads == batched
  {
    StepIs(SYNCHRONOUS, s, StartBatchSend);
    ReportedOnly(s, batched, report, arrivals);
    hide Effect, Step, KeepsBooks, LeavesNothing, RemovesNothing, WithReports;
  }

  lemma DeliversItsSnapshot(s: State, t: nat, q: Payload)
    requires t in s.tasks && s.tasks[t].BatchSend? && s.delivered == {}
    requires s.tasks[t].snapshot.Keys == {"r"} && s.tasks[t].snapshot["r"].payloads == [q]
    ensures Step(SYNCHRONOUS, s, SnapshotDone(t, true)).delivered == {q.serial}
  {
    StepIs(SYNCHRONOUS, s, SnapshotDone(t, true));
    var snapshot := s.tasks[t].snapshot;
    assert q in snapshot["r"].payloads;
    assert SnapshotSerials(snapshot) == {q.serial};
    hide Effect, Step, KeepsBooks, Bags.Bag, Seen, Unseen, LateNow, SnapshotSerials;
  }

  lemma LostBySending(events: seq<Event>, t: nat, p: Payload, q: Payload)
    requires AllowedRun(SYNCHRONOUS, events)
    requires var s := Run(SYNCHRONOUS, events);
      && t in s.tasks && s.tasks[t].BatchSend? && s.tasks[t].snapshot.Keys == {"r"} && s.delivered == {}
      && s.tasks[t].snapshot["r"].payloads == [p] && "r" in s.batch && q in s.batch["r"].payloads
        && q.serial != p.serial
    ensures var after := Run(SYNCHRONOUS, events + [SnapshotDone(t, true)]);
      after.late[q] == 1 && ServerlessLedger.InPlace(after, q) == 0 && q.serial !in after.delivered
    ensures AllowedRun(SYNCHRONOUS, events + [SnapshotDone(t, true)])
  {
    hide Run, Step, ServerlessLedger.InPlace, AllowedRun;
    ServerlessTheorems.RemovedUnseenIsLost(SYNCHRONOUS, events, t, true, "r", q);
    OneMoreAllowed(SYNCHRONOUS, events, SnapshotDone(t, true));
    DeliversItsSnapshot(Run(SYNCHRONOUS, events), t, p);
  }

  /** A payload fails to be sent at once, its report joins it in the batch, and the send of the batch starts. */
  lemma SendsTheFirst(bytes: seq<Byte>, report: Report) returns (events: seq<Event>, t: nat)
    requires report.requestId == "r"
    ensures AllowedRun(SYNCHRONOUS, events)
    ensures Serving(Run(SYNCHRONOUS, events), [Payload(0, bytes)], Some(report), 1)
    ensures var tasks := Run(SYNCHRONOUS, events).tasks;
      && t in tasks && tasks[t].BatchSend? && "r" in tasks[t].snapshot
      && tasks[t].snapshot.Keys == {"r"} && tasks[t].snapshot["r"].payloads == [Payload(0, bytes)]
  {
    hide Run, Step, AllowedRun, Serving;
    events := Begins();
    events := FailsToSend(events, [], None, bytes, 0);
    assert [] + [Payload(0, bytes)] == [Payload(0, bytes)];
    var s := Run(SYNCHRONOUS, events);
    ReportAttaches(s, [Payload(0, bytes)], 1, report);
    OneMoreAllowed(SYNCHRONOUS, events, ReportArrives(report, ""));
    events := events + [ReportArrives(report, "")];
    t := Run(SYNCHRONOUS, events).clock;
    SendStarts(Run(SYNCHRONOUS, events), [Payload(0, bytes)], report, 1);
    OneMoreAllowed(SYNCHRONOUS, events, StartBatchSend);
    events := events + [StartBatchSend];
  }

  /**
   * A batch send that succeeds can lose a payload: `clear_batch_with_reports` removes the whole entry, also what was
   * added to it after the snapshot. This contradicts the promise that payloads are removed only after they are sent.
   */
  lemma LateLossHappens(bytes: seq<Byte>, report: Report) returns (events: seq<Event>, p: Payload)
    requires report.requestId == "r"
    ensures AllowedRun(SYNCHRONOUS, events)
    ensures var after := Run(SYNCHRONOUS, events);
      p in after.arrived && after.late[p] == 1 && ServerlessLedger.InPlace(after, p) == 0
        && p.serial !in after.delivered
  {
    hide *;
    var t;
    events, t := SendsTheFirst(bytes, report);
    var first := Payload(0, bytes);
    p := Payload(1, bytes);
    events := FailsToSend(events, [first], Some(report), bytes, t);
    BothBatched(Run(SYNCHRONOUS, events), [first] + [p], report, p);
    LostBySending(events, t, first, p);
    events := events + [SnapshotDone(t, true)];
    LateArrived(events, p);
  }

  lemma BothBatched(s: State, batched: seq<Payload>, report: Report, p: Payload)
    requires Serving(s, batched, Some(report), 2) && p in batched
    ensures "r" in s.batch && p in s.batch["r"].payloads && s.delivered == {}
  {
  }

  lemma LateArrived(events: seq<Event>, p: Payload)
    requires Run(SYNCHRONOUS, events).late[p] > 0
    ensures p in Run(SYNCHRONOUS, events).arrived
  {
    ServerlessLedger.ExactlyOnce(SYNCHRONOUS, events, p);
    hide Run;
  }
}
