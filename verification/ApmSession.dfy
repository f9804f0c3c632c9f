/**
 * The APM session: handshakes, the fatal latch, the reconnect signal and the in-flight flags, on Lambda and on managed
 * instances (src/apm/app.rs, src/apm/connection.rs, src/apm/collector.rs, src/event_loop.rs, src/event_loop_lmi.rs,
 * src/main.rs).
 */
module ApmSession {
  import opened Types

  /** One burst of `ApmApp::new` makes at most this many attempts. */
  const ATTEMPTS_PER_CYCLE := 3

  datatype Deployment = Normal | Managed

  /**
   * Who guards a handshake. Startup sets the watch flag, which the invoke phase on Lambda checks and sets too. The
   * heartbeat of a managed instance has a flag of its own. The shutdown makes one last attempt that looks at neither:
   * the managed drain creates a fresh flag, the handler on Lambda uses none.
   */
  datatype Slot = Watch | Heartbeat | Shutdown

  /** A permanent rejection is a 401 or a 403 from the handshake; everything else that fails is transient. */
  datatype Outcome = Connected | Rejected | Transient

  /** A handshake task: spawned, in attempt `attempt` of its burst, or about to store its session. */
  datatype Task = Starting(slot: Slot) | Trying(slot: Slot, attempt: nat) | Publishing(slot: Slot)

  datatype Event =
    | Startup
    | Signal
    | TakeSignal
    | LookForSession
    | Invalidate
    | InvalidateIfAny
    | SpawnCheck
    | ShutdownCheck
    | TaskRuns(task: nat)
    | AttemptEnds(task: nat, outcome: Outcome)
    | Publish(task: nat)

  /** `taken` signals are consumed and not acted on yet; `saw` is set while the Lambda loop is about to invalidate. */
  datatype State = State(
    connected: bool,
    flags: set<Slot>,
    fatal: bool,
    cycles: nat,
    attempts: nat,
    needed: bool,
    taken: nat,
    saw: bool,
    started: bool,
    closing: bool,
    tasks: map<nat, Task>,
    clock: nat,
    // History: signals raised and sessions invalidated.
    signals: nat,
    invalidations: nat)

  const INITIAL := State(false, {}, false, 0, 0, false, 0, false, false, false, map[], 0, 0, 0)

  /** The flag that the spawn check of an invoke or a heartbeat looks at. */
  function CheckedBy(deployment: Deployment): Slot {
    if deployment.Normal? then Watch else Heartbeat
  }

  function Spawned(s: State, slot: Slot): State {
    s.(flags := s.flags + {slot}, tasks := s.tasks[s.clock := Starting(slot)])
  }

  /** The drop guard clears the flag on every way out of the task. */
  function Over(s: State, t: nat): State
    requires t in s.tasks
  {
    s.(flags := s.flags - {s.tasks[t].slot}, tasks := s.tasks - {t})
  }

  function Begun(s: State, t: nat): State {
    if t !in s.tasks || !s.tasks[t].Starting? then s
    else if s.fatal then Over(s, t)
    else s.(cycles := s.cycles + 1, tasks := s.tasks[t := Trying(s.tasks[t].slot, 0)])
  }

  /** After a transient failure the burst goes on until its third attempt. */
  function NextTry(s: State, t: nat): State
    requires t in s.tasks && s.tasks[t].Trying?
  {
    var next := s.tasks[t].attempt + 1;
    if next < ATTEMPTS_PER_CYCLE then s.(tasks := s.tasks[t := Trying(s.tasks[t].slot, next)]) else Over(s, t)
  }

  function Attempted(s: State, t: nat, outcome: Outcome): State {
    if t !in s.tasks || !s.tasks[t].Trying? then s
    else
      var slot := s.tasks[t].slot;
      match outcome
      case Connected => s.(cycles := 0, attempts := 0, tasks := s.tasks[t := Publishing(slot)])
      case Rejected => Over(s.(attempts := s.attempts + 1, fatal := true), t)
      case Transient => NextTry(s.(attempts := s.attempts + 1), t)
  }

  function Published(s: State, t: nat): State {
    if t in s.tasks && s.tasks[t].Publishing? then Over(s, t).(connected := true) else s
  }

  /** What the event does to the signal and the session; the loop on Lambda looks and invalidates in two steps. */
  function Signalled(deployment: Deployment, s: State, e: Event): State {
    match e
    case Signal => s.(needed := true, signals := s.signals + 1)
    case TakeSignal =>
      if s.needed && (deployment.Managed? || (s.taken == 0 && !s.saw))
      then s.(needed := false, taken := s.taken + 1)
      else s
    case LookForSession =>
      if deployment.Normal? && s.taken > 0 && !s.saw then s.(taken := s.taken - 1, saw := s.connected) else s
    case Invalidate =>
      if s.saw then s.(connected := false, saw := false, invalidations := s.invalidations + 1) else s
    case InvalidateIfAny =>   // the heartbeat looks and invalidates under one write lock
      if deployment.Normal? || s.taken == 0 then s
      else if s.connected then s.(connected := false, taken := s.taken - 1, invalidations := s.invalidations + 1)
      else s.(taken := s.taken - 1)
    case _ => s
  }

  /** The event spawns a handshake task under this flag. */
  function SpawnedBy(deployment: Deployment, s: State, e: Event): Option<Slot> {
    match e
    case Startup => if s.started then None else Some(Watch)
    case SpawnCheck =>
      if s.started && !s.connected && !s.fatal && CheckedBy(deployment) !in s.flags
      then Some(CheckedBy(deployment))
      else None
    case ShutdownCheck =>
      if s.started && !s.closing && !s.connected && !s.fatal then Some(Shutdown) else None
    case _ => None
  }

  function Effect(deployment: Deployment, s: State, e: Event): State {
    var slot := SpawnedBy(deployment, s, e);
    if slot.Some? then
      Spawned(s, slot.value).(started := true, closing := s.closing || e.ShutdownCheck?)
    else
      match e
      case TaskRuns(t) => Begun(s, t)
      case AttemptEnds(t, outcome) => Attempted(s, t, outcome)
      case Publish(t) => Published(s, t)
      case _ => Signalled(deployment, s, e)
  }

  /** One kind of event at a time: lets a proof look at one effect and hide the others. */
  lemma EffectIs(deployment: Deployment, s: State, e: Event)
    ensures Step(deployment, s, e) == Effect(deployment, s, e).(clock := s.clock + 1)
    ensures var slot := SpawnedBy(deployment, s, e);
      if slot.Some? then
        Effect(deployment, s, e) == Spawned(s, slot.value).(started := true, closing := s.closing || e.ShutdownCheck?)
      else if e.TaskRuns? then Effect(deployment, s, e) == Begun(s, e.task)
      else if e.AttemptEnds? then Effect(deployment, s, e) == Attempted(s, e.task, e.outcome)
      else if e.Publish? then Effect(deployment, s, e) == Published(s, e.task)
      else Effect(deployment, s, e) == Signalled(deployment, s, e)
  {
    hide Begun, Attempted, Published, Signalled, SpawnedBy, Spawned;
  }

  function Step(deployment: Deployment, s: State, e: Event): State {
    Effect(deployment, s, e).(clock := s.clock + 1)
  }

  function Run(deployment: Deployment, events: seq<Event>): State {
    if events == [] then INITIAL
    else Step(deployment, Run(deployment, events[..|events| - 1]), events[|events| - 1])
  }

  // ---- What holds in every run -----------------------------------------------------------

  /** Each flag says whether its one task runs. */
  ghost predicate FlagsExact(s: State) {
    && (forall t, u :: t in s.tasks && u in s.tasks && s.tasks[t].slot == s.tasks[u].slot ==> t == u)
    && (forall slot <- s.flags :: exists t :: t in s.tasks && s.tasks[t].slot == slot)
    && (forall t <- s.tasks :: s.tasks[t].slot in s.flags && t < s.clock)
    && (!s.started ==> !s.connected && !s.fatal && s.flags == {} && !s.closing)
    && (!s.closing ==> Shutdown !in s.flags)
  }

  /** Each signal invalidates at most one session, and only a session that is there. */
  ghost predicate OneShot(s: State) {
    && s.invalidations + (if s.needed then 1 else 0) + s.taken + (if s.saw then 1 else 0) <= s.signals
    && (s.saw ==> s.connected)
  }

  ghost predicate Sound(deployment: Deployment, s: State) {
    FlagsExact(s) && OneShot(s) && (deployment.Managed? ==> !s.saw)
  }

  lemma SpawnFlagsTaken(s: State, slot: Slot, k: Slot)
    requires FlagsExact(s) && k in s.flags + {slot}
    ensures exists t :: t in Spawned(s, slot).tasks && Spawned(s, slot).tasks[t].slot == k
  {
    if k == slot {
      assert s.clock in Spawned(s, slot).tasks;
    } else {
      var t :| t in s.tasks && s.tasks[t].slot == k;
      assert t in Spawned(s, slot).tasks;
    }
  }

  lemma SpawnSound(s: State, slot: Slot)
    requires FlagsExact(s) && slot !in s.flags && (slot.Shutdown? ==> s.started)
    ensures FlagsExact(Spawned(s, slot).(started := true, closing := s.closing || slot.Shutdown?, clock := s.clock + 1))
  {
    forall k | k in s.flags + {slot}
      ensures exists t :: t in Spawned(s, slot).tasks && Spawned(s, slot).tasks[t].slot == k
    {
      SpawnFlagsTaken(s, slot, k);
    }
  }

  lemma MovesSound(s: State, after: State, t: nat, task: Task)
    requires FlagsExact(s) && t in s.tasks && task.slot == s.tasks[t].slot
    requires after.tasks == s.tasks[t := task] && after.flags == s.flags
    requires after.clock >= s.clock && after.started == s.started && after.closing == s.closing && s.started
    ensures FlagsExact(after)
  {
    forall k | k in after.flags ensures exists u :: u in after.tasks && after.tasks[u].slot == k {
      var u :| u in s.tasks && s.tasks[u].slot == k;
      assert u in after.tasks && after.tasks[u].slot == k;
    }
  }

  lemma OverSound(s: State, after: State, t: nat)
    requires FlagsExact(s) && t in s.tasks
    requires after.tasks == s.tasks - {t} && after.flags == s.flags - {s.tasks[t].slot}
    requires after.clock >= s.clock && after.started == s.started && after.closing == s.closing && s.started
    ensures FlagsExact(after)
  {
    forall k | k in after.flags ensures exists u :: u in after.tasks && after.tasks[u].slot == k {
      var u :| u in s.tasks && s.tasks[u].slot == k;
      assert u in after.tasks && after.tasks[u].slot == k;
    }
  }

  lemma TaskMeansStarted(s: State, t: nat)
    requires FlagsExact(s) && t in s.tasks
    ensures s.started
  {
  }

  lemma BegunSound(s: State, t: nat)
    requires FlagsExact(s)
    ensures FlagsExact(Begun(s, t).(clock := s.clock + 1))
  {
    if t in s.tasks && s.tasks[t].Starting? {
      TaskMeansStarted(s, t);
      var after := Begun(s, t).(clock := s.clock + 1);
      if s.fatal {
        OverSound(s, after, t);
      } else {
        MovesSound(s, after, t, after.tasks[t]);
      }
    }
  }

  /** The task goes on under the same flag, or it ends and clears it. */
  ghost predicate Handled(s: State, after: State, t: nat)
    requires t in s.tasks
  {
    if t in after.tasks then
      after.tasks == s.tasks[t := after.tasks[t]] && after.flags == s.flags && after.tasks[t].slot == s.tasks[t].slot
    else after.tasks == s.tasks - {t} && after.flags == s.flags - {s.tasks[t].slot}
  }

  lemma NextTryShape(s: State, t: nat)
    requires t in s.tasks && s.tasks[t].Trying?
    ensures Handled(s, NextTry(s, t), t)
  {
  }

  lemma AttemptShape(s: State, t: nat, outcome: Outcome)
    requires t in s.tasks && s.tasks[t].Trying?
    ensures Handled(s, Attempted(s, t, outcome), t)
  {
    NextTryShape(s.(attempts := s.attempts + 1), t);
    hide NextTry;
  }

  lemma AttemptFrame(s: State, t: nat, outcome: Outcome)
    ensures var after := Attempted(s, t, outcome);
      after.started == s.started && after.closing == s.closing && after.clock == s.clock
  {
  }

  lemma AttemptSound(s: State, t: nat, outcome: Outcome)
    requires FlagsExact(s)
    ensures FlagsExact(Attempted(s, t, outcome).(clock := s.clock + 1))
  {
    AttemptFrame(s, t, outcome);
    if t in s.tasks && s.tasks[t].Trying? {
      TaskMeansStarted(s, t);
      AttemptShape(s, t, outcome);
      hide Attempted, FlagsExact;
      var after := Attempted(s, t, outcome).(clock := s.clock + 1);
      if t in after.tasks {
        MovesSound(s, after, t, after.tasks[t]);
      } else {
        OverSound(s, after, t);
      }
    }
  }

  lemma PublishSound(s: State, t: nat)
    requires FlagsExact(s)
    ensures FlagsExact(Published(s, t).(clock := s.clock + 1))
  {
    if t in s.tasks && s.tasks[t].Publishing? {
      TaskMeansStarted(s, t);
      OverSound(s, Published(s, t).(clock := s.clock + 1), t);
    }
  }

  lemma SlotIsFree(deployment: Deployment, s: State, e: Event)
    requires FlagsExact(s) && SpawnedBy(deployment, s, e).Some?
    ensures var slot := SpawnedBy(deployment, s, e).value;
      slot !in s.flags && (slot.Shutdown? <==> e.ShutdownCheck?) && (slot.Shutdown? ==> s.started)
  {
  }

  /** The session and the signal may change, the handshakes do not. */
  ghost predicate TasksKept(s: State, after: State) {
    && after.tasks == s.tasks && after.flags == s.flags && after.started == s.started && after.closing == s.closing
    && after.clock == s.clock && after.fatal == s.fatal && (after.connected ==> s.connected)
  }

  lemma SignalKeepsTasks(deployment: Deployment, s: State, e: Event)
    ensures TasksKept(s, Signalled(deployment, s, e))
  {
  }

  lemma SignalSound(deployment: Deployment, s: State, e: Event)
    requires FlagsExact(s)
    ensures FlagsExact(Signalled(deployment, s, e).(clock := s.clock + 1))
  {
    SignalKeepsTasks(deployment, s, e);
    hide Signalled;
  }

  lemma FlagsStep(deployment: Deployment, s: State, e: Event)
    requires FlagsExact(s)
    ensures FlagsExact(Step(deployment, s, e))
  {
    EffectIs(deployment, s, e);
    if SpawnedBy(deployment, s, e).Some? {
      SlotIsFree(deployment, s, e);
      hide *;
      SpawnSound(s, SpawnedBy(deployment, s, e).value);
    } else {
      hide *;
      match e
      case TaskRuns(t) => BegunSound(s, t);
      case AttemptEnds(t, outcome) => AttemptSound(s, t, outcome);
      case Publish(t) => PublishSound(s, t);
      case _ => SignalSound(deployment, s, e);
    }
  }

  lemma SignalOneShot(deployment: Deployment, s: State, e: Event)
    requires OneShot(s) && (deployment.Managed? ==> !s.saw)
    ensures var after := Signalled(deployment, s, e); OneShot(after) && (deployment.Managed? ==> !after.saw)
  {
  }

  /** The signal is none of a handshake's business. */
  ghost predicate SignalKept(s: State, after: State) {
    && after.signals == s.signals && after.invalidations == s.invalidations && after.needed == s.needed
    && after.taken == s.taken && after.saw == s.saw && (s.connected ==> after.connected)
  }

  lemma BegunKeepsSignal(s: State, t: nat)
    ensures SignalKept(s, Begun(s, t)) && Begun(s, t).connected == s.connected
  {
  }

  lemma AttemptKeepsSignal(s: State, t: nat, outcome: Outcome)
    ensures SignalKept(s, Attempted(s, t, outcome)) && Attempted(s, t, outcome).connected == s.connected
  {
  }

  lemma PublishKeepsSignal(s: State, t: nat)
    ensures SignalKept(s, Published(s, t))
    ensures Published(s, t).connected <==> s.connected || (t in s.tasks && s.tasks[t].Publishing?)
  {
  }

  lemma OneShotKept(s: State, after: State)
    requires OneShot(s) && SignalKept(s, after)
    ensures OneShot(after) && after.saw == s.saw
  {
  }

  lemma SpawnKeepsSignal(s: State, slot: Slot, closing: bool)
    ensures SignalKept(s, Spawned(s, slot).(started := true, closing := closing))
  {
  }

  lemma OneShotByClock(s: State, clock: nat)
    ensures OneShot(s) ==> OneShot(s.(clock := clock))
  {
  }

  lemma OneShotStep(deployment: Deployment, s: State, e: Event)
    requires OneShot(s) && (deployment.Managed? ==> !s.saw)
    ensures OneShot(Step(deployment, s, e)) && (deployment.Managed? ==> !Step(deployment, s, e).saw)
  {
    EffectIs(deployment, s, e);
    hide *;
    var after := Effect(deployment, s, e);
    OneShotByClock(after, s.clock + 1);
    if SpawnedBy(deployment, s, e).Some? {
      SpawnKeepsSignal(s, SpawnedBy(deployment, s, e).value, s.closing || e.ShutdownCheck?);
      OneShotKept(s, after);
    } else {
      match e {
        case TaskRuns(t) => BegunKeepsSignal(s, t); OneShotKept(s, after);
        case AttemptEnds(t, outcome) => AttemptKeepsSignal(s, t, outcome); OneShotKept(s, after);
        case Publish(t) => PublishKeepsSignal(s, t); OneShotKept(s, after);
        case _ => SignalOneShot(deployment, s, e);
      }
    }
  }

  /**
   * Over every interleaving, on either deployment: every flag is set exactly while the one task it guards runs, and
   * each signal invalidates at most one session.
   */
  lemma {:induction false} AlwaysSound(deployment: Deployment, events: seq<Event>)
    ensures Sound(deployment, Run(deployment, events))
  {
    if events != [] {
      var init, e := events[..|events| - 1], events[|events| - 1];
      AlwaysSound(deployment, init);
      hide FlagsExact, OneShot, Step;
      FlagsStep(deployment, Run(deployment, init), e);
      OneShotStep(deployment, Run(deployment, init), e);
    }
  }

  ghost predicate Latched(s: State, after: State) {
    after.fatal && after.cycles <= s.cycles && after.tasks.Keys <= s.tasks.Keys
  }

  lemma BegunLatched(s: State, t: nat)
    requires s.fatal
    ensures Latched(s, Begun(s, t))
  {
  }

  lemma AttemptLatched(s: State, t: nat, outcome: Outcome)
    requires s.fatal
    ensures Latched(s, Attempted(s, t, outcome))
  {
  }

  lemma PublishLatched(s: State, t: nat)
    requires s.fatal
    ensures Latched(s, Published(s, t))
  {
  }

  lemma SignalLatched(deployment: Deployment, s: State, e: Event)
    requires s.fatal
    ensures Latched(s, Signalled(deployment, s, e))
  {
  }

  lemma LatchedIsNotSpawning(deployment: Deployment, s: State, e: Event)
    requires s.fatal && s.started
    ensures SpawnedBy(deployment, s, e).None?
  {
  }

  lemma LatchedByClock(s: State, after: State, clock: nat)
    ensures Latched(s, after.(clock := clock)) == Latched(s, after)
  {
  }

  lemma LatchStep(deployment: Deployment, s: State, e: Event)
    requires s.fatal && s.started
    ensures Latched(s, Step(deployment, s, e))
  {
    EffectIs(deployment, s, e);
    LatchedIsNotSpawning(deployment, s, e);
    LatchedByClock(s, Effect(deployment, s, e), s.clock + 1);
    hide *;
    match e
    case TaskRuns(t) => BegunLatched(s, t);
    case AttemptEnds(t, outcome) => AttemptLatched(s, t, outcome);
    case Publish(t) => PublishLatched(s, t);
    case _ => SignalLatched(deployment, s, e);
  }

  lemma FatalMeansStarted(deployment: Deployment, events: seq<Event>)
    ensures Run(deployment, events).fatal ==> Run(deployment, events).started
  {
    AlwaysSound(deployment, events);
  }

  /** The latch never opens, and once it is set no handshake is spawned and no further cycle is counted. */
  lemma {:induction false} LatchStaysSet(deployment: Deployment, events: seq<Event>, i: nat)
    requires i <= |events| && Run(deployment, events[..i]).fatal
    ensures var before, after := Run(deployment, events[..i]), Run(deployment, events);
      after.fatal && after.cycles <= before.cycles && after.tasks.Keys <= before.tasks.Keys
  {
    if i == |events| {
      assert events[..i] == events;
    } else {
      var init, e := events[..|events| - 1], events[|events| - 1];
      assert init[..i] == events[..i];
      LatchStaysSet(deployment, init, i);
      FatalMeansStarted(deployment, init);
      LatchStep(deployment, Run(deployment, init), e);
      hide Step;
    }
  }

  // ---- One handshake at a time -----------------------------------------------------------

  /** A guard lets a handshake start although the flag of another is set. */
  ghost predicate Overlap(deployment: Deployment, s: State, e: Event) {
    SpawnedBy(deployment, s, e).Some? && s.flags != {}
  }

  ghost predicate OverlapFree(deployment: Deployment, events: seq<Event>) {
    forall i :: 0 <= i < |events| ==> !Overlap(deployment, Run(deployment, events[..i]), events[i])
  }

  ghost predicate OneAtMost(s: State) {
    forall t, u :: t in s.tasks && u in s.tasks ==> t == u
  }

  /** Nobody shakes hands while connected or after a permanent rejection, and a rejected container never connects. */
  ghost predicate Exclusive(s: State) {
    && (s.connected || s.fatal ==> s.tasks == map[])
    && !(s.connected && s.fatal)
  }

  ghost predicate TaskCounted(s: State, task: Task) {
    match task
    case Starting(_) => s.attempts == 3 * s.cycles
    case Trying(_, k) => s.cycles > 0 && s.attempts == 3 * (s.cycles - 1) + k && k < 3
    case Publishing(_) => s.attempts == 0 && s.cycles == 0
  }

  /** The counters since the last success, exactly. */
  ghost predicate Counted(s: State) {
    && (forall t <- s.tasks :: TaskCounted(s, s.tasks[t]))
    && (s.tasks == map[] && !s.fatal ==> s.attempts == 3 * s.cycles)
    && (s.fatal ==> 3 * (s.cycles - 1) < s.attempts <= 3 * s.cycles)
  }

  ghost predicate Safe(s: State) {
    OneAtMost(s) && Exclusive(s) && Counted(s)
  }

  lemma SpawnSafe(s: State, slot: Slot)
    requires Safe(s) && s.tasks == map[] && !s.connected && !s.fatal
    ensures Safe(Spawned(s, slot))
  {
    assert Spawned(s, slot).tasks == map[s.clock := Starting(slot)];
  }

  lemma BegunSafe(s: State, t: nat)
    requires Safe(s)
    ensures Safe(Begun(s, t))
  {
    if t in s.tasks && s.tasks[t].Starting? {
      assert s.tasks != map[] && !s.fatal;
      assert TaskCounted(s, s.tasks[t]);
      assert Begun(s, t).tasks == map[t := Trying(s.tasks[t].slot, 0)];
    }
  }

  lemma AttemptSafe(s: State, t: nat, outcome: Outcome)
    requires Safe(s)
    ensures Safe(Attempted(s, t, outcome))
  {
    if t in s.tasks && s.tasks[t].Trying? {
      assert TaskCounted(s, s.tasks[t]);
      var after := Attempted(s, t, outcome);
      if t in after.tasks {
        assert after.tasks == map[t := after.tasks[t]];
      } else {
        assert after.tasks == map[];
      }
    }
  }

  lemma PublishSafe(s: State, t: nat)
    requires Safe(s)
    ensures Safe(Published(s, t))
  {
    if t in s.tasks && s.tasks[t].Publishing? {
      assert TaskCounted(s, s.tasks[t]);
      assert Published(s, t).tasks == map[];
    }
  }

  lemma SignalSafe(deployment: Deployment, s: State, e: Event)
    requires Safe(s)
    ensures Safe(Signalled(deployment, s, e))
  {
  }

  lemma SafeByClock(s: State, started: bool, closing: bool, clock: nat)
    requires Safe(s)
    ensures Safe(s.(started := started, closing := closing, clock := clock))
  {
  }

  lemma NoFlagNoTask(s: State)
    requires FlagsExact(s) && s.flags == {}
    ensures s.tasks == map[]
  {
  }

  lemma StepSafe(deployment: Deployment, s: State, e: Event)
    requires Safe(s) && FlagsExact(s) && !Overlap(deployment, s, e)
    ensures Safe(Step(deployment, s, e))
  {
    var slot := SpawnedBy(deployment, s, e);
    if slot.Some? {
      NoFlagNoTask(s);
      SpawnSafe(s, slot.value);
      hide Safe;
      SafeByClock(Spawned(s, slot.value), true, s.closing || e.ShutdownCheck?, s.clock + 1);
    } else {
      hide Safe, SpawnedBy;
      match e {
        case TaskRuns(t) => BegunSafe(s, t);
        case AttemptEnds(t, outcome) => AttemptSafe(s, t, outcome);
        case Publish(t) => PublishSafe(s, t);
        case _ => SignalSafe(deployment, s, e);
      }
      var after := Effect(deployment, s, e);
      SafeByClock(after, after.started, after.closing, s.clock + 1);
    }
  }

  /**
   * As long as no handshake was let through beside another, over every interleaving: one handshake task at most, none
   * while connected or latched; idle and not latched, failed attempts are exactly three per cycle since the last
   * success; latched, they end in the last cycle.
   */
  lemma {:induction false} AlwaysSafe(deployment: Deployment, events: seq<Event>)
    requires OverlapFree(deployment, events)
    ensures Safe(Run(deployment, events))
  {
    if events == [] {
      assert Safe(INITIAL);
    } else {
      LastOverlapFree(deployment, events);
      RunEnds(deployment, events);
      FlagsAlwaysExact(deployment, events[..|events| - 1]);
      hide *;
      OverlapFreePrefix(deployment, events, |events| - 1);
      AlwaysSafe(deployment, events[..|events| - 1]);
      StepSafe(deployment, Run(deployment, events[..|events| - 1]), events[|events| - 1]);
    }
  }

  lemma LastOverlapFree(deployment: Deployment, events: seq<Event>)
    requires OverlapFree(deployment, events) && events != []
    ensures !Overlap(deployment, Run(deployment, events[..|events| - 1]), events[|events| - 1])
  {
    hide Overlap, Run;
  }

  lemma RunEnds(deployment: Deployment, events: seq<Event>)
    requires events != []
    ensures Run(deployment, events) == Step(deployment, Run(deployment, events[..|events| - 1]), events[|events| - 1])
  {
    hide Step;
  }

  lemma FlagsAlwaysExact(deployment: Deployment, events: seq<Event>)
    ensures FlagsExact(Run(deployment, events))
  {
    AlwaysSound(deployment, events);
    hide Run, FlagsExact, OneShot;
  }

  lemma OverlapFreePrefix(deployment: Deployment, events: seq<Event>, n: nat)
    requires OverlapFree(deployment, events) && n <= |events|
    ensures OverlapFree(deployment, events[..n])
  {
    hide Overlap, Run;
    forall i | 0 <= i < n ensures events[..n][..i] == events[..i] {
    }
  }

  /** On Lambda the invoke phase and startup share one flag, so up to the shutdown no handshake overlaps another. */
  lemma {:induction false} LambdaNeverOverlaps(events: seq<Event>)
    requires forall i :: 0 <= i < |events| ==> !events[i].ShutdownCheck?
    ensures OverlapFree(Normal, events) && Safe(Run(Normal, events)) && Run(Normal, events).flags <= {Watch}
  {
    if events != [] {
      var init, e := events[..|events| - 1], events[|events| - 1];
      LambdaNeverOverlaps(init);
      AlwaysSound(Normal, init);
      OnlyTheWatch(Run(Normal, init), e);
      OneMoreOverlapFree(Normal, init, e);
      assert init + [e] == events;
      hide Safe, Overlap, FlagsExact, OneShot;
      AlwaysSafe(Normal, events);
    }
  }

  lemma OnlyTheWatch(s: State, e: Event)
    requires FlagsExact(s) && s.flags <= {Watch} && !e.ShutdownCheck?
    ensures !Overlap(Normal, s, e) && Step(Normal, s, e).flags <= {Watch}
  {
  }

  lemma OneMoreOverlapFree(deployment: Deployment, events: seq<Event>, e: Event)
    requires OverlapFree(deployment, events) && !Overlap(deployment, Run(deployment, events), e)
    ensures OverlapFree(deployment, events + [e])
  {
    hide Overlap, Run;
    forall i | 0 <= i <= |events| ensures (events + [e])[..i] == events[..i] {
    }
    assert events[..|events|] == events;
  }

  lemma OverlapMakesTwo(deployment: Deployment, s: State, e: Event)
    requires FlagsExact(s) && Overlap(deployment, s, e)
    ensures !OneAtMost(Step(deployment, s, e))
  {
    EffectIs(deployment, s, e);
    hide SpawnedBy, Effect, Step;
    var slot :| slot in s.flags;
    var t :| t in s.tasks && s.tasks[t].slot == slot;
    assert t in Step(deployment, s, e).tasks && s.clock in Step(deployment, s, e).tasks;
  }

  lemma OneMeansNoOverlap(deployment: Deployment, s: State, e: Event)
    requires FlagsExact(s)
    ensures OneAtMost(Step(deployment, s, e)) ==> !Overlap(deployment, s, e)
  {
    hide *;
    if Overlap(deployment, s, e) {
      OverlapMakesTwo(deployment, s, e);
    }
  }

  ghost predicate AlwaysOneAtMost(deployment: Deployment, events: seq<Event>) {
    forall i :: 0 <= i <= |events| ==> OneAtMost(Run(deployment, events[..i]))
  }

  /**
   * At no time of a run are there two handshakes exactly if no guard lets one start while another flag is set: on a
   * managed instance, exactly if no heartbeat and no drain finds no session while a handshake it does not know of runs.
   */
  lemma SingleFlightExactlyIf(deployment: Deployment, events: seq<Event>)
    ensures AlwaysOneAtMost(deployment, events) <==> OverlapFree(deployment, events)
  {
    hide Overlap, OneAtMost, Run, Step, FlagsExact, OneShot;
    if OverlapFree(deployment, events) {
      forall i | 0 <= i <= |events| ensures OneAtMost(Run(deployment, events[..i])) {
        OverlapFreePrefix(deployment, events, i);
        AlwaysSafe(deployment, events[..i]);
      }
    }
    if AlwaysOneAtMost(deployment, events) {
      forall i | 0 <= i < |events| ensures !Overlap(deployment, Run(deployment, events[..i]), events[i]) {
        AlwaysSound(deployment, events[..i]);
        RunStep(deployment, events, i);
        assert OneAtMost(Run(deployment, events[..i + 1]));
        OneMeansNoOverlap(deployment, Run(deployment, events[..i]), events[i]);
      }
    }
  }

  lemma RunStep(deployment: Deployment, events: seq<Event>, i: nat)
    requires i < |events|
    ensures Run(deployment, events[..i + 1]) == Step(deployment, Run(deployment, events[..i]), events[i])
  {
    assert events[..i + 1][..i] == events[..i];
    hide Step;
  }

  // ---- What each event can do ------------------------------------------------------------

  lemma OneMoreEvent(deployment: Deployment, events: seq<Event>, e: Event)
    ensures Run(deployment, events + [e]) == Step(deployment, Run(deployment, events), e)
  {
    assert (events + [e])[..|events|] == events;
    hide Step;
  }

  lemma SignalledChanges(deployment: Deployment, s: State, e: Event)
    requires OneShot(s)
    ensures var after := Signalled(deployment, s, e);
      && (s.connected && !after.connected <==>
        || (e == Invalidate && s.saw)
        || (e == InvalidateIfAny && deployment == Managed && s.taken > 0 && s.connected))
      && (after.connected ==> s.connected)
      && after.invalidations == s.invalidations + if s.connected && !after.connected then 1 else 0
    ensures var after := Signalled(deployment, s, e);
      && (after.needed <==>
        e == Signal || (s.needed && !(e == TakeSignal && (deployment == Managed || (s.taken == 0 && !s.saw)))))
      && (after.saw <==>
        || (e == LookForSession && deployment == Normal && s.taken > 0 && !s.saw && s.connected)
        || (s.saw && e != Invalidate))
      && (after.taken > s.taken <==> s.needed && e == TakeSignal && !after.needed)
      && after.signals == s.signals + if e == Signal then 1 else 0
  {
  }

  /** What a spawn does to the signal and the session is nothing. */
  lemma SpawnEventKeeps(deployment: Deployment, s: State, e: Event)
    requires SpawnedBy(deployment, s, e).Some?
    ensures SignalKept(s, Effect(deployment, s, e)) && Effect(deployment, s, e).connected == s.connected
    ensures e.Startup? || e.SpawnCheck? || e.ShutdownCheck?
  {
    EffectIs(deployment, s, e);
    hide Effect;
  }

  lemma StepChanges(deployment: Deployment, s: State, e: Event)
    requires OneShot(s)
    ensures var after := Step(deployment, s, e);
      && (s.connected && !after.connected <==>
        || (e == Invalidate && s.saw)
        || (e == InvalidateIfAny && deployment == Managed && s.taken > 0 && s.connected))
      && (!s.connected && after.connected <==>
        !s.connected && e.Publish? && e.task in s.tasks && s.tasks[e.task].Publishing?)
      && after.invalidations == s.invalidations + if s.connected && !after.connected then 1 else 0
    ensures var after := Step(deployment, s, e);
      && (after.needed <==>
        e == Signal || (s.needed && !(e == TakeSignal && (deployment == Managed || (s.taken == 0 && !s.saw)))))
      && (after.saw <==>
        || (e == LookForSession && deployment == Normal && s.taken > 0 && !s.saw && s.connected)
        || (s.saw && e != Invalidate))
      && (after.taken > s.taken <==> s.needed && e == TakeSignal && !after.needed)
      && after.signals == s.signals + if e == Signal then 1 else 0
  {
    EffectIs(deployment, s, e);
    hide Begun, Attempted, Published, Signalled, SpawnedBy, Spawned, Effect, Step, OneShot;
    if SpawnedBy(deployment, s, e).Some? {
      SpawnEventKeeps(deployment, s, e);
    } else {
      match e
      case TaskRuns(t) => BegunKeepsSignal(s, t);
      case AttemptEnds(t, outcome) => AttemptKeepsSignal(s, t, outcome);
      case Publish(t) => PublishKeepsSignal(s, t);
      case _ => SignalledChanges(deployment, s, e);
    }
  }

  /**
   * In every run, a session ends exactly when the loop on Lambda invalidates the one it saw, or when a heartbeat that
   * consumed a signal finds one; and one begins exactly when a handshake that succeeded stores it.
   */
  lemma SessionChangesExactlyIf(deployment: Deployment, events: seq<Event>, e: Event)
    ensures var s, after := Run(deployment, events), Run(deployment, events + [e]);
      && (s.connected && !after.connected <==>
        || (e == Invalidate && s.saw)
        || (e == InvalidateIfAny && deployment == Managed && s.taken > 0 && s.connected))
      && (!s.connected && after.connected <==>
        !s.connected && e.Publish? && e.task in s.tasks && s.tasks[e.task].Publishing?)
      && after.invalidations == s.invalidations + if s.connected && !after.connected then 1 else 0
  {
    hide Run, Step, OneShot, FlagsExact;
    OneMoreEvent(deployment, events, e);
    AlwaysSound(deployment, events);
    StepChanges(deployment, Run(deployment, events), e);
  }

  /** A signal stays until it is taken, and a taken one until the loop has looked for a session or a heartbeat has. */
  lemma SignalChangesExactlyIf(deployment: Deployment, events: seq<Event>, e: Event)
    ensures var s, after := Run(deployment, events), Run(deployment, events + [e]);
      && (after.needed <==>
        e == Signal || (s.needed && !(e == TakeSignal && (deployment == Managed || (s.taken == 0 && !s.saw)))))
      && (after.saw <==>
        || (e == LookForSession && deployment == Normal && s.taken > 0 && !s.saw && s.connected)
        || (s.saw && e != Invalidate))
      && (after.taken > s.taken <==> s.needed && e == TakeSignal && !after.needed)
      && after.signals == s.signals + if e == Signal then 1 else 0
  {
    hide Run, Step, OneShot, FlagsExact;
    OneMoreEvent(deployment, events, e);
    AlwaysSound(deployment, events);
    StepChanges(deployment, Run(deployment, events), e);
  }

  lemma SpawnsExactlyIf(deployment: Deployment, s: State, e: Event)
    ensures SpawnedBy(deployment, s, e).Some? <==>
      || (e == Startup && !s.started)
      || (e == SpawnCheck && s.started && !s.connected && !s.fatal
          && (if deployment == Normal then Watch else Heartbeat) !in s.flags)
      || (e == ShutdownCheck && s.started && !s.closing && !s.connected && !s.fatal)
  {
  }

  lemma TasksOnlyEnd(s: State, t: nat, outcome: Outcome)
    ensures Begun(s, t).tasks.Keys <= s.tasks.Keys
    ensures Attempted(s, t, outcome).tasks.Keys <= s.tasks.Keys
    ensures Published(s, t).tasks.Keys <= s.tasks.Keys
  {
    AttemptOnlyEnds(s, t, outcome);
    hide Attempted;
  }

  lemma AttemptOnlyEnds(s: State, t: nat, outcome: Outcome)
    ensures Attempted(s, t, outcome).tasks.Keys <= s.tasks.Keys
  {
    if t in s.tasks && s.tasks[t].Trying? {
      AttemptShape(s, t, outcome);
      hide Attempted;
    }
  }

  lemma NewTaskIsNew(s: State)
    requires FlagsExact(s)
    ensures s.clock !in s.tasks
  {
  }

  lemma StepStarts(deployment: Deployment, s: State, e: Event)
    requires FlagsExact(s)
    ensures s.clock in Step(deployment, s, e).tasks <==> SpawnedBy(deployment, s, e).Some?
    ensures Step(deployment, s, e).tasks.Keys <= s.tasks.Keys + {s.clock}
  {
    EffectIs(deployment, s, e);
    NewTaskIsNew(s);
    hide Step, Effect, SpawnedBy, Begun, Attempted, Published, Signalled, FlagsExact;
    if SpawnedBy(deployment, s, e).None? {
      match e
      case TaskRuns(t) => TasksOnlyEnd(s, t, Transient);
      case AttemptEnds(t, outcome) => TasksOnlyEnd(s, t, outcome);
      case Publish(t) => TasksOnlyEnd(s, t, Transient);
      case _ => SignalKeepsTasks(deployment, s, e);
    }
  }

  /** In every run, exactly these events start a handshake. */
  lemma HandshakeStartsExactlyIf(deployment: Deployment, events: seq<Event>, e: Event)
    ensures var s, after := Run(deployment, events), Run(deployment, events + [e]);
      && (s.clock in after.tasks <==>
        || (e == Startup && !s.started)
        || (e == SpawnCheck && s.started && !s.connected && !s.fatal
            && (if deployment == Normal then Watch else Heartbeat) !in s.flags)
        || (e == ShutdownCheck && s.started && !s.closing && !s.connected && !s.fatal))
      && after.tasks.Keys <= s.tasks.Keys + {s.clock}
  {
    hide Run, Step, OneShot, FlagsExact, SpawnedBy;
    OneMoreEvent(deployment, events, e);
    AlwaysSound(deployment, events);
    SpawnsExactlyIf(deployment, Run(deployment, events), e);
    StepStarts(deployment, Run(deployment, events), e);
  }

  // ---- What the latch promises -----------------------------------------------------------

  /** The promise of the latch: nothing has been attempted or counted since, and there is no session. */
  ghost predicate StaysOff(before: State, after: State) {
    after.fatal && after.cycles == before.cycles && after.attempts == before.attempts && !after.connected
  }

  /** Latched with no session, and no handshake is past the check with which it begins. */
  ghost predicate Quiet(s: State) {
    s.fatal && !s.connected && forall t <- s.tasks :: s.tasks[t].Starting?
  }

  lemma QuietBegins(s: State, t: nat)
    requires Quiet(s)
    ensures Quiet(Begun(s, t)) && StaysOff(s, Begun(s, t))
  {
  }

  lemma QuietSignals(deployment: Deployment, s: State, e: Event)
    requires Quiet(s)
    ensures Quiet(Signalled(deployment, s, e)) && StaysOff(s, Signalled(deployment, s, e))
  {
  }

  lemma QuietTasksWait(s: State, t: nat, outcome: Outcome)
    requires Quiet(s)
    ensures Attempted(s, t, outcome) == s && Published(s, t) == s && StaysOff(s, s)
  {
  }

  lemma QuietByClock(before: State, s: State, clock: nat)
    ensures Quiet(s.(clock := clock)) == Quiet(s) && StaysOff(before, s.(clock := clock)) == StaysOff(before, s)
  {
  }

  lemma QuietStep(deployment: Deployment, s: State, e: Event)
    requires Quiet(s) && s.started
    ensures Quiet(Step(deployment, s, e)) && StaysOff(s, Step(deployment, s, e))
  {
    EffectIs(deployment, s, e);
    LatchedIsNotSpawning(deployment, s, e);
    QuietByClock(s, Effect(deployment, s, e), s.clock + 1);
    hide *;
    match e
    case TaskRuns(t) => QuietBegins(s, t);
    case AttemptEnds(t, outcome) => QuietTasksWait(s, t, outcome);
    case Publish(t) => QuietTasksWait(s, t, Transient);
    case _ => QuietSignals(deployment, s, e);
  }

  lemma QuietMeansStarted(deployment: Deployment, events: seq<Event>)
    requires Quiet(Run(deployment, events))
    ensures Run(deployment, events).started
  {
    FatalMeansStarted(deployment, events);
    hide Run;
  }

  lemma OffTwice(a: State, b: State, c: State)
    requires StaysOff(a, b) && StaysOff(b, c)
    ensures StaysOff(a, c)
  {
  }

  lemma QuietIsOff(s: State)
    requires Quiet(s)
    ensures StaysOff(s, s)
  {
  }

  lemma {:induction false} QuietStaysOff(deployment: Deployment, events: seq<Event>, more: seq<Event>)
    requires Quiet(Run(deployment, events))
    ensures Quiet(Run(deployment, events + more)) && StaysOff(Run(deployment, events), Run(deployment, events + more))
  {
    hide *;
    if more == [] {
      assert events + more == events;
      QuietIsOff(Run(deployment, events));
    } else {
      var init, e := more[..|more| - 1], more[|more| - 1];
      assert (events + more)[..|events + more| - 1] == events + init && (events + more)[|events + more| - 1] == e;
      RunEnds(deployment, events + more);
      QuietStaysOff(deployment, events, init);
      QuietMeansStarted(deployment, events + init);
      QuietStep(deployment, Run(deployment, events + init), e);
      OffTwice(Run(deployment, events), Run(deployment, events + init), Run(deployment, events + more));
    }
  }

  /** A handshake past its beginning can still be counted or bring a session. */
  lemma LoudTaskGoesOn(deployment: Deployment, s: State, t: nat) returns (e: Event)
    requires t in s.tasks && !s.tasks[t].Starting?
    ensures !StaysOff(s, Step(deployment, s, e))
  {
    if s.tasks[t].Trying? {
      e := AttemptEnds(t, Transient);
    } else {
      e := Publish(t);
    }
  }

  lemma LatchBroken(deployment: Deployment, events: seq<Event>) returns (more: seq<Event>)
    requires Run(deployment, events).fatal && !Quiet(Run(deployment, events))
    ensures !StaysOff(Run(deployment, events), Run(deployment, events + more))
  {
    var s := Run(deployment, events);
    if t :| t in s.tasks && !s.tasks[t].Starting? {
      var e := LoudTaskGoesOn(deployment, s, t);
      more := [e];
      RunEnds(deployment, events + more);
      assert (events + more)[..|events|] == events;
      hide Run, Step;
    } else {
      more := [];
      assert events + more == events;
      hide Run;
    }
  }

  /**
   * Once latched, nothing is ever attempted or counted again and no session comes back, whatever follows, exactly if
   * at that moment there is no session and no handshake is past the check with which it begins.
   */
  lemma LatchHoldsExactlyIf(deployment: Deployment, events: seq<Event>)
    requires Run(deployment, events).fatal
    ensures (forall more :: StaysOff(Run(deployment, events), Run(deployment, events + more)))
            <==> Quiet(Run(deployment, events))
  {
    hide *;
    if Quiet(Run(deployment, events)) {
      forall more ensures StaysOff(Run(deployment, events), Run(deployment, events + more)) {
        QuietStaysOff(deployment, events, more);
      }
    } else {
      var more := LatchBroken(deployment, events);
    }
  }

  lemma SafeIsQuiet(s: State)
    requires Safe(s) && s.fatal
    ensures Quiet(s) && s.tasks == map[]
  {
  }

  /** Without an overlap before the latch that is so, and no handshake is left to run either. */
  lemma FatalIsForever(deployment: Deployment, events: seq<Event>, i: nat)
    requires i <= |events| && OverlapFree(deployment, events[..i]) && Run(deployment, events[..i]).fatal
    ensures StaysOff(Run(deployment, events[..i]), Run(deployment, events)) && Run(deployment, events).tasks == map[]
  {
    hide *;
    AlwaysSafe(deployment, events[..i]);
    SafeIsQuiet(Run(deployment, events[..i]));
    LatchHoldsExactlyIf(deployment, events[..i]);
    assert events[..i] + events[i..] == events;
    LatchStaysSet(deployment, events, i);
  }

  /**
   * On a managed instance an overlap can happen, and then the latch does not hold: a heartbeat falls into a slow
   * startup handshake, startup is rejected for good, and the heartbeat's own handshake connects all the same.
   */
  lemma ConnectsAfterRejection() returns (events: seq<Event>)
    ensures var s := Run(Managed, events); s.fatal && s.connected
    ensures !OverlapFree(Managed, events)
  {
    var s := TwoStart();
    RejectedBesideConnected(s);
    assert Run(Managed, []) == INITIAL;
    hide *;
    events := PushEvent([], Startup);
    events := PushEvent(events, TaskRuns(0));
    events := PushEvent(events, SpawnCheck);
    events := PushEvent(events, TaskRuns(2));
    events := PushEvent(events, AttemptEnds(0, Rejected));
    events := PushEvent(events, AttemptEnds(2, Outcome.Connected));
    events := PushEvent(events, Publish(2));
    if OverlapFree(Managed, events) {
      AlwaysSafe(Managed, events);
      SafeIsExclusive(Run(Managed, events));
    }
  }

  lemma PushEvent(events: seq<Event>, e: Event) returns (longer: seq<Event>)
    ensures Run(Managed, longer) == Step(Managed, Run(Managed, events), e)
  {
    longer := events + [e];
    assert longer[..|events|] == events;
    hide Step;
  }

  lemma SafeIsExclusive(s: State)
    requires Safe(s)
    ensures !(s.connected && s.fatal)
  {
  }

  lemma TwoStart() returns (s: State)
    ensures s == Step(Managed, Step(Managed, Step(Managed, Step(Managed, INITIAL, Startup),
                      TaskRuns(0)), SpawnCheck), TaskRuns(2))
    ensures s.tasks == map[0 := Trying(Watch, 0), 2 := Trying(Heartbeat, 0)] && !s.fatal && s.clock == 4
  {
    var s1 := Step(Managed, INITIAL, Startup);
    var s2 := Step(Managed, s1, TaskRuns(0));
    var s3 := Step(Managed, s2, SpawnCheck);
    s := Step(Managed, s3, TaskRuns(2));
    assert s2.tasks == map[0 := Trying(Watch, 0)] && s2.flags == {Watch} && s2.started && s2.clock == 2;
    assert s3.tasks == map[0 := Trying(Watch, 0), 2 := Starting(Heartbeat)];
  }

  lemma RejectsFirst(s: State)
    requires s.tasks == map[0 := Trying(Watch, 0), 2 := Trying(Heartbeat, 0)]
    ensures var after := Step(Managed, s, AttemptEnds(0, Rejected));
      after.tasks == map[2 := Trying(Heartbeat, 0)] && after.fatal
  {
  }

  lemma ConnectsSecond(s: State)
    requires s.tasks == map[2 := Trying(Heartbeat, 0)] && s.fatal
    ensures var after := Step(Managed, s, AttemptEnds(2, Outcome.Connected));
      after.tasks == map[2 := Publishing(Heartbeat)] && after.fatal
  {
  }

  lemma RejectedBesideConnected(s: State)
    requires s.tasks == map[0 := Trying(Watch, 0), 2 := Trying(Heartbeat, 0)]
    ensures var after := Step(Managed, Step(Managed, Step(Managed, s,
        AttemptEnds(0, Rejected)), AttemptEnds(2, Outcome.Connected)), Publish(2));
      after.fatal && after.connected
  {
    RejectsFirst(s);
    var s1 := Step(Managed, s, AttemptEnds(0, Rejected));
    ConnectsSecond(s1);
    var s2 := Step(Managed, s1, AttemptEnds(2, Outcome.Connected));
    EffectIs(Managed, s2, Publish(2));
    hide Step, Effect;
  }

  // ---- The burst as code -----------------------------------------------------------------

  /** How many of the first three outcomes precede the first that is not transient. */
  function TransientFirst(outcomes: seq<Outcome>, n: nat): (k: nat)
    requires n <= |outcomes|
    ensures k <= n && (forall i :: 0 <= i < k ==> outcomes[i].Transient?) && (k < n ==> !outcomes[k].Transient?)
  {
    if n == 0 then 0
    else
      var k := TransientFirst(outcomes, n - 1);
      if k == n - 1 && outcomes[n - 1].Transient? then n else k
  }

  datatype Result = Session | Failed(last: Outcome) | Disabled

  class ConnectStats {
    var fatal: bool
    var cycles: nat
    var attempts: nat

    constructor ()
      ensures !fatal && cycles == 0 && attempts == 0
    {
      fatal, cycles, attempts := false, 0, 0;
    }

    /** The retry loop of `ApmApp::new`. */
    method Connect(outcomes: seq<Outcome>) returns (result: Result)
      requires |outcomes| >= 3
      modifies this
      ensures old(fatal) ==> result == Disabled && fatal && cycles == old(cycles) && attempts == old(attempts)
      ensures !old(fatal) ==>
        var k := TransientFirst(outcomes, 3);
        if k == 3 then
          result == Failed(Transient) && !fatal && cycles == old(cycles) + 1
            && attempts == old(attempts) + 3
        else if outcomes[k].Connected? then result == Session && !fatal && cycles == 0 && attempts == 0
        else result == Failed(Rejected) && fatal && cycles == old(cycles) + 1 && attempts == old(attempts) + k + 1
    {
      if fatal {
        return Disabled;
      }
      cycles := cycles + 1;
      var lastError := None;
      for attempt := 0 to ATTEMPTS_PER_CYCLE
        invariant TransientFirst(outcomes, attempt) == attempt
        invariant !fatal && cycles == old(cycles) + 1 && attempts == old(attempts) + attempt
        invariant attempt > 0 ==> lastError == Some(Transient)
      {
        StopsThere(outcomes, attempt, ATTEMPTS_PER_CYCLE);
        match outcomes[attempt] {
          case Connected =>
            cycles, attempts := 0, 0;
            return Session;
          case Rejected =>
            attempts := attempts + 1;
            fatal := true;
            return Failed(Rejected);
          case Transient =>
            attempts := attempts + 1;
            lastError := Some(Transient);
        }
      }
      result := Failed(lastError.value);
    }
  }

  lemma StopsThere(outcomes: seq<Outcome>, k: nat, n: nat)
    requires k < n <= |outcomes| && TransientFirst(outcomes, k) == k
    ensures !outcomes[k].Transient? ==> TransientFirst(outcomes, n) == k
  {
  }

  /** The first `n` attempts of one task with nothing in between; attempts after its end change nothing. */
  function Burst(s: State, t: nat, outcomes: seq<Outcome>, n: nat): State
    requires n <= |outcomes|
  {
    if n == 0 then s else Attempted(Burst(s, t, outcomes, n - 1), t, outcomes[n - 1])
  }

  /** Run without interruption, a handshake task of the machine counts and latches as the code's loop does. */
  lemma {:induction false} BurstIsConnect(s: State, t: nat, outcomes: seq<Outcome>, n: nat)
    requires t in s.tasks && s.tasks[t].Starting? && !s.fatal && n <= |outcomes| && n <= 3
    ensures var k, after := TransientFirst(outcomes, n), Burst(Begun(s, t), t, outcomes, n);
      if k == n then
        && !after.fatal && after.cycles == s.cycles + 1 && after.attempts == s.attempts + n
        && if n < 3 then t in after.tasks && after.tasks[t] == Trying(s.tasks[t].slot, n)
           else t !in after.tasks
      else if outcomes[k].Connected? then
        !after.fatal && after.cycles == 0 && after.attempts == 0 && t in after.tasks && after.tasks[t].Publishing?
      else after.fatal && after.cycles == s.cycles + 1 && after.attempts == s.attempts + k + 1 && t !in after.tasks
  {
    if n > 0 {
      BurstIsConnect(s, t, outcomes, n - 1);
      hide Begun;
    }
  }
}
