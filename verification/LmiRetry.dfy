/** The retry of failed agent payloads on managed instances, one pass at a time (src/event_loop_lmi.rs). */
module LmiRetry {
  import opened Types
  import opened FailedPayloads
  import RetryStore

  const LMI_AGENT_RETRY_MAX := 10

  /** Why a payload is no longer waiting. */
  datatype Exit =
    | Delivered
    | PastTtl(hours: int)
    | RetriesUsed(tries: nat)
    | EvictedFull(length: nat)

  /** A pass has taken the buffer, waits for the session, then goes through what it took. */
  datatype Phase =
    | Idle
    | Taken(payloads: seq<Item>)
    | Running(now: int, remaining: seq<Item>, sending: Option<Item>, todo: seq<Item>)

  datatype Event =
    | Push(requestId: string, bytes: seq<Byte>, now: int)
    | Take
    | Session(connected: bool, now: int)
    | SendNext
    | Answer(delivered: bool)
    | Finish

  datatype State = State(
    buf: seq<Item>,
    phase: Phase,
    accepted: nat,
    exits: map<nat, Exit>,
    tries: map<nat, nat>,
    passes: nat,
    // History: failures that arrived since the last pass took the buffer, and when each payload failed.
    since: nat,
    failedAt: map<nat, int>)

  const INITIAL := State([], Idle, 0, map[], map[], 0, 0, map[])

  function TriesOf(tries: map<nat, nat>, n: nat): nat {
    if n in tries then tries[n] else 0
  }

  function PushNew(s: State, item: Item): State {
    s.(buf := RetryStore.CappedPush(s.buf, item, MAX_FAILED_AGENT_PAYLOADS),
       accepted := s.accepted + 1,
       since := s.since + 1,
       failedAt := s.failedAt[s.accepted := item.failedAt],
       exits := if |s.buf| >= MAX_FAILED_AGENT_PAYLOADS then s.exits[s.buf[0].serial := EvictedFull(|s.buf|)]
                else s.exits)
  }

  function TakeAll(s: State): State {
    if s.phase.Idle? && s.buf != [] then s.(buf := [], phase := Taken(s.buf), passes := s.passes + 1, since := 0) else s
  }

  /** Without a session everything taken goes back in front of what arrived since. */
  function WithSession(s: State, connected: bool, now: int): State {
    if !s.phase.Taken? then s
    else if connected then s.(phase := Running(now, [], None, s.phase.payloads))
    else s.(buf := s.phase.payloads + s.buf, phase := Idle)
  }

  function Next(s: State): State {
    if s.phase.Running? && s.phase.sending.None? && s.phase.todo != [] then
      var item, rest := s.phase.todo[0], s.phase.todo[1..];
      var hours := AgeInHours(item, s.phase.now);
      if hours >= 24 then
        s.(phase := s.phase.(todo := rest), exits := s.exits[item.serial := PastTtl(hours)])
      else if item.retryCount >= LMI_AGENT_RETRY_MAX then
        s.(phase := s.phase.(todo := rest), exits := s.exits[item.serial := RetriesUsed(item.retryCount)])
      else
        s.(phase := s.phase.(todo := rest, sending := Some(item)),
           tries := s.tries[item.serial := TriesOf(s.tries, item.serial) + 1])
    else s
  }

  function Answered(s: State, delivered: bool): State {
    if s.phase.Running? && s.phase.sending.Some? then
      var item := s.phase.sending.value;
      if delivered then s.(phase := s.phase.(sending := None), exits := s.exits[item.serial := Delivered])
      else s.(phase := s.phase.(sending := None, remaining := s.phase.remaining + [Bumped(item)]))
    else s
  }

  /** Survivors are stored back in front of the failures that arrived meanwhile. */
  function Finished(s: State): State {
    if s.phase.Running? && s.phase.sending.None? && s.phase.todo == [] then
      s.(phase := Idle, buf := if s.phase.remaining == [] then s.buf else s.phase.remaining + s.buf)
    else s
  }

  function Step(s: State, e: Event): State {
    match e
    case Push(requestId, bytes, now) => PushNew(s, Item(s.accepted, requestId, bytes, 0, now))
    case Take => TakeAll(s)
    case Session(connected, now) => WithSession(s, connected, now)
    case SendNext => Next(s)
    case Answer(delivered) => Answered(s, delivered)
    case Finish => Finished(s)
  }

  function Run(events: seq<Event>): State {
    if events == [] then INITIAL else Step(Run(events[..|events| - 1]), events[|events| - 1])
  }

  // ---- The waiting line ------------------------------------------------------------------

  /** Every payload still waiting, in order; the one being sent is counted with its running try. */
  function LineOf(phase: Phase, buf: seq<Item>): seq<Item> {
    match phase
    case Idle => buf
    case Taken(payloads) => payloads + buf
    case Running(_, remaining, sending, todo) =>
      remaining + (if sending.Some? then [Bumped(sending.value)] else []) + todo + buf
  }

  function Line(s: State): seq<Item> {
    LineOf(s.phase, s.buf)
  }

  predicate ExitJustified(n: nat, exit: Exit, tries: map<nat, nat>) {
    match exit
    case Delivered => TriesOf(tries, n) > 0
    case PastTtl(hours) => hours >= 24
    case RetriesUsed(used) => used == TriesOf(tries, n) == LMI_AGENT_RETRY_MAX
    case EvictedFull(length) => length >= MAX_FAILED_AGENT_PAYLOADS
  }

  ghost predicate InOrder(line: seq<Item>, accepted: nat) {
    && (forall i, j :: 0 <= i < j < |line| ==> line[i].serial < line[j].serial)
    && (forall i :: 0 <= i < |line| ==> line[i].serial < accepted)
  }

  ghost predicate Waits(line: seq<Item>, n: nat) {
    exists i :: 0 <= i < |line| && line[i].serial == n
  }

  /** The line is in arrival order, and an accepted payload is either in it or left for a stated cause. */
  ghost predicate Good(line: seq<Item>, accepted: nat, exits: map<nat, Exit>, tries: map<nat, nat>) {
    && InOrder(line, accepted)
    && (forall n: nat :: n < accepted ==> (n in exits <==> !Waits(line, n)))
    && (forall n <- exits :: n < accepted && ExitJustified(n, exits[n], tries))
    && (forall i :: 0 <= i < |line| ==> TriesOf(tries, line[i].serial) == line[i].retryCount)
    && (forall n <- tries :: n < accepted && tries[n] <= LMI_AGENT_RETRY_MAX)
  }

  lemma RemovalWaits(line: seq<Item>, k: nat, accepted: nat, n: nat)
    requires InOrder(line, accepted) && k < |line|
    ensures Waits(line[..k] + line[k + 1..], n) <==> Waits(line, n) && n != line[k].serial
  {
    var after := line[..k] + line[k + 1..];
    if Waits(line, n) && n != line[k].serial {
      var i :| 0 <= i < |line| && line[i].serial == n;
      assert after[if i < k then i else i - 1].serial == n;
    }
    if Waits(after, n) {
      var i :| 0 <= i < |after| && after[i].serial == n;
      assert line[if i < k then i else i + 1].serial == n;
    }
  }

  lemma RemovalInOrder(line: seq<Item>, k: nat, accepted: nat)
    requires InOrder(line, accepted) && k < |line|
    ensures InOrder(line[..k] + line[k + 1..], accepted)
  {
  }

  lemma Removal(line: seq<Item>, k: nat, accepted: nat, exits: map<nat, Exit>, tries: map<nat, nat>, exit: Exit)
    requires Good(line, accepted, exits, tries) && k < |line|
    requires ExitJustified(line[k].serial, exit, tries)
    ensures Good(line[..k] + line[k + 1..], accepted, exits[line[k].serial := exit], tries)
  {
    hide ExitJustified, TriesOf, Waits;
    var after, gone := line[..k] + line[k + 1..], exits[line[k].serial := exit];
    forall n: nat | n < accepted ensures n in gone <==> !Waits(after, n) {
      RemovalWaits(line, k, accepted, n);
    }
    RemovalInOrder(line, k, accepted);
    forall i | 0 <= i < |after| ensures TriesOf(tries, after[i].serial) == after[i].retryCount {
      assert after[i] == line[if i < k then i else i + 1];
    }
  }

  lemma SameSerialsWait(a: seq<Item>, b: seq<Item>, n: nat)
    requires |a| == |b| && forall i :: 0 <= i < |a| ==> a[i].serial == b[i].serial
    ensures Waits(a, n) ==> Waits(b, n)
  {
    if Waits(a, n) {
      var i :| 0 <= i < |a| && a[i].serial == n;
      assert b[i].serial == n;
    }
  }

  lemma OneMoreTry(line: seq<Item>, k: nat, accepted: nat, exits: map<nat, Exit>, tries: map<nat, nat>)
    requires Good(line, accepted, exits, tries) && k < |line| && line[k].retryCount < LMI_AGENT_RETRY_MAX
    ensures Good(line[k := Bumped(line[k])], accepted, exits,
      tries[line[k].serial := TriesOf(tries, line[k].serial) + 1])
  {
    var after, n := line[k := Bumped(line[k])], line[k].serial;
    forall m: nat ensures Waits(after, m) <==> Waits(line, m) {
      SameSerialsWait(line, after, m);
      SameSerialsWait(after, line, m);
    }
    var more := tries[n := TriesOf(tries, n) + 1];
    assert Waits(line, n) && n !in exits;
    forall i | 0 <= i < |after| ensures TriesOf(more, after[i].serial) == after[i].retryCount {
      assert i != k ==> line[i].serial != n;
    }
    hide Waits, Bumped;
  }

  lemma Arrival(line: seq<Item>, item: Item, accepted: nat, exits: map<nat, Exit>, tries: map<nat, nat>)
    requires Good(line, accepted, exits, tries) && item.serial == accepted && item.retryCount == 0
    ensures Good(line + [item], accepted + 1, exits, tries)
  {
    hide ExitJustified;
    var after := line + [item];
    forall n: nat ensures Waits(after, n) <==> Waits(line, n) || n == accepted {
      if Waits(line, n) {
        var i :| 0 <= i < |line| && line[i].serial == n;
        assert after[i].serial == n;
      }
      assert after[|line|].serial == accepted;
    }
  }

  ghost predicate Sound(s: State) {
    && Good(Line(s), s.accepted, s.exits, s.tries)
    && (s.phase.Running? && s.phase.sending.Some? ==> s.phase.sending.value.retryCount < LMI_AGENT_RETRY_MAX)
  }

  lemma PushSound(s: State, item: Item)
    requires Sound(s) && item.serial == s.accepted && item.retryCount == 0
    ensures Sound(PushNew(s, item))
  {
    hide Good, Bumped;
    var line, after := Line(s), Line(PushNew(s, item));
    if |s.buf| >= MAX_FAILED_AGENT_PAYLOADS {
      var k := |line| - |s.buf|;
      assert line[k] == s.buf[0];
      assert line[..k] + line[k + 1..] + [item] == after;
      Removal(line, k, s.accepted, s.exits, s.tries, EvictedFull(|s.buf|));
      Arrival(line[..k] + line[k + 1..], item, s.accepted, s.exits[line[k].serial := EvictedFull(|s.buf|)], s.tries);
    } else {
      assert line + [item] == after;
      Arrival(line, item, s.accepted, s.exits, s.tries);
    }
  }

  lemma TriesMatch(line: seq<Item>, k: nat, accepted: nat, exits: map<nat, Exit>, tries: map<nat, nat>)
    requires Good(line, accepted, exits, tries) && k < |line|
    ensures TriesOf(tries, line[k].serial) == line[k].retryCount <= LMI_AGENT_RETRY_MAX
  {
  }

  lemma TurnInLine(phase: Phase, buf: seq<Item>)
    requires phase.Running? && phase.sending.None? && phase.todo != []
    ensures |phase.remaining| < |LineOf(phase, buf)| && LineOf(phase, buf)[|phase.remaining|] == phase.todo[0]
  {
  }

  /** The payload whose turn it is leaves the line. */
  lemma DropsFromLine(phase: Phase, buf: seq<Item>, accepted: nat, exits: map<nat, Exit>, tries: map<nat, nat>,
                      exit: Exit)
    requires phase.Running? && phase.sending.None? && phase.todo != []
    requires Good(LineOf(phase, buf), accepted, exits, tries) && ExitJustified(phase.todo[0].serial, exit, tries)
    ensures Good(LineOf(phase.(todo := phase.todo[1..]), buf), accepted, exits[phase.todo[0].serial := exit], tries)
  {
    var line, k := LineOf(phase, buf), |phase.remaining|;
    assert line[..k] + line[k + 1..] == LineOf(phase.(todo := phase.todo[1..]), buf);
    hide Good, LineOf, ExitJustified;
    TurnInLine(phase, buf);
    Removal(line, k, accepted, exits, tries, exit);
  }

  /** It stays in line with one more try. */
  lemma TriesInLine(phase: Phase, buf: seq<Item>, accepted: nat, exits: map<nat, Exit>, tries: map<nat, nat>)
    requires phase.Running? && phase.sending.None? && phase.todo != [] && phase.todo[0].retryCount < LMI_AGENT_RETRY_MAX
    requires Good(LineOf(phase, buf), accepted, exits, tries)
    ensures var n := phase.todo[0].serial;
      Good(LineOf(phase.(todo := phase.todo[1..], sending := Some(phase.todo[0])), buf), accepted, exits,
           tries[n := TriesOf(tries, n) + 1])
  {
    hide *;
    TurnInLine(phase, buf);
    TryKeepsPlace(phase, buf);
    OneMoreTry(LineOf(phase, buf), |phase.remaining|, accepted, exits, tries);
  }

  lemma TryKeepsPlace(phase: Phase, buf: seq<Item>)
    requires phase.Running? && phase.sending.None? && phase.todo != []
    ensures var line, k := LineOf(phase, buf), |phase.remaining|;
      k < |line| && line[k := Bumped(phase.todo[0])]
        == LineOf(phase.(todo := phase.todo[1..], sending := Some(phase.todo[0])), buf)
  {
    hide Bumped;
  }

  lemma TtlExit(n: nat, hours: int, tries: map<nat, nat>)
    requires hours >= 24
    ensures ExitJustified(n, PastTtl(hours), tries)
  {
  }

  lemma LimitExit(item: Item, tries: map<nat, nat>)
    requires TriesOf(tries, item.serial) == item.retryCount == LMI_AGENT_RETRY_MAX
    ensures ExitJustified(item.serial, RetriesUsed(item.retryCount), tries)
  {
  }

  predicate HasTurn(s: State) {
    s.phase.Running? && s.phase.sending.None? && s.phase.todo != []
  }

  lemma DropSound(s: State, exit: Exit)
    requires Sound(s) && HasTurn(s) && ExitJustified(s.phase.todo[0].serial, exit, s.tries)
    ensures Sound(s.(phase := s.phase.(todo := s.phase.todo[1..]), exits := s.exits[s.phase.todo[0].serial := exit]))
  {
    hide Good, LineOf, ExitJustified, TriesOf;
    DropsFromLine(s.phase, s.buf, s.accepted, s.exits, s.tries, exit);
  }

  lemma TrySound(s: State)
    requires Sound(s) && HasTurn(s) && s.phase.todo[0].retryCount < LMI_AGENT_RETRY_MAX
    ensures var item := s.phase.todo[0];
      Sound(s.(phase := s.phase.(todo := s.phase.todo[1..], sending := Some(item)),
               tries := s.tries[item.serial := TriesOf(s.tries, item.serial) + 1]))
  {
    hide Good, LineOf, TriesOf;
    TriesInLine(s.phase, s.buf, s.accepted, s.exits, s.tries);
  }

  lemma TurnMatches(s: State)
    requires Sound(s) && HasTurn(s)
    ensures TriesOf(s.tries, s.phase.todo[0].serial) == s.phase.todo[0].retryCount <= LMI_AGENT_RETRY_MAX
  {
    TurnInLine(s.phase, s.buf);
    TriesMatch(Line(s), |s.phase.remaining|, s.accepted, s.exits, s.tries);
    hide Good, LineOf, TriesOf;
  }

  lemma NextSound(s: State)
    requires Sound(s)
    ensures Sound(Next(s))
  {
    hide Sound, AgeInHours, TriesOf, ExitJustified;
    if HasTurn(s) {
      var item, hours := s.phase.todo[0], AgeInHours(s.phase.todo[0], s.phase.now);
      TurnMatches(s);
      if hours >= 24 {
        TtlExit(item.serial, hours, s.tries);
        DropSound(s, PastTtl(hours));
      } else if item.retryCount >= LMI_AGENT_RETRY_MAX {
        LimitExit(item, s.tries);
        DropSound(s, RetriesUsed(item.retryCount));
      } else {
        TrySound(s);
      }
    }
  }

  lemma AnswerSound(s: State, delivered: bool)
    requires Sound(s)
    ensures Sound(Answered(s, delivered))
  {
    if s.phase.Running? && s.phase.sending.Some? {
      var line, after, k := Line(s), Line(Answered(s, delivered)), |s.phase.remaining|;
      assert line[k] == Bumped(s.phase.sending.value);
      if delivered {
        assert line[..k] + line[k + 1..] == after;
        Removal(line, k, s.accepted, s.exits, s.tries, Delivered);
      } else {
        assert line == after;
      }
    }
  }

  lemma TakeKeepsLine(s: State)
    ensures Line(TakeAll(s)) == Line(s)
  {
  }

  lemma SessionKeepsLine(s: State, connected: bool, now: int)
    ensures Line(WithSession(s, connected, now)) == Line(s)
  {
  }

  lemma FinishKeepsLine(s: State)
    ensures Line(Finished(s)) == Line(s)
  {
  }

  lemma MovesSound(s: State, connected: bool, now: int)
    requires Sound(s)
    ensures Sound(TakeAll(s)) && Sound(WithSession(s, connected, now)) && Sound(Finished(s))
  {
    TakeKeepsLine(s);
    SessionKeepsLine(s, connected, now);
    FinishKeepsLine(s);
    hide Good, LineOf;
  }

  lemma StepSound(s: State, e: Event)
    requires Sound(s)
    ensures Sound(Step(s, e))
  {
    hide Sound, PushNew, TakeAll, WithSession, Next, Answered, Finished;
    match e
    case Push(requestId, bytes, now) => PushSound(s, Item(s.accepted, requestId, bytes, 0, now));
    case Session(connected, now) => MovesSound(s, connected, now);
    case SendNext => NextSound(s);
    case Answer(delivered) => AnswerSound(s, delivered);
    case _ => MovesSound(s, true, 0);
  }

  /**
   * With any arrivals during its passes, the buffer is always in arrival order, survivors before arrivals. Every
   * payload is tried at most ten times and leaves only by a delivery, the 24-hour limit, the retry limit or an
   * eviction from a full buffer.
   */
  lemma {:induction false} AlwaysInArrivalOrder(events: seq<Event>)
    ensures Sound(Run(events))
  {
    if events != [] {
      AlwaysInArrivalOrder(events[..|events| - 1]);
      StepSound(Run(events[..|events| - 1]), events[|events| - 1]);
    }
  }

  lemma SuffixInOrder(line: seq<Item>, buf: seq<Item>, accepted: nat)
    requires InOrder(line, accepted) && |buf| <= |line| && line[|line| - |buf|..] == buf
    ensures InOrder(buf, accepted)
  {
    var k := |line| - |buf|;
    forall i | 0 <= i < |buf| ensures buf[i] == line[k + i] {
    }
  }

  lemma BufEndsLine(s: State)
    ensures |s.buf| <= |Line(s)| && Line(s)[|Line(s)| - |s.buf|..] == s.buf
  {
  }

  lemma ExitCauses(n: nat, exit: Exit, tries: map<nat, nat>)
    requires ExitJustified(n, exit, tries)
    ensures match exit
      case Delivered => n in tries && tries[n] > 0
      case PastTtl(hours) => hours >= 24
      case RetriesUsed(used) => n in tries && used == tries[n] == 10
      case EvictedFull(length) => length >= 500
  {
  }

  /** What that says about the buffer alone and about one payload. */
  lemma InOrderAndTriedTenTimes(events: seq<Event>, n: nat)
    ensures var s := Run(events);
      && InOrder(s.buf, s.accepted)
      && (n in s.tries ==> s.tries[n] <= 10)
      && (n < s.accepted && !Waits(Line(s), n) ==> n in s.exits)
      && (n in s.exits ==>
        && !Waits(Line(s), n)
        && match s.exits[n]
           case Delivered => n in s.tries && s.tries[n] > 0
           case PastTtl(hours) => hours >= 24
           case RetriesUsed(used) => n in s.tries && used == s.tries[n] == 10
           case EvictedFull(length) => length >= 500)
  {
    hide Run, LineOf, ExitJustified, Waits, InOrder;
    AlwaysInArrivalOrder(events);
    BufEndsLine(Run(events));
    SuffixInOrder(Line(Run(events)), Run(events).buf, Run(events).accepted);
    if n in Run(events).exits {
      ExitCauses(n, Run(events).exits[n], Run(events).tries);
    }
  }

  // ---- The limits on age and tries -------------------------------------------------------

  ghost predicate Dated(item: Item, accepted: nat, failedAt: map<nat, int>) {
    item.serial < accepted && item.serial in failedAt && item.failedAt == failedAt[item.serial]
  }

  ghost predicate EachDated(items: seq<Item>, accepted: nat, failedAt: map<nat, int>) {
    forall item <- items :: Dated(item, accepted, failedAt)
  }

  /** Every waiting payload still says when it failed. */
  ghost predicate AllDated(s: State) {
    EachDated(Line(s), s.accepted, s.failedAt) && forall n <- s.failedAt :: n < s.accepted
  }

  lemma PushDated(s: State, item: Item)
    requires AllDated(s) && item.serial == s.accepted
    ensures AllDated(PushNew(s, item))
  {
    var after := PushNew(s, item);
    forall x | x in Line(after) ensures Dated(x, after.accepted, after.failedAt) {
      assert x in Line(s) || x == item;
    }
  }

  lemma NextDated(s: State)
    requires AllDated(s)
    ensures AllDated(Next(s))
  {
    hide AgeInHours, TriesOf;
    if HasTurn(s) {
      TurnInLine(s.phase, s.buf);
      var line := Line(s);
      assert line[|s.phase.remaining|] in line;
      forall x | x in Line(Next(s)) ensures Dated(x, s.accepted, s.failedAt) {
        assert x in line || x == Bumped(s.phase.todo[0]);
      }
    }
  }

  lemma AnswerDated(s: State, delivered: bool)
    requires AllDated(s)
    ensures AllDated(Answered(s, delivered))
  {
    hide Dated, Bumped;
    forall x | x in Line(Answered(s, delivered)) ensures x in Line(s) {
    }
  }

  lemma StepDated(s: State, e: Event)
    requires AllDated(s)
    ensures AllDated(Step(s, e))
  {
    hide EachDated, LineOf, PushNew, Next, Answered;
    match e
    case Push(requestId, bytes, now) => PushDated(s, Item(s.accepted, requestId, bytes, 0, now));
    case SendNext => NextDated(s);
    case Answer(delivered) => AnswerDated(s, delivered);
    case Session(connected, now) => SessionKeepsLine(s, connected, now);
    case Take => TakeKeepsLine(s);
    case Finish => FinishKeepsLine(s);
  }

  lemma RunStep(events: seq<Event>, e: Event)
    ensures Run(events + [e]) == Step(Run(events), e)
  {
    assert (events + [e])[..|events|] == events;
    hide Step;
  }

  lemma LastStep(events: seq<Event>)
    requires events != []
    ensures Run(events) == Step(Run(events[..|events| - 1]), events[|events| - 1])
  {
  }

  lemma {:induction false} AlwaysDated(events: seq<Event>)
    ensures AllDated(Run(events))
  {
    if events != [] {
      AlwaysDated(events[..|events| - 1]);
      StepDated(Run(events[..|events| - 1]), events[|events| - 1]);
    }
  }

  lemma StampsStay(s: State, e: Event, n: nat)
    requires AllDated(s) && n in s.failedAt
    ensures n in Step(s, e).failedAt && Step(s, e).failedAt[n] == s.failedAt[n]
  {
    hide EachDated, AgeInHours, TriesOf;
  }

  lemma PushStamps(s: State, e: Event)
    requires e.Push?
    ensures s.accepted in Step(s, e).failedAt && Step(s, e).failedAt[s.accepted] == e.now
  {
  }

  /** What the history calls the time of failure is the clock of the push that brought the payload in. */
  lemma {:induction false} FailedWhenPushed(events: seq<Event>, i: nat)
    requires i < |events| && events[i].Push?
    ensures var n := Run(events[..i]).accepted;
      n in Run(events).failedAt && Run(events).failedAt[n] == events[i].now
  {
    hide Run, Step, AllDated;
    var init := events[..|events| - 1];
    LastStep(events);
    if i < |init| {
      assert init[..i] == events[..i];
      FailedWhenPushed(init, i);
      AlwaysDated(init);
      StampsStay(Run(init), events[|init|], Run(events[..i]).accepted);
    } else {
      PushStamps(Run(init), events[i]);
    }
  }

  lemma TurnDated(s: State)
    requires AllDated(s) && HasTurn(s)
    ensures Dated(s.phase.todo[0], s.accepted, s.failedAt)
  {
    TurnInLine(s.phase, s.buf);
    assert Line(s)[|s.phase.remaining|] in Line(s);
  }

  lemma NextExactlyIf(s: State)
    requires HasTurn(s) && Dated(s.phase.todo[0], s.accepted, s.failedAt)
    requires TriesOf(s.tries, s.phase.todo[0].serial) == s.phase.todo[0].retryCount
    ensures var after, item := Next(s), s.phase.todo[0];
      var n, age := item.serial, s.phase.now - s.failedAt[item.serial];
      && after.phase == Running(s.phase.now, s.phase.remaining, after.phase.sending, s.phase.todo[1..])
      && (age < 24 * 3_600_000 && item.retryCount < 10 ==>
        after.phase.sending == Some(item) && after.exits == s.exits
        && after.tries == s.tries[n := item.retryCount + 1])
      && (age >= 24 * 3_600_000 ==>
        after.phase.sending == None && n in after.exits && after.exits[n].PastTtl? && after.tries == s.tries)
      && (age < 24 * 3_600_000 && item.retryCount >= 10 ==>
        after.phase.sending == None && n in after.exits && after.exits[n].RetriesUsed? && after.tries == s.tries)
  {
    MoreThanADay(s.phase.todo[0], s.phase.now);
    hide AgeInHours;
  }

  /**
   * In every run, the next payload of a pass is sent exactly if it failed less than 24 hours before the pass began and
   * has been tried fewer than ten times. Otherwise it leaves, for the first of the two reasons that applies.
   */
  lemma SentExactlyIf(events: seq<Event>)
    requires var phase := Run(events).phase; phase.Running? && phase.sending.None? && phase.todo != []
    ensures var s, after := Run(events), Run(events + [SendNext]);
      var n := s.phase.todo[0].serial;
      var tried := if n in s.tries then s.tries[n] else 0;
      && n in s.failedAt
      && after.phase == Running(s.phase.now, s.phase.remaining, after.phase.sending, s.phase.todo[1..])
      && (s.phase.now - s.failedAt[n] < 24 * 3_600_000 && tried < 10 ==>
        && after.phase.sending == Some(s.phase.todo[0]) && after.exits == s.exits
        && after.tries == s.tries[n := tried + 1])
      && (s.phase.now - s.failedAt[n] >= 24 * 3_600_000 ==>
        after.phase.sending == None && n in after.exits && after.exits[n].PastTtl? && after.tries == s.tries)
      && (s.phase.now - s.failedAt[n] < 24 * 3_600_000 && tried >= 10 ==>
        after.phase.sending == None && n in after.exits && after.exits[n].RetriesUsed? && after.tries == s.tries)
  {
    hide Run, Next, AllDated, Sound;
    RunStep(events, SendNext);
    AlwaysDated(events);
    TurnDated(Run(events));
    AlwaysInArrivalOrder(events);
    TurnMatches(Run(events));
    NextExactlyIf(Run(events));
  }

  // ---- The size of the buffer ------------------------------------------------------------

  ghost predicate SizeBounded(s: State) {
    match s.phase
    case Idle => |s.buf| <= MAX_FAILED_AGENT_PAYLOADS * (s.passes + 1)
    case _ => |s.buf| <= MAX_FAILED_AGENT_PAYLOADS && |Line(s)| - |s.buf| <= MAX_FAILED_AGENT_PAYLOADS * s.passes
  }

  lemma StepBounded(s: State, e: Event)
    requires SizeBounded(s)
    ensures SizeBounded(Step(s, e))
  {
  }

  /** A merge is not capped: each pass may add at most one buffer's worth. */
  lemma {:induction false} SizeGrowsByPasses(events: seq<Event>)
    ensures SizeBounded(Run(events))
  {
    if events != [] {
      SizeGrowsByPasses(events[..|events| - 1]);
      StepBounded(Run(events[..|events| - 1]), events[|events| - 1]);
    }
  }

  /** What the event puts back in front of the buffer. */
  function PutBack(s: State, e: Event): seq<Item> {
    match e
    case Session(connected, _) => if s.phase.Taken? && !connected then s.phase.payloads else []
    case Finish =>
      if s.phase.Running? && s.phase.sending.None? && s.phase.todo == [] then s.phase.remaining else []
    case _ => []
  }

  /** What is put back and what arrived during the pass fit into the buffer together. */
  predicate Fits(s: State, e: Event) {
    PutBack(s, e) == [] || |PutBack(s, e)| + s.since <= MAX_FAILED_AGENT_PAYLOADS
  }

  ghost predicate Capped(s: State) {
    |s.buf| <= MAX_FAILED_AGENT_PAYLOADS
  }

  /** During a pass the buffer holds the newest arrivals since it was taken. */
  ghost predicate HoldsArrivals(s: State) {
    s.phase != Idle ==> |s.buf| == if s.since < MAX_FAILED_AGENT_PAYLOADS then s.since else MAX_FAILED_AGENT_PAYLOADS
  }

  lemma {:induction false} AlwaysHoldsArrivals(events: seq<Event>)
    ensures HoldsArrivals(Run(events))
  {
    if events != [] {
      AlwaysHoldsArrivals(events[..|events| - 1]);
    }
  }

  /** From a buffer within the cap, the next one is within it exactly if the event fits. */
  lemma CappedStep(s: State, e: Event)
    requires Capped(s) && HoldsArrivals(s)
    ensures Capped(Step(s, e)) <==> Fits(s, e)
  {
  }

  ghost predicate AlwaysCapped(events: seq<Event>) {
    forall i :: 0 <= i <= |events| ==> Capped(Run(events[..i]))
  }

  ghost predicate EachMergeFits(events: seq<Event>) {
    forall i :: 0 <= i < |events| ==> Fits(Run(events[..i]), events[i])
  }

  lemma PrefixStep(events: seq<Event>, i: nat)
    requires i < |events|
    ensures Run(events[..i + 1]) == Step(Run(events[..i]), events[i])
  {
    assert events[..i + 1][..i] == events[..i];
    hide Step;
  }

  lemma {:induction false} FitsKeepsCapped(events: seq<Event>, i: nat)
    requires EachMergeFits(events) && i <= |events|
    ensures Capped(Run(events[..i]))
  {
    if i > 0 {
      FitsKeepsCapped(events, i - 1);
      PrefixStep(events, i - 1);
      AlwaysHoldsArrivals(events[..i - 1]);
      hide Run, Capped, HoldsArrivals, Fits, Step;
      CappedStep(Run(events[..i - 1]), events[i - 1]);
    }
  }

  /**
   * The buffer of a run is never over the cap exactly if at the end of each pass the payloads put back and the failures
   * that arrived during the pass, evicted ones included, were at most 500 together.
   */
  lemma CapHoldsExactlyIf(events: seq<Event>)
    ensures AlwaysCapped(events) <==> EachMergeFits(events)
  {
    hide Run, Capped, Fits, HoldsArrivals, Step;
    if EachMergeFits(events) {
      forall i | 0 <= i <= |events| ensures Capped(Run(events[..i])) {
        FitsKeepsCapped(events, i);
      }
    }
    if AlwaysCapped(events) {
      forall i | 0 <= i < |events| ensures Fits(Run(events[..i]), events[i]) {
        assert Capped(Run(events[..i])) && Capped(Run(events[..i + 1]));
        PrefixStep(events, i);
        AlwaysHoldsArrivals(events[..i]);
        CappedStep(Run(events[..i]), events[i]);
      }
    }
  }

  lemma {:induction false} PushMore(events: seq<Event>, n: nat) returns (longer: seq<Event>)
    requires |Run(events).buf| + n <= MAX_FAILED_AGENT_PAYLOADS
    ensures var s, after := Run(events), Run(longer);
      |after.buf| == |s.buf| + n && after.phase == s.phase && after.passes == s.passes
  {
    longer := events;
    if n > 0 {
      hide Run;
      longer := PushMore(events, n - 1);
      RunStep(longer, Push("", [], 0));
      longer := longer + [Push("", [], 0)];
    }
  }

  /** The cap does not hold on managed instances: one payload put back without a session is enough. */
  lemma MergeExceedsTheCap() returns (events: seq<Event>)
    ensures |Run(events).buf| == MAX_FAILED_AGENT_PAYLOADS + 1
  {
    var full := PushMore([], MAX_FAILED_AGENT_PAYLOADS);
    assert Run([]).phase == Idle;
    hide Run;
    RunStep(full, Take);
    var more := PushMore(full + [Take], 1);
    RunStep(more, Session(false, 0));
    events := more + [Session(false, 0)];
  }

  /** For each number of passes there is a run that reaches the bound of `SizeGrowsByPasses`, which is thus exact. */
  lemma {:induction false} ReachesTheBound(passes: nat) returns (events: seq<Event>)
    ensures var s := Run(events);
      s.phase == Idle && s.passes == passes && |s.buf| == MAX_FAILED_AGENT_PAYLOADS * (passes + 1)
  {
    assert Run([]) == INITIAL;
    hide Run;
    if passes == 0 {
      events := PushMore([], MAX_FAILED_AGENT_PAYLOADS);
    } else {
      events := ReachesTheBound(passes - 1);
      RunStep(events, Take);
      events := PushMore(events + [Take], MAX_FAILED_AGENT_PAYLOADS);
      RunStep(events, Session(false, 0));
      events := events + [Session(false, 0)];
    }
  }

  // ---- The pass as code ------------------------------------------------------------------

  /** The answer to one send, and the failures that arrive while it is awaited. */
  datatype Sending = Sending(delivered: bool, arrivals: seq<Item>)

  predicate IsSent(item: Item, now: int) {
    AgeInHours(item, now) < 24 && item.retryCount < LMI_AGENT_RETRY_MAX
  }

  function Left(now: int): (Item, Sending) -> Option<Item> {
    (item: Item, sending: Sending) => if IsSent(item, now) && !sending.delivered then Some(Bumped(item)) else None
  }

  function PushedAll(buf: seq<Item>, items: seq<Item>): seq<Item> {
    if items == [] then buf
    else
      RetryStore.CappedPush(PushedAll(buf, items[..|items| - 1]), items[|items| - 1], MAX_FAILED_AGENT_PAYLOADS)
  }

  /** What arrives while the first `n` payloads are worked on; nothing arrives without a send. */
  function ArrivedDuring(items: seq<Item>, now: int, script: seq<Sending>, n: nat): seq<Item>
    requires n <= |items| <= |script|
  {
    if n == 0 then []
    else ArrivedDuring(items, now, script, n - 1) + if IsSent(items[n - 1], now) then script[n - 1].arrivals else []
  }

  lemma {:induction false} PushedAllConcat(buf: seq<Item>, a: seq<Item>, b: seq<Item>)
    ensures PushedAll(buf, a + b) == PushedAll(PushedAll(buf, a), b)
  {
    if b == [] {
      assert a + b == a;
    } else {
      assert (a + b)[..|a + b| - 1] == a + b[..|b| - 1];
      PushedAllConcat(buf, a, b[..|b| - 1]);
    }
  }

  method Receive(failed: FailedAgentPayloads, arrivals: seq<Item>)
    modifies failed
    ensures failed.buf == PushedAll(old(failed.buf), arrivals)
  {
    for i := 0 to |arrivals|
      invariant failed.buf == PushedAll(old(failed.buf), arrivals[..i])
    {
      assert arrivals[..i + 1][..i] == arrivals[..i];
      failed.PushCapped(arrivals[i]);
    }
    assert arrivals[..|arrivals|] == arrivals;
  }

  method SendAll(failed: FailedAgentPayloads, payloads: seq<Item>, now: int, script: seq<Sending>)
    returns (remaining: seq<Item>)
    requires |payloads| <= |script|
    modifies failed
    ensures remaining == RetryStore.Leftover(payloads, script, Left(now))
    ensures failed.buf == PushedAll(old(failed.buf), ArrivedDuring(payloads, now, script, |payloads|))
  {
    remaining := [];
    for i := 0 to |payloads|
      invariant remaining == RetryStore.Leftover(payloads[..i], script, Left(now))
      invariant failed.buf == PushedAll(old(failed.buf), ArrivedDuring(payloads, now, script, i))
    {
      assert payloads[..i + 1][..i] == payloads[..i];
      var item := payloads[i];
      ghost var before := ArrivedDuring(payloads, now, script, i);
      assert Left(now)(item, script[i]) ==
        if IsSent(item, now) && !script[i].delivered then Some(Bumped(item)) else None;
      if AgeInHours(item, now) >= 24 || item.retryCount >= LMI_AGENT_RETRY_MAX {
        assert before + [] == before;
      } else {
        Receive(failed, script[i].arrivals);
        PushedAllConcat(old(failed.buf), before, script[i].arrivals);
        if !script[i].delivered {
          remaining := remaining + [Bumped(item)];
        }
      }
    }
    assert payloads[..|payloads|] == payloads;
  }

  lemma IsSentExactlyIf(item: Item, now: int)
    ensures IsSent(item, now) <==> now - item.failedAt < 24 * 3_600_000 && item.retryCount < 10
  {
    MoreThanADay(item, now);
    hide AgeInHours;
  }

  /** The survivors are, in order, those young enough and tried fewer than ten times whose send failed. */
  lemma SurvivorsExactly(items: seq<Item>, now: int, script: seq<Sending>) returns (at: seq<nat>)
    requires |items| <= |script|
    ensures var left := RetryStore.Leftover(items, script, Left(now));
      && |at| == |left|
      && (forall i, j :: 0 <= i < j < |at| ==> at[i] < at[j])
      && (forall i :: 0 <= i < |at| ==> at[i] < |items| && left[i] == Bumped(items[at[i]]))
    ensures forall k :: 0 <= k < |items| ==>
      (k in at <==>
        now - items[k].failedAt < 24 * 3_600_000 && items[k].retryCount < 10 && !script[k].delivered)
  {
    hide RetryStore.Leftover, Bumped, IsSent;
    at := RetryStore.LeftoverIsASubsequence(items, script, Left(now));
    forall k | 0 <= k < |items|
      ensures Left(now)(items[k], script[k]).Some? <==>
        now - items[k].failedAt < 24 * 3_600_000 && items[k].retryCount < 10 && !script[k].delivered
    {
      IsSentExactlyIf(items[k], now);
    }
  }

  /** Failures arrive only while a payload is sent. */
  lemma ArrivesWhileSending(items: seq<Item>, now: int, script: seq<Sending>, n: nat)
    requires n < |items| <= |script|
    ensures ArrivedDuring(items, now, script, n + 1) == ArrivedDuring(items, now, script, n)
      + if now - items[n].failedAt < 24 * 3_600_000 && items[n].retryCount < 10 then script[n].arrivals else []
    ensures ArrivedDuring(items, now, script, 0) == []
  {
    hide IsSent;
    IsSentExactlyIf(items[n], now);
  }

  /** A buffer that was empty keeps the newest five hundred. */
  lemma {:induction false} PushedAllIsTheNewest(items: seq<Item>)
    ensures PushedAll([], items) == if |items| <= 500 then items else items[|items| - 500..]
  {
    if items != [] {
      var init, last := items[..|items| - 1], items[|items| - 1];
      PushedAllIsTheNewest(init);
      assert items == init + [last];
    }
  }

  /** `retry_lmi_failed_agent_payloads`; `waiting` arrives while the session is looked up. */
  method RetryPass(failed: FailedAgentPayloads, waiting: seq<Item>, connected: bool, now: int, script: seq<Sending>)
    returns (ghost at: seq<nat>)
    requires |failed.buf| <= |script|
    modifies failed
    ensures var taken := old(failed.buf);
      failed.buf ==
        if taken == [] then []
        else if !connected then taken + PushedAll([], waiting)
        else RetryStore.Leftover(taken, script, Left(now))
             + PushedAll(PushedAll([], waiting), ArrivedDuring(taken, now, script, |taken|))
    ensures var taken := old(failed.buf);
      taken != [] && connected ==>
        && (forall i, j :: 0 <= i < j < |at| ==> at[i] < at[j])
        && (forall k :: 0 <= k < |taken| ==>
          (k in at <==>
            now - taken[k].failedAt < 24 * 3_600_000 && taken[k].retryCount < 10 && !script[k].delivered))
        && |at| <= |failed.buf|
        && (forall i :: 0 <= i < |at| ==>
          at[i] < |taken| && failed.buf[i] == taken[at[i]].(retryCount := taken[at[i]].retryCount + 1))
        && var arrived := waiting + ArrivedDuring(taken, now, script, |taken|);
          failed.buf[|at|..] == if |arrived| <= 500 then arrived else arrived[|arrived| - 500..]
    ensures var taken := old(failed.buf);
      taken != [] && !connected ==>
        failed.buf == taken + if |waiting| <= 500 then waiting else waiting[|waiting| - 500..]
  {
    hide RetryStore.Leftover, PushedAll, ArrivedDuring;
    var payloads := failed.buf;
    at := [];
    if payloads == [] {
      return;
    }
    failed.buf := [];
    Receive(failed, waiting);
    PushedAllIsTheNewest(waiting);
    if !connected {
      failed.buf := payloads + failed.buf;
      return;
    }
    var remaining := SendAll(failed, payloads, now, script);
    ghost var arrivals := ArrivedDuring(payloads, now, script, |payloads|);
    PushedAllConcat([], waiting, arrivals);
    PushedAllIsTheNewest(waiting + arrivals);
    at := SurvivorsExactly(payloads, now, script);
    if remaining != [] {
      failed.buf := remaining + failed.buf;
    } else {
      assert remaining + failed.buf == failed.buf;
    }
    forall i | 0 <= i < |at|
      ensures at[i] < |payloads| && failed.buf[i] == payloads[at[i]].(retryCount := payloads[at[i]].retryCount + 1)
    {
      assert failed.buf[i] == remaining[i];
    }
  }

  lemma {:induction false} PushedAllSize(items: seq<Item>)
    ensures |PushedAll([], items)| == if |items| < MAX_FAILED_AGENT_PAYLOADS then |items| else MAX_FAILED_AGENT_PAYLOADS
  {
    if items != [] {
      PushedAllSize(items[..|items| - 1]);
    }
  }

  /** What `RetryPass` leaves is within the cap exactly if nothing is put back or it fits beside all that arrived. */
  lemma PassFitsExactlyIf(back: seq<Item>, waiting: seq<Item>, during: seq<Item>)
    ensures |back + PushedAll(PushedAll([], waiting), during)| <= MAX_FAILED_AGENT_PAYLOADS <==>
            back == [] || |back| + |waiting| + |during| <= MAX_FAILED_AGENT_PAYLOADS
  {
    PushedAllConcat([], waiting, during);
    PushedAllSize(waiting + during);
    hide PushedAll;
  }

  // ---- The machine's pass and the code's -------------------------------------------------

  function PushEach(s: State, items: seq<Item>): State {
    if items == [] then s else PushNew(PushEach(s, items[..|items| - 1]), items[|items| - 1])
  }

  /** One payload's turn: if it is sent, failures arrive before its answer does. */
  function Tried(s: State, sending: Sending): State {
    var next := Next(s);
    if next.phase.Running? && next.phase.sending.Some?
    then Answered(PushEach(next, sending.arrivals), sending.delivered)
    else next
  }

  function TriedFirst(s: State, script: seq<Sending>, n: nat): State
    requires n <= |script|
  {
    if n == 0 then s else Tried(TriedFirst(s, script, n - 1), script[n - 1])
  }

  lemma {:induction false} PushEachPushes(s: State, items: seq<Item>)
    ensures PushEach(s, items).phase == s.phase && PushEach(s, items).buf == PushedAll(s.buf, items)
  {
    if items != [] {
      PushEachPushes(s, items[..|items| - 1]);
    }
  }

  lemma TriedOne(s: State, sending: Sending)
    requires HasTurn(s)
    ensures var item, after := s.phase.todo[0], Tried(s, sending);
      var left := Left(s.phase.now)(item, sending);
      && after.phase == Running(s.phase.now, s.phase.remaining + (if left.Some? then [left.value] else []), None,
                                s.phase.todo[1..])
      && after.buf == PushedAll(s.buf, if IsSent(item, s.phase.now) then sending.arrivals else [])
  {
    hide AgeInHours, PushedAll, PushEach, Bumped;
    PushEachPushes(Next(s), sending.arrivals);
    NonePushed(s.buf);
    assert s.phase.remaining + [] == s.phase.remaining;
    assert Left(s.phase.now)(s.phase.todo[0], sending) ==
      if IsSent(s.phase.todo[0], s.phase.now) && !sending.delivered then Some(Bumped(s.phase.todo[0])) else None;
  }

  lemma NonePushed(buf: seq<Item>)
    ensures PushedAll(buf, []) == buf
  {
  }

  /** With only arrivals in between, the machine's pass leaves what the code's loop leaves. */
  lemma {:induction false} PassIsTheLoop(s: State, now: int, todo: seq<Item>, script: seq<Sending>, n: nat)
    requires s.phase == Running(now, [], None, todo) && n <= |todo| <= |script|
    ensures var after := TriedFirst(s, script, n);
      && after.phase == Running(now, RetryStore.Leftover(todo[..n], script, Left(now)), None, todo[n..])
      && after.buf == PushedAll(s.buf, ArrivedDuring(todo, now, script, n))
  {
    if n == 0 {
      NonePushed(s.buf);
      hide PushedAll, Left;
    } else {
      hide Tried, PushedAll, IsSent, Left, ArrivedDuring, RetryStore.Leftover;
      PassIsTheLoop(s, now, todo, script, n - 1);
      TriedOne(TriedFirst(s, script, n - 1), script[n - 1]);
      OneMoreTurn(s.buf, now, todo, script, n);
    }
  }

  lemma OneMoreTurn(buf: seq<Item>, now: int, todo: seq<Item>, script: seq<Sending>, n: nat)
    requires 0 < n <= |todo| <= |script|
    ensures var left := Left(now)(todo[n - 1], script[n - 1]);
      RetryStore.Leftover(todo[..n], script, Left(now))
      == RetryStore.Leftover(todo[..n - 1], script, Left(now)) + (if left.Some? then [left.value] else [])
    ensures PushedAll(buf, ArrivedDuring(todo, now, script, n))
      == PushedAll(PushedAll(buf, ArrivedDuring(todo, now, script, n - 1)),
                   if IsSent(todo[n - 1], now) then script[n - 1].arrivals else [])
  {
    hide PushedAll, IsSent, Left;
    assert todo[..n][..n - 1] == todo[..n - 1];
    PushedAllConcat(buf, ArrivedDuring(todo, now, script, n - 1),
                    if IsSent(todo[n - 1], now) then script[n - 1].arrivals else []);
  }

  /** The whole pass, with failures arriving at each wait, leaves what `RetryPass` leaves. */
  lemma WholePassIsTheMethod(s: State, waiting: seq<Item>, connected: bool, now: int, script: seq<Sending>)
    requires s.phase.Idle? && s.buf != [] && |s.buf| <= |script|
    ensures var begun := WithSession(PushEach(TakeAll(s), waiting), connected, now);
      var after := if connected then Finished(TriedFirst(begun, script, |s.buf|)) else begun;
      && after.phase == Idle
      && after.buf ==
        if !connected then s.buf + PushedAll([], waiting)
        else RetryStore.Leftover(s.buf, script, Left(now))
             + PushedAll(PushedAll([], waiting), ArrivedDuring(s.buf, now, script, |s.buf|))
  {
    hide PushEach, PushedAll, TriedFirst, ArrivedDuring, Left, RetryStore.Leftover;
    PushEachPushes(TakeAll(s), waiting);
    var begun := WithSession(PushEach(TakeAll(s), waiting), connected, now);
    if connected {
      PassIsTheLoop(begun, now, s.buf, script, |s.buf|);
      assert s.buf[..|s.buf|] == s.buf && s.buf[|s.buf|..] == [];
      assert [] + TriedFirst(begun, script, |s.buf|).buf == TriedFirst(begun, script, |s.buf|).buf;
    }
  }
}
