/** Retry passes over buffered telemetry under any interleaving (src/apm/telemetry_buffer.rs, src/apm/app.rs). */
module TelemetryRetry {
  import opened Types
  import opened Bags
  import opened Json
  import opened RetryStore
  import opened TelemetryBuffer

  /** What the agent handed over, the run under which it was first sent, and when that send failed. */
  datatype Original = Original(telemetryType: string, data: seq<Value>, runId: string, failedAt: int)

  /** One request body that went over the wire; `session` is what its pass read, if it was sent by a pass. */
  datatype Wire = Wire(serial: nat, session: Option<Session>, runId: string, form: seq<Value>)

  datatype Event =
    | Connect(live: Option<Session>)
    | FirstFailure(telemetryType: string, data: seq<Value>, requestId: string, session: Session, now: int)
    | BeginPass(pass: nat)
    | SendNext(pass: nat, now: int)
    | Reply(pass: nat, answer: Answer)
    | EndPass(pass: nat)

  datatype State = State(
    store: Store<Item>,
    live: Option<Session>,
    sessions: map<nat, Option<Session>>,
    // History: what was buffered, refusals per item, uncapped pushes since the last take, what was sent and lost.
    originals: seq<Original>,
    refusals: map<nat, nat>,
    uncapped: nat,
    wires: seq<Wire>,
    sent: multiset<nat>,
    lost: multiset<nat>)

  const INITIAL := State(Store([], map[]), None, map[], [], map[], 0, [], multiset{}, multiset{})

  function RefusalsOf(refusals: map<nat, nat>, n: nat): nat {
    if n in refusals then refusals[n] else 0
  }

  function WiresFor(item: Item, session: Option<Session>): seq<Wire> {
    [Wire(item.serial, session, RunFor(item, session), FormOf(item.telemetryType, RunFor(item, session), item.data))]
  }

  function PushedCapped(s: State, item: Item): State {
    s.(store := s.store.(buf := CappedPush(s.store.buf, item, MAX_BUFFERED_ITEMS)),
       lost := s.lost + multiset(Serials(Evicted(s.store.buf, MAX_BUFFERED_ITEMS), SerialOf)))
  }

  /**
   * A failed first send, of an agent's data or of synthesized errors; data of an unknown type is neither sent nor
   * buffered, and a send of no errors cannot fail.
   */
  function Buffered(s: State, telemetryType: string, data: seq<Value>, requestId: string, session: Session,
                    now: int): State
  {
    if !KnownType(telemetryType) || NothingToSend(telemetryType, data) then s
    else
      var item := Item(|s.originals|, telemetryType, data, requestId, session.runId, session.collectorHost, now, 0);
      PushedCapped(s, item).(
        originals := s.originals + [Original(telemetryType, data, session.runId, now)],
        wires := s.wires + WiresFor(item, None))
  }

  /** A pass reads the live session and takes the buffer. */
  function Begun(s: State, t: nat): State {
    if |s.store.buf| == 0 || t in s.store.passes then s
    else s.(store := Take(s.store, t), sessions := s.sessions[t := s.live], uncapped := 0)
  }

  function TryNext(s: State, t: nat, now: int): State {
    if !HasNext(s.store, t) || t !in s.sessions then s
    else
      var item := Head(s.store, t);
      if TooOld(item, now) || !KnownType(item.telemetryType) then
        s.(store := Skip(s.store, t), lost := s.lost + multiset{item.serial})
      else
        s.(store := Send(s.store, t, item), wires := s.wires + WiresFor(item, s.sessions[t]))
  }

  function Resolve(s: State, t: nat, answer: Answer): State {
    if !Awaits(s.store, t) then s
    else
      var item := Sent(s.store, t);
      var s := s.(store := Answered(s.store, t));
      match answer
      case Accepted => s.(sent := s.sent + multiset{item.serial})
      case Restart => PushedCapped(s, item)
      case Refused =>
        var again := Failed(item);
        var s := s.(refusals := s.refusals[item.serial := RefusalsOf(s.refusals, item.serial) + 1]);
        if again.retryCount < MAX_RETRIES then
          s.(store := s.store.(buf := s.store.buf + [again]), uncapped := s.uncapped + 1)
        else s.(lost := s.lost + multiset{item.serial})
  }

  function Step(s: State, e: Event): State {
    match e
    case Connect(live) => s.(live := live)
    case FirstFailure(telemetryType, data, requestId, session, now) =>
      Buffered(s, telemetryType, data, requestId, session, now)
    case BeginPass(t) => Begun(s, t)
    case SendNext(t, now) => TryNext(s, t, now)
    case Reply(t, answer) => Resolve(s, t, answer)
    case EndPass(t) => s.(store := Finish(s.store, t))
  }

  function Run(events: seq<Event>): State {
    if events == [] then INITIAL else Step(Run(events[..|events| - 1]), events[|events| - 1])
  }

  // ---- Each item is in one place ---------------------------------------------------------

  ghost function Places(s: State, n: nat): nat {
    Waiting(s.store, SerialOf, n) + s.sent[n] + s.lost[n]
  }

  ghost predicate InBooks(s: State, n: nat) {
    Places(s, n) == if n < |s.originals| then 1 else 0
  }

  lemma PushPlaces(s: State, item: Item, n: nat)
    ensures Places(PushedCapped(s, item), n) == Places(s, n) + One(item.serial, n)
  {
    hide Bag, Serials;
    CappedPushCount(s.store.buf, item, MAX_BUFFERED_ITEMS, SerialOf, n);
  }

  lemma AcceptedBooked(s: State, t: nat, n: nat)
    requires InBooks(s, n) && Awaits(s.store, t)
    ensures InBooks(Resolve(s, t, Accepted), n)
  {
    AnsweredWaits(s.store, t, SerialOf, n);
    hide Waiting;
  }

  lemma RestartBooked(s: State, t: nat, n: nat)
    requires InBooks(s, n) && Awaits(s.store, t)
    ensures InBooks(Resolve(s, t, Restart), n)
  {
    AnsweredWaits(s.store, t, SerialOf, n);
    var rest := s.(store := Answered(s.store, t));
    PushPlaces(rest, Sent(s.store, t), n);
    PushedKeeps(rest, Sent(s.store, t));
    hide Waiting, PushedCapped;
  }

  lemma RefusedBooked(s: State, t: nat, n: nat)
    requires InBooks(s, n) && Awaits(s.store, t)
    ensures InBooks(Resolve(s, t, Refused), n)
  {
    hide Waiting, PushedCapped, Answered, Failed;
    var item, rest := Sent(s.store, t), Answered(s.store, t);
    AnsweredWaits(s.store, t, SerialOf, n);
    UncappedPlaces(rest, Failed(item), n);
    assert Failed(item).serial == item.serial by { FailedKeepsSerial(item); }
    hide Sent;
  }

  lemma FailedKeepsSerial(item: Item)
    ensures Failed(item).serial == item.serial
  {
  }

  lemma ResolveBooked(s: State, t: nat, answer: Answer, n: nat)
    requires InBooks(s, n)
    ensures InBooks(Resolve(s, t, answer), n)
  {
    if Awaits(s.store, t) {
      hide Resolve, InBooks;
      match answer
      case Accepted => AcceptedBooked(s, t, n);
      case Restart => RestartBooked(s, t, n);
      case Refused => RefusedBooked(s, t, n);
    }
  }

  lemma UncappedPlaces(store: Store<Item>, item: Item, n: nat)
    ensures Waiting(store.(buf := store.buf + [item]), SerialOf, n) == Waiting(store, SerialOf, n) + One(item.serial, n)
  {
    hide Bag, Serials;
    SerialsOfPush(store.buf, item, SerialOf, n);
  }

  lemma TryBooked(s: State, t: nat, now: int, n: nat)
    requires InBooks(s, n)
    ensures InBooks(TryNext(s, t, now), n)
  {
    hide Waiting, TooOld, KnownType, WiresFor;
    if HasNext(s.store, t) {
      SkipWaits(s.store, t, SerialOf, n);
      SendWaits(s.store, t, Head(s.store, t), SerialOf, n);
    }
  }

  lemma StepBooked(s: State, e: Event, n: nat)
    requires InBooks(s, n)
    ensures InBooks(Step(s, e), n)
  {
    hide Waiting, TryNext, Resolve, PushedCapped, KnownType, WiresFor, Take, Finish;
    match e
    case Connect(_) =>
    case FirstFailure(telemetryType, data, requestId, session, now) =>
      PushPlaces(s, Item(|s.originals|, telemetryType, data, requestId, session.runId, session.collectorHost, now, 0),
                 n);
      PushedKeeps(s, Item(|s.originals|, telemetryType, data, requestId, session.runId, session.collectorHost, now, 0));
    case BeginPass(t) => TakeWaits(s.store, t, SerialOf, n);
    case SendNext(t, now) => TryBooked(s, t, now, n);
    case Reply(t, answer) => ResolveBooked(s, t, answer, n);
    case EndPass(t) => FinishWaits(s.store, t, SerialOf, n);
  }

  lemma PushedKeeps(s: State, item: Item)
    ensures var after := PushedCapped(s, item);
      after.originals == s.originals && after.sent == s.sent && after.wires == s.wires && after.refusals == s.refusals
  {
  }

  /** Every item ever buffered waits in one place, was sent once, or was lost once. */
  lemma {:induction false} EveryItemIsBooked(events: seq<Event>, n: nat)
    ensures InBooks(Run(events), n)
  {
    if events == [] {
      NoSerials(SerialOf, n);
    } else {
      EveryItemIsBooked(events[..|events| - 1], n);
      StepBooked(Run(events[..|events| - 1]), events[|events| - 1], n);
    }
  }

  // ---- What every waiting item still is --------------------------------------------------

  /** The item carries the data it was buffered with and has been refused as often as it says, less than ten times. */
  function Intact(originals: seq<Original>, refusals: map<nat, nat>): Item -> bool {
    (item: Item) =>
      && item.serial < |originals|
      && originals[item.serial] == Original(item.telemetryType, item.data, item.runId, item.failedAt)
      && KnownType(item.telemetryType) && !NothingToSend(item.telemetryType, item.data)
      && item.retryCount == RefusalsOf(refusals, item.serial) < MAX_RETRIES
  }

  predicate WireTrue(wire: Wire, originals: seq<Original>) {
    && wire.serial < |originals|
    && !NothingToSend(originals[wire.serial].telemetryType, originals[wire.serial].data)
    && wire.form == FormOf(originals[wire.serial].telemetryType, wire.runId, originals[wire.serial].data)
    && wire.runId == if wire.session.Some? then wire.session.value.runId else originals[wire.serial].runId
  }

  ghost predicate Faithful(s: State) {
    && Every(s.store, Intact(s.originals, s.refusals))
    && (forall n <- s.refusals :: n < |s.originals| && s.refusals[n] <= MAX_RETRIES)
    && (forall i :: 0 <= i < |s.wires| ==> WireTrue(s.wires[i], s.originals))
    && (forall t <- s.store.passes :: t in s.sessions)
    && |s.store.buf| <= MAX_BUFFERED_ITEMS + s.uncapped
  }

  lemma WiresForTrue(item: Item, session: Option<Session>, originals: seq<Original>)
    requires item.serial < |originals|
    requires originals[item.serial] == Original(item.telemetryType, item.data, item.runId, item.failedAt)
    requires !NothingToSend(item.telemetryType, item.data)
    ensures forall i :: 0 <= i < |WiresFor(item, session)| ==> WireTrue(WiresFor(item, session)[i], originals)
  {
  }

  lemma IntactExtends(originals: seq<Original>, more: Original, refusals: map<nat, nat>, item: Item)
    requires Intact(originals, refusals)(item)
    ensures Intact(originals + [more], refusals)(item)
  {
  }

  lemma FirstFailureFaithful(s: State, telemetryType: string, data: seq<Value>, requestId: string, session: Session,
                             now: int)
    requires Faithful(s)
    ensures Faithful(Buffered(s, telemetryType, data, requestId, session, now))
  {
    if KnownType(telemetryType) && !NothingToSend(telemetryType, data) {
      var original := Original(telemetryType, data, session.runId, now);
      var originals := s.originals + [original];
      var item := Item(|s.originals|, telemetryType, data, requestId, session.runId, session.collectorHost, now, 0);
      var p, q := Intact(s.originals, s.refusals), Intact(originals, s.refusals);
      forall x | p(x) ensures q(x) {
        IntactExtends(s.originals, original, s.refusals, x);
      }
      assert q(item);
      WiresForTrue(item, None, originals);
      forall i | 0 <= i < |s.wires| ensures WireTrue(s.wires[i], originals) {
      }
      hide Intact, KnownType, WiresFor, WireTrue, Serials;
      EveryImplies(s.store, p, q);
      PushKeepsEvery(s.store, item, MAX_BUFFERED_ITEMS, q);
    }
  }

  lemma TryFaithful(s: State, t: nat, now: int)
    requires Faithful(s)
    ensures Faithful(TryNext(s, t, now))
  {
    var p := Intact(s.originals, s.refusals);
    MovesKeepEvery(s.store, t, p);
    if HasNext(s.store, t) && t in s.sessions {
      var item := Head(s.store, t);
      assert p(item);
      WiresForTrue(item, s.sessions[t], s.originals);
      SendKeepsEvery(s.store, t, item, p);
      hide Intact, KnownType, WiresFor, WireTrue, TooOld, Every;
    }
  }

  /** A refusal of one item leaves what is known of the others as it is. */
  lemma RefusalElsewhere(originals: seq<Original>, refusals: map<nat, nat>, n: nat, count: nat, x: Item)
    requires Intact(originals, refusals)(x) && x.serial != n
    ensures Intact(originals, refusals[n := count])(x)
  {
    hide KnownType;
  }

  lemma OthersStayIntact(originals: seq<Original>, refusals: map<nat, nat>, n: nat, count: nat)
    ensures forall x: Item :: Intact(originals, refusals)(x) && x.serial != n ==>
      Intact(originals, refusals[n := count])(x)
  {
    forall x: Item | Intact(originals, refusals)(x) && x.serial != n ensures Intact(originals, refusals[n := count])(x)
    {
      RefusalElsewhere(originals, refusals, n, count, x);
    }
    hide Intact;
  }

  lemma RefusedStaysIntact(originals: seq<Original>, refusals: map<nat, nat>, item: Item)
    requires Intact(originals, refusals)(item)
    ensures var more := refusals[item.serial := RefusalsOf(refusals, item.serial) + 1];
      && more[item.serial] <= MAX_RETRIES && item.serial < |originals|
      && (item.retryCount + 1 < MAX_RETRIES ==> Intact(originals, more)(Failed(item)))
  {
    hide KnownType;
  }

  lemma SerialIs(item: Item)
    ensures SerialOf(item) == item.serial
  {
  }

  /** A refusal is counted in the item and in the history alike; no other item has the same number. */
  lemma RefusalKeepsItems(store: Store<Item>, originals: seq<Original>, refusals: map<nat, nat>, t: nat)
    requires Awaits(store, t) && Waiting(store, SerialOf, Sent(store, t).serial) <= 1
    requires Every(store, Intact(originals, refusals))
    ensures var item := Sent(store, t);
      var more := refusals[item.serial := RefusalsOf(refusals, item.serial) + 1];
      && Every(Answered(store, t), Intact(originals, more))
      && more[item.serial] <= MAX_RETRIES && item.serial < |originals|
      && (item.retryCount + 1 < MAX_RETRIES ==> Intact(originals, more)(Failed(item)))
  {
    var item := Sent(store, t);
    var p := Intact(originals, refusals);
    hide *;
    SerialIs(item);
    MovesKeepEvery(store, t, p);
    RefusedStaysIntact(originals, refusals, item);
    var more := refusals[item.serial := RefusalsOf(refusals, item.serial) + 1];
    OthersStayIntact(originals, refusals, item.serial, RefusalsOf(refusals, item.serial) + 1);
    AnsweredWaits(store, t, SerialOf, item.serial);
    EveryOther(Answered(store, t), SerialOf, item.serial, p, Intact(originals, more));
  }

  lemma RefusalFaithful(s: State, t: nat)
    requires Faithful(s) && Awaits(s.store, t) && Waiting(s.store, SerialOf, Sent(s.store, t).serial) <= 1
    ensures Faithful(Resolve(s, t, Refused))
  {
    hide Intact, WireTrue, Waiting, Every;
    var item := Sent(s.store, t);
    RefusalKeepsItems(s.store, s.originals, s.refusals, t);
    var q := Intact(s.originals, s.refusals[item.serial := RefusalsOf(s.refusals, item.serial) + 1]);
    if item.retryCount + 1 < MAX_RETRIES {
      PushKeepsEvery(Answered(s.store, t), Failed(item), MAX_BUFFERED_ITEMS, q);
    }
  }

  lemma OtherRepliesFaithful(s: State, t: nat, answer: Answer)
    requires Faithful(s) && !answer.Refused?
    ensures Faithful(Resolve(s, t, answer))
  {
    if Awaits(s.store, t) {
      var p := Intact(s.originals, s.refusals);
      MovesKeepEvery(s.store, t, p);
      PushKeepsEvery(Answered(s.store, t), Sent(s.store, t), MAX_BUFFERED_ITEMS, p);
      hide Intact, WireTrue, Serials, Every;
    }
  }

  lemma MovesFaithful(s: State, t: nat)
    requires Faithful(s)
    ensures Faithful(Begun(s, t)) && Faithful(s.(store := Finish(s.store, t)))
  {
    MovesKeepEvery(s.store, t, Intact(s.originals, s.refusals));
    hide Intact, WireTrue, Every;
  }

  lemma StepFaithful(s: State, e: Event)
    requires Faithful(s)
    requires e.Reply? && Awaits(s.store, e.pass) ==> InBooks(s, Sent(s.store, e.pass).serial)
    ensures Faithful(Step(s, e))
  {
    hide Buffered, Begun, TryNext, Resolve, Finish, Every, Intact, WireTrue;
    match e
    case Connect(_) =>
    case FirstFailure(telemetryType, data, requestId, session, now) =>
      FirstFailureFaithful(s, telemetryType, data, requestId, session, now);
    case BeginPass(t) => MovesFaithful(s, t);
    case SendNext(t, now) => TryFaithful(s, t, now);
    case Reply(t, answer) =>
      if answer.Refused? && Awaits(s.store, t) {
        RefusalFaithful(s, t);
      } else if answer.Refused? {
        NoReply(s, t, answer);
      } else {
        OtherRepliesFaithful(s, t, answer);
      }
    case EndPass(t) => MovesFaithful(s, t);
  }

  lemma NoReply(s: State, t: nat, answer: Answer)
    requires !Awaits(s.store, t)
    ensures Resolve(s, t, answer) == s
  {
  }

  /**
   * Every reachable state: a waiting item has its original data and run, has been refused fewer than ten times, and
   * counts its refusals only; nothing was refused more than ten times; the buffer exceeds its cap by at most the
   * uncapped pushes since the last take; and every body that went over the wire is the original data under the run
   * of its pass's session, or of the first send when its pass had none.
   */
  lemma {:induction false} AlwaysFaithful(events: seq<Event>)
    ensures Faithful(Run(events))
  {
    if events != [] {
      var s, e := Run(events[..|events| - 1]), events[|events| - 1];
      AlwaysFaithful(events[..|events| - 1]);
      if e.Reply? && Awaits(s.store, e.pass) {
        EveryItemIsBooked(events[..|events| - 1], Sent(s.store, e.pass).serial);
      }
      hide Faithful, InBooks, Step;
      StepFaithful(s, e);
    }
  }

  /** The body of a request is the original data, with the run id of its session in front, once. */
  ghost predicate SaysRunIdOnce(wire: Wire, original: Original) {
    && wire.runId == (if wire.session.Some? then wire.session.value.runId else original.runId)
    && wire.form ==
      if original.telemetryType == "__synthesized_error_event_data" then
        [ Text(wire.runId),
          Object(map["events_seen" := Number(|original.data|), "reservoir_size" := Number(100)]),
          List(original.data) ]
      else if original.data == [] then []
      else if original.data[0] == Null || original.data[0] == Text("") then original.data[0 := Text(wire.runId)]
      else [Text(wire.runId)] + original.data
  }

  lemma TrueWireSaysRunIdOnce(wire: Wire, originals: seq<Original>)
    requires WireTrue(wire, originals)
    ensures SaysRunIdOnce(wire, originals[wire.serial])
  {
    var original := originals[wire.serial];
    FormIsRunIdAndContent(original.telemetryType, wire.runId, original.data);
    hide FormOf;
  }

  /**
   * What that says about one buffered item and one wire body: counts below ten, and the run id in front exactly once,
   * in place of a placeholder if the data has one.
   */
  lemma BufferedAndSentAreFaithful(events: seq<Event>)
    ensures var s := Run(events);
      && (forall item <- s.store.buf :: item.retryCount < 10)
      && (forall n <- s.refusals :: s.refusals[n] <= 10)
      && |s.store.buf| <= 500 + s.uncapped
      && forall w <- s.wires :: w.serial < |s.originals| && SaysRunIdOnce(w, s.originals[w.serial])
  {
    AlwaysFaithful(events);
    hide Run, SaysRunIdOnce, FormOf;
    var s := Run(events);
    forall item | item in s.store.buf ensures item.retryCount < 10 {
      assert Intact(s.originals, s.refusals)(item);
    }
    forall w | w in s.wires ensures w.serial < |s.originals| && SaysRunIdOnce(w, s.originals[w.serial]) {
      var i :| 0 <= i < |s.wires| && s.wires[i] == w;
      assert WireTrue(s.wires[i], s.originals);
      TrueWireSaysRunIdOnce(w, s.originals);
    }
  }

  // ---- What is sent, and what is put back ------------------------------------------------

  lemma LastStep(events: seq<Event>)
    requires events != []
    ensures Run(events) == Step(Run(events[..|events| - 1]), events[|events| - 1])
  {
  }

  lemma StepKeepsOriginals(s: State, e: Event)
    ensures s.originals <= Step(s, e).originals
  {
    hide Serials, KnownType, WiresFor, TooOld, Take, Finish, Skip, Send, CappedPush, Evicted;
  }

  lemma FailureIsOriginal(s: State, e: Event)
    requires e.FirstFailure? && KnownType(e.telemetryType) && !NothingToSend(e.telemetryType, e.data)
    ensures Step(s, e).originals == s.originals + [Original(e.telemetryType, e.data, e.session.runId, e.now)]
  {
    hide PushedCapped, KnownType, WiresFor;
  }

  /** The history keeps what each first failure handed over, and the clock of that event. */
  lemma {:induction false} OriginalIsTheFailure(events: seq<Event>, i: nat)
    requires i < |events| && events[i].FirstFailure? && KnownType(events[i].telemetryType)
    requires !(events[i].telemetryType == "__synthesized_error_event_data" && events[i].data == [])
    ensures var n, e := |Run(events[..i]).originals|, events[i];
      && n < |Run(events).originals|
      && Run(events).originals[n] == Original(e.telemetryType, e.data, e.session.runId, e.now)
  {
    hide Run, Step, KnownType;
    var init := events[..|events| - 1];
    LastStep(events);
    if i < |init| {
      assert init[..i] == events[..i];
      OriginalIsTheFailure(init, i);
      StepKeepsOriginals(Run(init), events[|init|]);
    } else {
      assert init == events[..i];
      FailureIsOriginal(Run(init), events[i]);
    }
  }

  lemma OneMoreEvent(events: seq<Event>, e: Event)
    ensures Run(events + [e]) == Step(Run(events), e)
  {
    LastStep(events + [e]);
    hide Run, Step;
    assert (events + [e])[..|events|] == events;
  }

  lemma HeadIntact(s: State, t: nat)
    requires Faithful(s) && HasNext(s.store, t)
    ensures t in s.sessions && Intact(s.originals, s.refusals)(Head(s.store, t))
  {
    MovesKeepEvery(s.store, t, Intact(s.originals, s.refusals));
  }

  lemma TryExactlyIfYoung(s: State, t: nat, now: int)
    requires HasNext(s.store, t) && t in s.sessions && Intact(s.originals, s.refusals)(Head(s.store, t))
    ensures var item, after := Head(s.store, t), TryNext(s, t, now);
      && item.serial < |s.originals|
      && var failedAt := s.originals[item.serial].failedAt;
      && after.store.buf == s.store.buf && t in after.store.passes
      && (now - failedAt < 61 * 60_000 ==>
        && after.store.passes[t].sending == Some(item) && after.lost == s.lost
        && s.wires <= after.wires && |after.wires| == |s.wires| + 1
        && after.wires[|s.wires|].serial == item.serial && after.wires[|s.wires|].session == s.sessions[t])
      && (now - failedAt >= 61 * 60_000 ==>
        && after.store.passes[t].sending == None && after.lost == s.lost + multiset{item.serial}
        && after.wires == s.wires)
  {
    SentExactlyIf(Head(s.store, t), now);
    hide TooOld, KnownType, FormOf;
  }

  /**
   * In every run, the next item of a pass is sent, under the session that its pass read, exactly if its first send
   * failed less than 61 minutes before the clock that the pass reads. Otherwise it is lost unsent.
   */
  lemma SentExactlyIfYoung(events: seq<Event>, t: nat, now: int)
    requires var passes := Run(events).store.passes;
      t in passes && passes[t].sending.None? && passes[t].todo != []
    ensures var s, after := Run(events), Run(events + [SendNext(t, now)]);
      var item := s.store.passes[t].todo[0];
      && t in s.sessions && t in after.store.passes && item.serial < |s.originals|
      && var failedAt := s.originals[item.serial].failedAt;
      && (now - failedAt < 61 * 60_000 ==>
        && after.store.passes[t].sending == Some(item) && after.lost == s.lost
        && s.wires <= after.wires && |after.wires| == |s.wires| + 1
        && after.wires[|s.wires|].serial == item.serial && after.wires[|s.wires|].session == s.sessions[t])
      && (now - failedAt >= 61 * 60_000 ==>
        && after.store.passes[t].sending == None && after.lost == s.lost + multiset{item.serial}
        && after.wires == s.wires)
  {
    hide Run, TryNext, Faithful, Intact;
    OneMoreEvent(events, SendNext(t, now));
    AlwaysFaithful(events);
    HeadIntact(Run(events), t);
    TryExactlyIfYoung(Run(events), t, now);
  }

  lemma SentIntact(s: State, t: nat)
    requires Faithful(s) && Awaits(s.store, t)
    ensures Intact(s.originals, s.refusals)(Sent(s.store, t))
  {
    MovesKeepEvery(s.store, t, Intact(s.originals, s.refusals));
  }

  lemma ResolveExactly(s: State, t: nat, answer: Answer)
    requires Awaits(s.store, t) && Intact(s.originals, s.refusals)(Sent(s.store, t))
    ensures var item, after := Sent(s.store, t), Resolve(s, t, answer);
      var refused := if item.serial in s.refusals then s.refusals[item.serial] else 0;
      match answer
      case Accepted =>
        after.store.buf == s.store.buf && after.sent == s.sent + multiset{item.serial} && after.lost == s.lost
      case Restart =>
        && after.store.buf == (if |s.store.buf| >= 500 then s.store.buf[1..] else s.store.buf) + [item]
        && after.sent == s.sent && after.refusals == s.refusals
      case Refused =>
        && after.refusals == s.refusals[item.serial := refused + 1] && after.sent == s.sent
        && if refused + 1 < 10 then
             after.store.buf == s.store.buf + [item.(retryCount := refused + 1)] && after.lost == s.lost
           else after.store.buf == s.store.buf && after.lost == s.lost + multiset{item.serial}
  {
    hide KnownType, Serials;
  }

  /**
   * In every run, a restart puts the item back as it was, evicting the oldest of a full buffer, and any other failure
   * puts it back exactly if it was refused fewer than nine times before.
   */
  lemma PutBackExactlyIf(events: seq<Event>, t: nat, answer: Answer)
    requires t in Run(events).store.passes && Run(events).store.passes[t].sending.Some?
    ensures var s, after := Run(events), Run(events + [Reply(t, answer)]);
      var item := s.store.passes[t].sending.value;
      var refused := if item.serial in s.refusals then s.refusals[item.serial] else 0;
      match answer
      case Accepted =>
        after.store.buf == s.store.buf && after.sent == s.sent + multiset{item.serial} && after.lost == s.lost
      case Restart =>
        && after.store.buf == (if |s.store.buf| >= 500 then s.store.buf[1..] else s.store.buf) + [item]
        && after.sent == s.sent && after.refusals == s.refusals
      case Refused =>
        && after.refusals == s.refusals[item.serial := refused + 1] && after.sent == s.sent
        && if refused + 1 < 10 then
             after.store.buf == s.store.buf + [item.(retryCount := refused + 1)] && after.lost == s.lost
           else after.store.buf == s.store.buf && after.lost == s.lost + multiset{item.serial}
  {
    hide Run, Resolve, Faithful, Intact;
    OneMoreEvent(events, Reply(t, answer));
    AlwaysFaithful(events);
    SentIntact(Run(events), t);
    ResolveExactly(Run(events), t, answer);
  }
}
