/** Retry passes, pushes and purges of failed agent payloads in Normal mode, in any interleaving (src/event_loop.rs). */
module NormalRetry {
  import opened Types
  import opened Bags
  import opened RetryStore
  import opened FailedPayloads

  datatype Event =
    | Push(requestId: string, bytes: seq<Byte>, now: int)
    | BeginPass(pass: nat)
    | SendNext(pass: nat, now: int)
    | Answer(pass: nat, delivered: bool)
    | EndPass(pass: nat)
    | Purge(now: int)

  datatype State = State(
    store: Store<Item>,
    accepted: nat,
    dropped: nat,
    // History: when each payload failed, and the payloads that left, by the way they left.
    failedAt: map<nat, int>,
    sent: multiset<nat>,
    evicted: multiset<nat>,
    aged: multiset<nat>,
    purged: multiset<nat>)

  const INITIAL := State(Store([], map[]), 0, 0, map[], multiset{}, multiset{}, multiset{}, multiset{})

  /** Every push goes through the capped one, which counts what it evicts. */
  function Pushed(s: State, item: Item): State {
    var evicted := Evicted(s.store.buf, MAX_FAILED_AGENT_PAYLOADS);
    s.(store := s.store.(buf := CappedPush(s.store.buf, item, MAX_FAILED_AGENT_PAYLOADS)),
       dropped := s.dropped + |evicted|,
       evicted := s.evicted + multiset(Serials(evicted, SerialOf)))
  }

  /** The head of the pass is counted as one more try, then dropped for its age or sent. */
  function TryNext(s: State, t: nat, now: int): State {
    if !HasNext(s.store, t) then s
    else
      var item := Bumped(Head(s.store, t));
      if TooOld(item, now) then
        s.(store := Skip(s.store, t), dropped := s.dropped + 1, aged := s.aged + multiset{item.serial})
      else s.(store := Send(s.store, t, item))
  }

  /** A failed send and a missing connection both put the payload back. */
  function Resolve(s: State, t: nat, delivered: bool): State {
    if !Awaits(s.store, t) then s
    else
      var item := Sent(s.store, t);
      var s := s.(store := Answered(s.store, t));
      if delivered then s.(sent := s.sent + multiset{item.serial}) else Pushed(s, item)
  }

  function Purged(s: State, now: int): State {
    s.(store := s.store.(buf := Recent(s.store.buf, now)),
       purged := s.purged + multiset(Serials(Expired(s.store.buf, now), SerialOf)))
  }

  function Step(s: State, e: Event): State {
    match e
    case Push(requestId, bytes, now) =>
      Pushed(s, Item(s.accepted, requestId, bytes, 0, now))
      .(accepted := s.accepted + 1, failedAt := s.failedAt[s.accepted := now])
    case BeginPass(t) => s.(store := Take(s.store, t))
    case SendNext(t, now) => TryNext(s, t, now)
    case Answer(t, delivered) => Resolve(s, t, delivered)
    case EndPass(t) => s.(store := Finish(s.store, t))
    case Purge(now) => Purged(s, now)
  }

  function Run(events: seq<Event>): State {
    if events == [] then INITIAL else Step(Run(events[..|events| - 1]), events[|events| - 1])
  }

  // ---- The ledger ------------------------------------------------------------------------

  /** How often payload `n` is anywhere: buffered, in a pass, sent, dropped and counted, or purged. */
  ghost function Places(s: State, n: nat): nat {
    Waiting(s.store, SerialOf, n) + s.sent[n] + s.evicted[n] + s.aged[n] + s.purged[n]
  }

  ghost predicate Counted(s: State) {
    s.dropped == |s.evicted| + |s.aged| && |s.store.buf| <= MAX_FAILED_AGENT_PAYLOADS
  }

  ghost predicate InBooks(s: State, n: nat) {
    Places(s, n) == (if n < s.accepted then 1 else 0) && Counted(s)
  }

  lemma PushBooked(s: State, item: Item, n: nat)
    requires Counted(s)
    ensures Places(Pushed(s, item), n) == Places(s, n) + One(item.serial, n) && Counted(Pushed(s, item))
  {
    hide Bag, Serials;
    CappedPushCount(s.store.buf, item, MAX_FAILED_AGENT_PAYLOADS, SerialOf, n);
    assert |multiset(Serials(Evicted(s.store.buf, MAX_FAILED_AGENT_PAYLOADS), SerialOf))|
      == |Evicted(s.store.buf, MAX_FAILED_AGENT_PAYLOADS)|;
  }

  lemma {:induction false} PurgeCount(items: seq<Item>, now: int, n: nat)
    ensures multiset(Serials(Recent(items, now), SerialOf))[n] + multiset(Serials(Expired(items, now), SerialOf))[n]
            == multiset(Serials(items, SerialOf))[n]
    ensures |Recent(items, now)| <= |items|
  {
    hide Serials;
    if items == [] {
      NoSerials(SerialOf, n);
    } else {
      var init, last := items[..|items| - 1], items[|items| - 1];
      assert items == init + [last];
      PurgeCount(init, now, n);
      SerialsOfPush(init, last, SerialOf, n);
      SerialsOfPush(Recent(init, now), last, SerialOf, n);
      SerialsOfPush(Expired(init, now), last, SerialOf, n);
    }
  }

  lemma NextBooked(s: State, t: nat, now: int, n: nat)
    requires InBooks(s, n)
    ensures InBooks(TryNext(s, t, now), n)
  {
    hide Waiting, TooOld;
    if HasNext(s.store, t) {
      SkipWaits(s.store, t, SerialOf, n);
      SendWaits(s.store, t, Bumped(Head(s.store, t)), SerialOf, n);
    }
  }

  lemma ResolveBooked(s: State, t: nat, delivered: bool, n: nat)
    requires InBooks(s, n)
    ensures InBooks(Resolve(s, t, delivered), n)
  {
    hide Waiting, CappedPush, Evicted, Serials;
    if Awaits(s.store, t) {
      AnsweredWaits(s.store, t, SerialOf, n);
      PushBooked(s.(store := Answered(s.store, t)), Sent(s.store, t), n);
    }
  }

  lemma PurgeBooked(s: State, now: int, n: nat)
    requires InBooks(s, n)
    ensures InBooks(Purged(s, now), n)
  {
    hide Bag, Serials;
    PurgeCount(s.store.buf, now, n);
  }

  lemma MovesBooked(s: State, t: nat, n: nat)
    requires InBooks(s, n)
    ensures InBooks(s.(store := Take(s.store, t)), n) && InBooks(s.(store := Finish(s.store, t)), n)
  {
    hide Waiting;
    TakeWaits(s.store, t, SerialOf, n);
    FinishWaits(s.store, t, SerialOf, n);
  }

  lemma StepBooked(s: State, e: Event, n: nat)
    requires InBooks(s, n)
    ensures InBooks(Step(s, e), n)
  {
    hide Pushed, TryNext, Resolve, Purged, Take, Finish, Waiting;
    match e
    case Push(requestId, bytes, now) =>
      PushBooked(s, Item(s.accepted, requestId, bytes, 0, now), n);
    case BeginPass(t) => MovesBooked(s, t, n);
    case SendNext(t, now) => NextBooked(s, t, now, n);
    case Answer(t, delivered) => ResolveBooked(s, t, delivered, n);
    case EndPass(t) => MovesBooked(s, t, n);
    case Purge(now) => PurgeBooked(s, now, n);
  }

  /**
   * Over every interleaving of pushes, retry passes and purges, each accepted payload is in exactly one place, the
   * drop counter counts exactly the dropped ones, and the buffer never exceeds its cap.
   */
  lemma {:induction false} EveryPayloadIsBooked(events: seq<Event>, n: nat)
    ensures InBooks(Run(events), n)
  {
    if events == [] {
      NoSerials(SerialOf, n);
    } else {
      EveryPayloadIsBooked(events[..|events| - 1], n);
      StepBooked(Run(events[..|events| - 1]), events[|events| - 1], n);
    }
  }

  function UpTo(n: nat): seq<nat> {
    seq(n, i => i)
  }

  lemma {:induction false} UpToCount(n: nat, k: nat)
    ensures multiset(UpTo(n))[k] == if k < n then 1 else 0
  {
    if n > 0 {
      UpToCount(n - 1, k);
      assert UpTo(n) == UpTo(n - 1) + [n - 1];
    }
  }

  /** The same as an equation between totals. */
  lemma TotalsBalance(events: seq<Event>)
    ensures var s := Run(events);
      && s.accepted == |s.store.buf| + |Bag(s.store.passes, Owned(SerialOf))| + |s.sent| + s.dropped + |s.purged|
      && |s.store.buf| <= 500
  {
    hide Run, Bag, Serials;
    var s := Run(events);
    var all := multiset(Serials(s.store.buf, SerialOf)) + Bag(s.store.passes, Owned(SerialOf)) + s.sent
      + s.evicted + s.aged + s.purged;
    forall n: nat ensures all[n] == multiset(UpTo(s.accepted))[n] {
      EveryPayloadIsBooked(events, n);
      UpToCount(s.accepted, n);
    }
    assert all == multiset(UpTo(s.accepted));
    EveryPayloadIsBooked(events, 0);
    assert |multiset(Serials(s.store.buf, SerialOf))| == |s.store.buf|;
  }

  // ---- The age limit ---------------------------------------------------------------------

  /** A buffered payload, or one in a pass, still says when it failed. */
  ghost predicate Dated(s: State, item: Item) {
    item.serial < s.accepted && item.serial in s.failedAt && item.failedAt == s.failedAt[item.serial]
  }

  ghost predicate AllDated(s: State) {
    Every(s.store, (item: Item) => Dated(s, item)) && forall n <- s.failedAt :: n < s.accepted
  }

  lemma PushDated(s: State, requestId: string, bytes: seq<Byte>, now: int)
    requires AllDated(s)
    ensures AllDated(Step(s, Push(requestId, bytes, now)))
  {
    hide Serials, CappedPush, Evicted;
    var after := Step(s, Push(requestId, bytes, now));
    var item := Item(s.accepted, requestId, bytes, 0, now);
    EveryImplies(s.store, (x: Item) => Dated(s, x), (x: Item) => Dated(after, x));
    PushKeepsEvery(s.store, item, MAX_FAILED_AGENT_PAYLOADS, (x: Item) => Dated(after, x));
  }

  lemma NextDated(s: State, t: nat, now: int)
    requires AllDated(s)
    ensures AllDated(TryNext(s, t, now))
  {
    hide TooOld;
    MovesKeepEvery(s.store, t, (x: Item) => Dated(s, x));
    if HasNext(s.store, t) {
      SendKeepsEvery(s.store, t, Bumped(Head(s.store, t)), (x: Item) => Dated(s, x));
    }
    hide Every, Skip, Send;
    EveryImplies(TryNext(s, t, now).store, (x: Item) => Dated(s, x), (x: Item) => Dated(TryNext(s, t, now), x));
  }

  lemma AnswerDated(s: State, t: nat, delivered: bool)
    requires AllDated(s)
    ensures AllDated(Resolve(s, t, delivered))
  {
    hide Serials, CappedPush, Evicted;
    var after := Resolve(s, t, delivered);
    MovesKeepEvery(s.store, t, (x: Item) => Dated(s, x));
    if Awaits(s.store, t) {
      PushKeepsEvery(Answered(s.store, t), Sent(s.store, t), MAX_FAILED_AGENT_PAYLOADS, (x: Item) => Dated(s, x));
    }
    hide Every, Answered;
    EveryImplies(after.store, (x: Item) => Dated(s, x), (x: Item) => Dated(after, x));
  }

  lemma {:induction false} RecentAreItems(items: seq<Item>, now: int)
    ensures forall x <- Recent(items, now) :: x in items
  {
    forall x | x in Recent(items, now) ensures x in items {
      PurgeKeepsTheRecent(items, now, x);
    }
  }

  lemma StepDated(s: State, e: Event)
    requires AllDated(s)
    ensures AllDated(Step(s, e))
  {
    hide Pushed, TryNext, Resolve, Take, Finish, Recent, Expired;
    match e
    case Push(requestId, bytes, now) => PushDated(s, requestId, bytes, now);
    case BeginPass(t) =>
      MovesKeepEvery(s.store, t, (x: Item) => Dated(s, x));
      EveryImplies(Step(s, e).store, (x: Item) => Dated(s, x), (x: Item) => Dated(Step(s, e), x));
    case SendNext(t, now) => NextDated(s, t, now);
    case Answer(t, delivered) => AnswerDated(s, t, delivered);
    case EndPass(t) =>
      MovesKeepEvery(s.store, t, (x: Item) => Dated(s, x));
      EveryImplies(Step(s, e).store, (x: Item) => Dated(s, x), (x: Item) => Dated(Step(s, e), x));
    case Purge(now) =>
      RecentAreItems(s.store.buf, now);
      EveryImplies(Step(s, e).store, (x: Item) => Dated(s, x), (x: Item) => Dated(Step(s, e), x));
  }

  lemma {:induction false} AlwaysDated(events: seq<Event>)
    ensures AllDated(Run(events))
  {
    if events != [] {
      AlwaysDated(events[..|events| - 1]);
      StepDated(Run(events[..|events| - 1]), events[|events| - 1]);
    }
  }

  lemma StampsStay(s: State, e: Event, n: nat)
    requires AllDated(s) && n in s.failedAt
    ensures n in Step(s, e).failedAt && Step(s, e).failedAt[n] == s.failedAt[n]
  {
    hide Every, Serials, TooOld, Take, Finish, Skip, Send, Recent, Expired;
  }

  lemma LastStep(events: seq<Event>)
    requires events != []
    ensures Run(events) == Step(Run(events[..|events| - 1]), events[|events| - 1])
  {
  }

  lemma PushStamps(s: State, e: Event)
    requires e.Push?
    ensures s.accepted in Step(s, e).failedAt && Step(s, e).failedAt[s.accepted] == e.now
  {
    hide Pushed;
  }

  /** What the history calls the time of failure is the clock of the push that brought the payload in. */
  lemma {:induction false} FailedWhenPushed(events: seq<Event>, i: nat)
    requires i < |events| && events[i].Push?
    ensures var n := Run(events[..i]).accepted;
      n in Run(events).failedAt && Run(events).failedAt[n] == events[i].now
  {
    hide Run, Step, AllDated;
    var init := events[..|events| - 1];
    LastStep(events);
    if i < |init| {
      assert init[..i] == events[..i];
      FailedWhenPushed(init, i);
      AlwaysDated(init);
      StampsStay(Run(init), events[|init|], Run(events[..i]).accepted);
    } else {
      PushStamps(Run(init), events[i]);
    }
  }

  lemma NextStep(events: seq<Event>, t: nat, now: int)
    ensures Run(events + [SendNext(t, now)]) == TryNext(Run(events), t, now)
  {
    assert (events + [SendNext(t, now)])[..|events|] == events;
  }

  lemma TryNextExactlyIfYoung(s: State, t: nat, now: int)
    requires HasNext(s.store, t) && Dated(s, Head(s.store, t))
    ensures var after, item := TryNext(s, t, now), Head(s.store, t);
      && t in after.store.passes && after.store.buf == s.store.buf
      && (now - s.failedAt[item.serial] < 25 * 3_600_000 ==>
        && after.store.passes[t].sending == Some(item.(retryCount := item.retryCount + 1))
        && after.aged == s.aged && after.dropped == s.dropped)
      && (now - s.failedAt[item.serial] >= 25 * 3_600_000 ==>
        && after.store.passes[t].sending == None
        && after.aged == s.aged + multiset{item.serial} && after.dropped == s.dropped + 1)
  {
    MoreThanADay(Bumped(Head(s.store, t)), now);
    hide AgeInHours;
  }

  lemma HeadDated(s: State, t: nat)
    requires AllDated(s) && HasNext(s.store, t)
    ensures Dated(s, Head(s.store, t))
  {
    MovesKeepEvery(s.store, t, (x: Item) => Dated(s, x));
  }

  /**
   * In every run, the next payload of a pass is sent exactly if it failed less than 25 hours before the clock that the
   * pass reads. Otherwise it is dropped and counted.
   */
  lemma SentExactlyIfYoung(events: seq<Event>, t: nat, now: int)
    requires var passes := Run(events).store.passes;
      t in passes && passes[t].sending.None? && passes[t].todo != []
    ensures var s, after := Run(events), Run(events + [SendNext(t, now)]);
      var item := s.store.passes[t].todo[0];
      && item.serial in s.failedAt && t in after.store.passes && after.store.buf == s.store.buf
      && (now - s.failedAt[item.serial] < 25 * 3_600_000 ==>
        && after.store.passes[t].sending == Some(item.(retryCount := item.retryCount + 1))
        && after.aged == s.aged && after.dropped == s.dropped)
      && (now - s.failedAt[item.serial] >= 25 * 3_600_000 ==>
        && after.store.passes[t].sending == None
        && after.aged == s.aged + multiset{item.serial} && after.dropped == s.dropped + 1)
  {
    hide Run, TryNext, AllDated;
    NextStep(events, t, now);
    AlwaysDated(events);
    HeadDated(Run(events), t);
    TryNextExactlyIfYoung(Run(events), t, now);
  }

  lemma YoungStays(s: State, e: Event, n: nat, failed: int)
    requires AllDated(s) && s.aged[n] == 0 && (n in s.failedAt ==> s.failedAt[n] == failed)
    requires e.SendNext? ==> e.now - failed < 25 * 3_600_000
    ensures Step(s, e).aged[n] == 0
  {
    if e.SendNext? && HasNext(s.store, e.pass) {
      HeadDated(s, e.pass);
      TryNextExactlyIfYoung(s, e.pass, e.now);
      hide TryNext, AllDated;
    }
    hide AllDated, AgeInHours, Serials, Take, Finish, Skip, Send, Recent, Expired;
  }

  /** A payload is never aged out if it failed less than 25 hours before every clock that a pass reads. */
  lemma {:induction false} YoungNeverAges(events: seq<Event>, n: nat, failed: int)
    requires n in Run(events).failedAt ==> Run(events).failedAt[n] == failed
    requires forall e <- events :: e.SendNext? ==> e.now - failed < 25 * 3_600_000
    ensures Run(events).aged[n] == 0
  {
    if events != [] {
      var init, e := events[..|events| - 1], events[|events| - 1];
      AlwaysDated(init);
      assert forall x <- init :: x in events;
      if n in Run(init).failedAt {
        StampsStay(Run(init), e, n);
      }
      hide Step, AllDated;
      YoungNeverAges(init, n, failed);
      YoungStays(Run(init), e, n, failed);
    }
  }

  // ---- What the drop counter means -------------------------------------------------------

  /** The event drops the head of a pass for its age. */
  predicate AgesOut(s: State, e: Event) {
    e.SendNext? && HasNext(s.store, e.pass) && TooOld(Bumped(Head(s.store, e.pass)), e.now)
  }

  /** The event purges something. */
  predicate Purges(s: State, e: Event) {
    e.Purge? && Expired(s.store.buf, e.now) != []
  }

  lemma StepAges(s: State, e: Event)
    ensures |Step(s, e).aged| == |s.aged| + if AgesOut(s, e) then 1 else 0
  {
    hide Serials, TooOld, Take, Finish, Skip, Send, Recent, Expired;
  }

  lemma StepPurges(s: State, e: Event)
    ensures Purges(s, e) ==> |Step(s, e).purged| > |s.purged|
    ensures !Purges(s, e) ==> |Step(s, e).purged| == |s.purged|
  {
    hide TooOld, Take, Finish, Skip, Send, Recent, Expired;
    if e.Purge? {
      assert |multiset(Serials(Expired(s.store.buf, e.now), SerialOf))| == |Expired(s.store.buf, e.now)|;
    }
  }

  predicate HappensAt(events: seq<Event>, i: nat, happens: (State, Event) -> bool)
    requires i < |events|
  {
    happens(Run(events[..i]), events[i])
  }

  ghost predicate Never(events: seq<Event>, happens: (State, Event) -> bool) {
    forall i :: 0 <= i < |events| ==> !HappensAt(events, i, happens)
  }

  lemma HappensInPrefix(events: seq<Event>, i: nat, happens: (State, Event) -> bool)
    requires i < |events| - 1
    ensures HappensAt(events[..|events| - 1], i, happens) == HappensAt(events, i, happens)
  {
    assert events[..|events| - 1][..i] == events[..i];
    hide Run;
  }

  lemma NeverSoFar(events: seq<Event>, happens: (State, Event) -> bool)
    requires events != []
    ensures Never(events, happens) <==>
      Never(events[..|events| - 1], happens) && !HappensAt(events, |events| - 1, happens)
  {
    hide HappensAt;
    var init := events[..|events| - 1];
    if Never(events, happens) {
      forall i | 0 <= i < |init| ensures !HappensAt(init, i, happens) {
        HappensInPrefix(events, i, happens);
      }
    }
    if Never(init, happens) && !HappensAt(events, |init|, happens) {
      forall i | 0 <= i < |events| ensures !HappensAt(events, i, happens) {
        if i < |init| {
          HappensInPrefix(events, i, happens);
        }
      }
    }
  }

  lemma {:induction false} NothingAgedExactlyIf(events: seq<Event>)
    ensures |Run(events).aged| == 0 <==> Never(events, AgesOut)
  {
    if events != [] {
      NothingAgedExactlyIf(events[..|events| - 1]);
      StepAges(Run(events[..|events| - 1]), events[|events| - 1]);
      NeverSoFar(events, AgesOut);
      hide Step, AgesOut, Never;
    }
  }

  lemma {:induction false} NothingPurgedExactlyIf(events: seq<Event>)
    ensures |Run(events).purged| == 0 <==> Never(events, Purges)
  {
    if events != [] {
      NothingPurgedExactlyIf(events[..|events| - 1]);
      StepPurges(Run(events[..|events| - 1]), events[|events| - 1]);
      NeverSoFar(events, Purges);
      hide Step, Purges, Never;
    }
  }

  /**
   * The drop counter is documented as the number of payloads evicted from a full buffer, which is the true loss before
   * shutdown. It counts those dropped for age in a pass as well, and not those that are purged: it is the number of
   * evictions exactly if nothing aged out in a pass, and all that was lost exactly if nothing was purged.
   */
  lemma DroppedMeansExactlyIf(events: seq<Event>)
    ensures var s := Run(events);
      && s.dropped == |s.evicted| + |s.aged|
      && (s.dropped == |s.evicted| <==> Never(events, AgesOut))
      && (s.dropped == |s.evicted| + |s.aged| + |s.purged| <==> Never(events, Purges))
  {
    EveryPayloadIsBooked(events, 0);
    NothingAgedExactlyIf(events);
    NothingPurgedExactlyIf(events);
    hide Run, Never;
  }

  // ---- A pass that nothing interrupts ----------------------------------------------------

  /** One payload's turn in a pass: the try and then its answer, if it was sent. */
  function Tried(s: State, t: nat, a: Attempt): State {
    Resolve(TryNext(s, t, a.now), t, a.delivered)
  }

  function TriedAll(s: State, t: nat, script: seq<Attempt>): State
    decreases |script|
  {
    if script == [] then s else TriedAll(Tried(s, t, script[0]), t, script[1..])
  }

  lemma TriedOne(s: State, t: nat, a: Attempt)
    requires HasNext(s.store, t) && |s.store.buf| < MAX_FAILED_AGENT_PAYLOADS
    ensures var pass, after, left := s.store.passes[t], Tried(s, t, a).store, Left(Head(s.store, t), a);
      && after.passes == s.store.passes[t := Pass(pass.todo[1..], None)]
      && after.buf == s.store.buf + (if left.Some? then [left.value] else [])
  {
    hide Serials, AgeInHours;
    SameAge(Head(s.store, t), a.now);
  }

  /** Run without interruption, a pass of the machine leaves exactly what the code's loop leaves. */
  lemma {:induction false} UninterruptedPass(s: State, t: nat, script: seq<Attempt>)
    requires t in s.store.passes && s.store.passes[t].sending.None? && |script| == |s.store.passes[t].todo|
    requires |s.store.buf| + |script| <= MAX_FAILED_AGENT_PAYLOADS
    ensures var after := TriedAll(s, t, script).store;
      && after.buf == s.store.buf + Leftover(s.store.passes[t].todo, script, Left)
      && t in after.passes && after.passes[t] == Pass([], None)
    decreases |script|
  {
    hide Tried, Left, Bumped;
    if script != [] {
      hide Leftover;
      TriedOne(s, t, script[0]);
      LeftoverHead(s.store.passes[t].todo, script, Left);
      UninterruptedPass(Tried(s, t, script[0]), t, script[1..]);
    }
  }
}
