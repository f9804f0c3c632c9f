/** Retry passes over buffered platform metrics under any interleaving (src/apm/metric_api_buffer.rs). */
module MetricRetry {
  import opened Types
  import opened Bags
  import opened Json
  import opened RetryStore
  import opened MetricBuffer

  datatype Event =
    | FirstFailure(metrics: seq<Value>, endpoint: string, retryAfter: Option<nat>, now: int)
    | BeginPass(pass: nat, now: int)
    | SendNext(pass: nat)
    | GetReply(pass: nat, reply: Reply)
    | EndPass(pass: nat)

  /** When the last answer about a batch came, and the delay it asked for. */
  datatype Asked = Asked(at: int, retryAfter: Option<nat>)

  datatype State = State(
    store: Store<Item>,
    starts: map<nat, int>,
    // History: batches accepted, when each failed first and was answered last, retry sends per batch, uncapped pushes
    // since the last take, and the ways out.
    accepted: nat,
    failedAt: map<nat, int>,
    asked: map<nat, Asked>,
    sends: map<nat, nat>,
    uncapped: nat,
    delivered: multiset<nat>,
    refused: multiset<nat>,
    lost: multiset<nat>)

  const INITIAL := State(Store([], map[]), map[], 0, map[], map[], map[], 0, multiset{}, multiset{}, multiset{})

  function SendsOf(sends: map<nat, nat>, n: nat): nat {
    if n in sends then sends[n] else 0
  }

  function Pushed(s: State, item: Item): State {
    s.(store := s.store.(buf := s.store.buf + [item]), uncapped := s.uncapped + 1)
  }

  function Buffered(s: State, metrics: seq<Value>, endpoint: string, retryAfter: Option<nat>, now: int): State {
    if metrics == [] then s
    else
      var item := Item(s.accepted, metrics, endpoint, now, 0, NextRetry(now, retryAfter));
      s.(store := s.store.(buf := CappedPush(s.store.buf, item, MAX_BUFFERED_BATCHES)),
         accepted := s.accepted + 1,
         failedAt := s.failedAt[s.accepted := now],
         asked := s.asked[s.accepted := Asked(now, retryAfter)],
         lost := s.lost + multiset(Serials(Evicted(s.store.buf, MAX_BUFFERED_BATCHES), SerialOf)))
  }

  function Begun(s: State, t: nat, now: int): State {
    if |s.store.buf| == 0 || t in s.store.passes then s
    else s.(store := Take(s.store, t), starts := s.starts[t := now], uncapped := 0)
  }

  function TryNext(s: State, t: nat): State {
    if !HasNext(s.store, t) || t !in s.starts then s
    else
      var item, start := Head(s.store, t), s.starts[t];
      if Deferred(item, start) then Pushed(s.(store := Skip(s.store, t)), item)
      else if TooOld(item, start) then
        s.(store := Skip(s.store, t), lost := s.lost + multiset{item.serial})
      else
        s.(store := Send(s.store, t, Counted(item)), sends := s.sends[item.serial := SendsOf(s.sends, item.serial) + 1])
  }

  /** The answer is noted and the batch leaves the pass. */
  function Noted(s: State, t: nat, reply: Reply): State
    requires Awaits(s.store, t)
  {
    s.(store := Answered(s.store, t),
       asked := s.asked[Sent(s.store, t).serial := Asked(reply.now, RetryAfterOf(reply.answer))])
  }

  function Resolve(s: State, t: nat, reply: Reply): State {
    if !Awaits(s.store, t) then s
    else
      var item, s := Sent(s.store, t), Noted(s, t, reply);
      if reply.answer.Delivered? then s.(delivered := s.delivered + multiset{item.serial})
      else if reply.answer.Permanent? then s.(refused := s.refused + multiset{item.serial})
      else if item.retryCount < MAX_RETRY_ATTEMPTS then
        Pushed(s, item.(nextRetryAt := NextRetry(reply.now, RetryAfterOf(reply.answer))))
      else s.(lost := s.lost + multiset{item.serial})
  }

  function Step(s: State, e: Event): State {
    match e
    case FirstFailure(metrics, endpoint, retryAfter, now) => Buffered(s, metrics, endpoint, retryAfter, now)
    case BeginPass(t, now) => Begun(s, t, now)
    case SendNext(t) => TryNext(s, t)
    case GetReply(t, reply) => Resolve(s, t, reply)
    case EndPass(t) => s.(store := Finish(s.store, t))
  }

  function Run(events: seq<Event>): State {
    if events == [] then INITIAL else Step(Run(events[..|events| - 1]), events[|events| - 1])
  }

  // ---- Each batch is in one place --------------------------------------------------------

  ghost function Places(s: State, n: nat): nat {
    Waiting(s.store, SerialOf, n) + s.delivered[n] + s.refused[n] + s.lost[n]
  }

  ghost predicate InBooks(s: State, n: nat) {
    Places(s, n) == if n < s.accepted then 1 else 0
  }

  lemma PushWaits(store: Store<Item>, item: Item, n: nat)
    ensures Waiting(store.(buf := store.buf + [item]), SerialOf, n) == Waiting(store, SerialOf, n) + One(item.serial, n)
  {
    hide Bag, Serials;
    SerialsOfPush(store.buf, item, SerialOf, n);
  }

  lemma FirstFailureBooked(s: State, metrics: seq<Value>, endpoint: string, retryAfter: Option<nat>, now: int, n: nat)
    requires InBooks(s, n)
    ensures InBooks(Buffered(s, metrics, endpoint, retryAfter, now), n)
  {
    hide Bag, Serials;
    CappedPushCount(s.store.buf, Item(s.accepted, metrics, endpoint, now, 0, NextRetry(now, retryAfter)),
                    MAX_BUFFERED_BATCHES, SerialOf, n);
  }

  lemma TryBooked(s: State, t: nat, n: nat)
    requires InBooks(s, n)
    ensures InBooks(TryNext(s, t), n)
  {
    hide Waiting, TooOld, Deferred;
    if HasNext(s.store, t) {
      var item := Head(s.store, t);
      SkipWaits(s.store, t, SerialOf, n);
      PushWaits(Skip(s.store, t), item, n);
      SendWaits(s.store, t, Counted(item), SerialOf, n);
    }
  }

  lemma ResolveBooked(s: State, t: nat, reply: Reply, n: nat)
    requires InBooks(s, n)
    ensures InBooks(Resolve(s, t, reply), n)
  {
    hide Waiting, NextRetry;
    if Awaits(s.store, t) {
      AnsweredWaits(s.store, t, SerialOf, n);
      PushWaits(Answered(s.store, t),
                Sent(s.store, t).(nextRetryAt := NextRetry(reply.now, RetryAfterOf(reply.answer))), n);
    }
  }

  lemma StepBooked(s: State, e: Event, n: nat)
    requires InBooks(s, n)
    ensures InBooks(Step(s, e), n)
  {
    hide Waiting, Buffered, TryNext, Resolve, Take, Finish;
    match e
    case FirstFailure(metrics, endpoint, retryAfter, now) =>
      FirstFailureBooked(s, metrics, endpoint, retryAfter, now, n);
    case BeginPass(t, _) => TakeWaits(s.store, t, SerialOf, n);
    case SendNext(t) => TryBooked(s, t, n);
    case GetReply(t, reply) => ResolveBooked(s, t, reply, n);
    case EndPass(t) => FinishWaits(s.store, t, SerialOf, n);
  }

  /** Every batch ever buffered waits in one place or left once. */
  lemma {:induction false} EveryBatchIsBooked(events: seq<Event>, n: nat)
    ensures InBooks(Run(events), n)
  {
    if events == [] {
      NoSerials(SerialOf, n);
    } else {
      EveryBatchIsBooked(events[..|events| - 1], n);
      StepBooked(Run(events[..|events| - 1]), events[|events| - 1], n);
    }
  }

  /** A batch refused for good, or delivered, never waits again. */
  lemma PermanentNeverReturns(events: seq<Event>, n: nat)
    requires n in Run(events).refused || n in Run(events).delivered
    ensures Waiting(Run(events).store, SerialOf, n) == 0
  {
    EveryBatchIsBooked(events, n);
    hide Run, Waiting;
  }

  // ---- At most ten sends -----------------------------------------------------------------

  /** The batch counts its sends. */
  function CountsSends(sends: map<nat, nat>): Item -> bool {
    (item: Item) => item.retryCount == SendsOf(sends, item.serial) <= MAX_RETRY_ATTEMPTS
  }

  /** Only a batch that is being sent can have used all its sends. */
  ghost predicate SendsLeft(store: Store<Item>) {
    && (forall x <- store.buf :: x.retryCount < MAX_RETRY_ATTEMPTS)
    && (forall t <- store.passes :: forall x <- store.passes[t].todo :: x.retryCount < MAX_RETRY_ATTEMPTS)
  }

  ghost predicate Limited(s: State) {
    && Every(s.store, CountsSends(s.sends))
    && SendsLeft(s.store)
    && (forall n <- s.sends :: n < s.accepted && s.sends[n] <= MAX_RETRY_ATTEMPTS)
    && |s.store.buf| <= MAX_BUFFERED_BATCHES + s.uncapped
  }

  lemma FirstFailureLimited(s: State, metrics: seq<Value>, endpoint: string, retryAfter: Option<nat>, now: int)
    requires Limited(s)
    ensures Limited(Buffered(s, metrics, endpoint, retryAfter, now))
  {
    hide Serials, NextRetry, Every;
    var item := Item(s.accepted, metrics, endpoint, now, 0, NextRetry(now, retryAfter));
    assert s.accepted !in s.sends;
    assert CountsSends(s.sends)(item);
    PushKeepsEvery(s.store, item, MAX_BUFFERED_BATCHES, CountsSends(s.sends));
  }

  lemma CountedSendKeepsItems(store: Store<Item>, t: nat, sends: map<nat, nat>)
    requires HasNext(store, t) && Every(store, CountsSends(sends)) && Head(store, t).retryCount < MAX_RETRY_ATTEMPTS
    requires Waiting(store, SerialOf, Head(store, t).serial) <= 1
    ensures var item := Head(store, t);
      var more := sends[item.serial := SendsOf(sends, item.serial) + 1];
      Every(Send(store, t, Counted(item)), CountsSends(more)) && more[item.serial] <= MAX_RETRY_ATTEMPTS
  {
    var item := Head(store, t);
    var more := sends[item.serial := SendsOf(sends, item.serial) + 1];
    var p, q := CountsSends(sends), CountsSends(more);
    MovesKeepEvery(store, t, p);
    assert p(item);
    forall x | p(x) && SerialOf(x) != item.serial ensures q(x) {
    }
    assert q(Counted(item));
    hide CountsSends, Waiting, Every;
    SkipWaits(store, t, SerialOf, item.serial);
    EveryOther(Skip(store, t), SerialOf, item.serial, p, q);
    SendAfterSkip(store, t, Counted(item), q);
  }

  lemma TryLimited(s: State, t: nat)
    requires Limited(s)
    requires HasNext(s.store, t) ==> InBooks(s, Head(s.store, t).serial)
    ensures Limited(TryNext(s, t))
  {
    hide CountsSends, Waiting, Every, TooOld, Deferred;
    if HasNext(s.store, t) && t in s.starts {
      var item, start := Head(s.store, t), s.starts[t];
      MovesKeepEvery(s.store, t, CountsSends(s.sends));
      if Deferred(item, start) {
        PushKeepsEvery(Skip(s.store, t), item, MAX_BUFFERED_BATCHES, CountsSends(s.sends));
      } else if !TooOld(item, start) {
        CountedSendKeepsItems(s.store, t, s.sends);
        AcceptedIfWaiting(s, t);
      }
    }
  }

  lemma AcceptedIfWaiting(s: State, t: nat)
    requires HasNext(s.store, t) && InBooks(s, Head(s.store, t).serial)
    ensures Head(s.store, t).serial < s.accepted
  {
    SkipWaits(s.store, t, SerialOf, Head(s.store, t).serial);
    hide Waiting;
  }

  lemma AnsweredKeepsSendsLeft(store: Store<Item>, t: nat)
    requires Awaits(store, t) && SendsLeft(store)
    ensures SendsLeft(Answered(store, t))
  {
  }

  lemma PushKeepsSendsLeft(store: Store<Item>, item: Item)
    requires SendsLeft(store) && item.retryCount < MAX_RETRY_ATTEMPTS
    ensures SendsLeft(store.(buf := store.buf + [item]))
  {
  }

  /** An answer takes the batch out of the pass, and puts it back at most. */
  lemma ResolveMoves(s: State, t: nat, reply: Reply)
    requires Awaits(s.store, t)
    ensures var item, rest, after := Sent(s.store, t), Answered(s.store, t), Resolve(s, t, reply);
      var again := item.(nextRetryAt := NextRetry(reply.now, RetryAfterOf(reply.answer)));
      && after.asked == s.asked[item.serial := Asked(reply.now, RetryAfterOf(reply.answer))]
      && after.failedAt == s.failedAt && after.accepted == s.accepted && after.starts == s.starts
      && after.sends == s.sends
      && ((after.store == rest && after.uncapped == s.uncapped)
          || (item.retryCount < MAX_RETRY_ATTEMPTS && after.uncapped == s.uncapped + 1
              && after.store == rest.(buf := s.store.buf + [again])))
  {
    NotedKeeps(s, t, reply);
    hide NextRetry, RetryAfterOf, Noted, Answered;
  }

  lemma NotedKeeps(s: State, t: nat, reply: Reply)
    requires Awaits(s.store, t)
    ensures var after := Noted(s, t, reply);
      && after.store == Answered(s.store, t) && after.store.buf == s.store.buf
      && after.asked == s.asked[Sent(s.store, t).serial := Asked(reply.now, RetryAfterOf(reply.answer))]
      && after.starts == s.starts && after.failedAt == s.failedAt && after.sends == s.sends
      && after.accepted == s.accepted && after.uncapped == s.uncapped
      && after.delivered == s.delivered && after.refused == s.refused && after.lost == s.lost
  {
  }

  lemma ResolveLimited(s: State, t: nat, reply: Reply)
    requires Limited(s)
    ensures Limited(Resolve(s, t, reply))
  {
    if Awaits(s.store, t) {
      MovesKeepEvery(s.store, t, CountsSends(s.sends));
      var again := Sent(s.store, t).(nextRetryAt := NextRetry(reply.now, RetryAfterOf(reply.answer)));
      assert CountsSends(s.sends)(again);
      AnsweredKeepsSendsLeft(s.store, t);
      ResolveMoves(s, t, reply);
      hide Every, NextRetry, CountsSends, SendsLeft, RetryAfterOf, Resolve;
      PushKeepsEvery(Answered(s.store, t), again, MAX_BUFFERED_BATCHES, CountsSends(s.sends));
      if again.retryCount < MAX_RETRY_ATTEMPTS {
        PushKeepsSendsLeft(Answered(s.store, t), again);
      }
    }
  }

  lemma MovesLimited(s: State, t: nat, now: int)
    requires Limited(s)
    ensures Limited(Begun(s, t, now)) && Limited(s.(store := Finish(s.store, t)))
  {
    hide Every, CountsSends;
    MovesKeepEvery(s.store, t, CountsSends(s.sends));
  }

  lemma StepLimited(s: State, e: Event)
    requires Limited(s)
    requires e.SendNext? && HasNext(s.store, e.pass) ==> InBooks(s, Head(s.store, e.pass).serial)
    ensures Limited(Step(s, e))
  {
    hide Limited, Buffered, TryNext, Resolve, Begun, Finish, InBooks;
    match e
    case FirstFailure(metrics, endpoint, retryAfter, now) => FirstFailureLimited(s, metrics, endpoint, retryAfter, now);
    case BeginPass(t, now) => MovesLimited(s, t, now);
    case SendNext(t) => TryLimited(s, t);
    case GetReply(t, reply) => ResolveLimited(s, t, reply);
    case EndPass(t) => MovesLimited(s, t, 0);
  }

  /**
   * Every reachable state: a buffered batch counts its retry sends, at most nine of them; no batch is ever sent
   * more than ten times; the cap holds up to the uncapped pushes since the last take.
   */
  lemma {:induction false} AlwaysLimited(events: seq<Event>)
    ensures Limited(Run(events))
  {
    if events != [] {
      var s, e := Run(events[..|events| - 1]), events[|events| - 1];
      AlwaysLimited(events[..|events| - 1]);
      if e.SendNext? && HasNext(s.store, e.pass) {
        EveryBatchIsBooked(events[..|events| - 1], Head(s.store, e.pass).serial);
      }
      hide Limited, InBooks, Step;
      StepLimited(s, e);
    }
  }

  lemma TenSendsAtMost(events: seq<Event>, n: nat)
    ensures n in Run(events).sends ==> Run(events).sends[n] <= 10
    ensures forall x <- Run(events).store.buf ::
      x.retryCount <= 9 && x.retryCount == SendsOf(Run(events).sends, x.serial)
  {
    AlwaysLimited(events);
    hide Run;
    forall x | x in Run(events).store.buf
      ensures x.retryCount <= 9 && x.retryCount == SendsOf(Run(events).sends, x.serial)
    {
      assert CountsSends(Run(events).sends)(x);
    }
  }

  // ---- When a batch is sent again --------------------------------------------------------

  /** The batch still says when it failed first, and until when the last answer asked to wait. */
  function Timed(failedAt: map<nat, int>, asked: map<nat, Asked>): Item -> bool {
    (item: Item) =>
      && item.serial in failedAt && item.failedAt == failedAt[item.serial]
      && item.serial in asked
      && item.nextRetryAt == NextRetry(asked[item.serial].at, asked[item.serial].retryAfter)
  }

  ghost predicate AllTimed(s: State) {
    && Every(s.store, Timed(s.failedAt, s.asked))
    && (forall n <- s.failedAt :: n < s.accepted)
    && (forall n <- s.asked :: n < s.accepted)
    && (forall t <- s.store.passes :: t in s.starts)
  }

  lemma FirstFailureTimed(s: State, metrics: seq<Value>, endpoint: string, retryAfter: Option<nat>, now: int)
    requires AllTimed(s)
    ensures AllTimed(Buffered(s, metrics, endpoint, retryAfter, now))
  {
    if metrics != [] {
      var item := Item(s.accepted, metrics, endpoint, now, 0, NextRetry(now, retryAfter));
      var p := Timed(s.failedAt, s.asked);
      var q := Timed(s.failedAt[s.accepted := now], s.asked[s.accepted := Asked(now, retryAfter)]);
      hide NextRetry, Serials, Every;
      assert q(item);
      EveryImplies(s.store, p, q);
      PushKeepsEvery(s.store, item, MAX_BUFFERED_BATCHES, q);
      hide Timed;
    }
  }

  lemma TryTimed(s: State, t: nat)
    requires AllTimed(s)
    ensures AllTimed(TryNext(s, t))
  {
    if HasNext(s.store, t) && t in s.starts {
      var p, item := Timed(s.failedAt, s.asked), Head(s.store, t);
      MovesKeepEvery(s.store, t, p);
      assert p(Counted(item));
      hide Timed, Deferred, TooOld, Every, Counted;
      PushKeepsEvery(Skip(s.store, t), item, MAX_BUFFERED_BATCHES, p);
      SendKeepsEvery(s.store, t, Counted(item), p);
    }
  }

  /** An answer changes what is known of its own batch only. */
  lemma AnswerKeepsTimed(store: Store<Item>, t: nat, failedAt: map<nat, int>, asked: map<nat, Asked>, answer: Asked)
    requires Awaits(store, t) && Waiting(store, SerialOf, Sent(store, t).serial) <= 1
    requires Every(store, Timed(failedAt, asked))
    ensures var item := Sent(store, t);
      var q := Timed(failedAt, asked[item.serial := answer]);
      && Every(Answered(store, t), q) && item.serial in failedAt && item.serial in asked
      && q(item.(nextRetryAt := NextRetry(answer.at, answer.retryAfter)))
  {
    var item := Sent(store, t);
    var p, q := Timed(failedAt, asked), Timed(failedAt, asked[item.serial := answer]);
    MovesKeepEvery(store, t, p);
    assert p(item);
    hide NextRetry, Waiting, Every;
    assert forall x :: p(x) && SerialOf(x) != item.serial ==> q(x);
    assert q(item.(nextRetryAt := NextRetry(answer.at, answer.retryAfter)));
    hide Timed;
    AnsweredWaits(store, t, SerialOf, item.serial);
    EveryOther(Answered(store, t), SerialOf, item.serial, p, q);
  }

  lemma ResolveTimed(s: State, t: nat, reply: Reply)
    requires AllTimed(s)
    requires Awaits(s.store, t) ==> InBooks(s, Sent(s.store, t).serial)
    ensures AllTimed(Resolve(s, t, reply))
  {
    if Awaits(s.store, t) {
      var answer := Asked(reply.now, RetryAfterOf(reply.answer));
      hide Waiting, Every, Timed, NextRetry, RetryAfterOf, Resolve;
      ResolveMoves(s, t, reply);
      AnswerKeepsTimed(s.store, t, s.failedAt, s.asked, answer);
      var q := Timed(s.failedAt, s.asked[Sent(s.store, t).serial := answer]);
      var again := Sent(s.store, t).(nextRetryAt := NextRetry(answer.at, answer.retryAfter));
      PushKeepsEvery(Answered(s.store, t), again, MAX_BUFFERED_BATCHES, q);
    }
  }

  lemma MovesTimed(s: State, t: nat, now: int)
    requires AllTimed(s)
    ensures AllTimed(Begun(s, t, now)) && AllTimed(s.(store := Finish(s.store, t)))
  {
    hide Every, Timed;
    MovesKeepEvery(s.store, t, Timed(s.failedAt, s.asked));
  }

  lemma StepTimed(s: State, e: Event)
    requires AllTimed(s)
    requires e.GetReply? && Awaits(s.store, e.pass) ==> InBooks(s, Sent(s.store, e.pass).serial)
    ensures AllTimed(Step(s, e))
  {
    hide AllTimed, Buffered, TryNext, Resolve, Begun, Finish, InBooks;
    match e
    case FirstFailure(metrics, endpoint, retryAfter, now) => FirstFailureTimed(s, metrics, endpoint, retryAfter, now);
    case BeginPass(t, now) => MovesTimed(s, t, now);
    case SendNext(t) => TryTimed(s, t);
    case GetReply(t, reply) => ResolveTimed(s, t, reply);
    case EndPass(t) => MovesTimed(s, t, 0);
  }

  lemma {:induction false} AlwaysTimed(events: seq<Event>)
    ensures AllTimed(Run(events))
  {
    if events != [] {
      var s, e := Run(events[..|events| - 1]), events[|events| - 1];
      AlwaysTimed(events[..|events| - 1]);
      if e.GetReply? && Awaits(s.store, e.pass) {
        EveryBatchIsBooked(events[..|events| - 1], Sent(s.store, e.pass).serial);
      }
      hide AllTimed, InBooks, Step;
      StepTimed(s, e);
    }
  }

  lemma OneMoreEvent(events: seq<Event>, e: Event)
    ensures Run(events + [e]) == Step(Run(events), e)
  {
    assert (events + [e])[..|events|] == events;
    hide Step;
  }

  lemma HeadTimed(s: State, t: nat)
    requires AllTimed(s) && HasNext(s.store, t)
    ensures t in s.starts && Timed(s.failedAt, s.asked)(Head(s.store, t))
  {
    MovesKeepEvery(s.store, t, Timed(s.failedAt, s.asked));
  }

  lemma HeadCounts(s: State, t: nat)
    requires Limited(s) && HasNext(s.store, t)
    ensures Head(s.store, t).retryCount == SendsOf(s.sends, Head(s.store, t).serial)
  {
    MovesKeepEvery(s.store, t, CountsSends(s.sends));
  }

  lemma TryExactly(s: State, t: nat)
    requires HasNext(s.store, t) && t in s.starts && Timed(s.failedAt, s.asked)(Head(s.store, t))
    requires Head(s.store, t).retryCount == SendsOf(s.sends, Head(s.store, t).serial)
    ensures var item, start, after := Head(s.store, t), s.starts[t], TryNext(s, t);
      var n := item.serial;
      && n in s.asked && n in s.failedAt && t in after.store.passes
      && var asked := s.asked[n];
      var deferred := asked.retryAfter.Some? && asked.retryAfter.value * 1000 <= 0x7FFF_FFFF_FFFF_FFFF
        && start < asked.at + 1000 * asked.retryAfter.value;
      && (deferred ==>
        && after.store.passes[t].sending == None && after.store.buf == s.store.buf + [item]
        && after.sends == s.sends && after.lost == s.lost)
      && (!deferred && start - s.failedAt[n] < 61 * 60_000 ==>
        && after.store.passes[t].sending == Some(item.(retryCount := item.retryCount + 1))
        && after.store.buf == s.store.buf && after.sends == s.sends[n := item.retryCount + 1] && after.lost == s.lost)
      && (!deferred && start - s.failedAt[n] >= 61 * 60_000 ==>
        && after.store.passes[t].sending == None && after.store.buf == s.store.buf
        && after.sends == s.sends && after.lost == s.lost + multiset{n})
  {
    var item := Head(s.store, t);
    WhenToRetry(item, s.starts[t], s.asked[item.serial].at, s.asked[item.serial].retryAfter);
    hide NextRetry, Deferred, TooOld;
  }

  /**
   * In every run, a pass sends its next batch exactly if it started no earlier than the last answer asked for and less
   * than 61 minutes after the first failure. Started earlier, it puts the batch back as it is; later, it drops it.
   */
  lemma SentExactlyWhenDue(events: seq<Event>, t: nat)
    requires var passes := Run(events).store.passes;
      t in passes && passes[t].sending.None? && passes[t].todo != []
    ensures var s, after := Run(events), Run(events + [SendNext(t)]);
      var item := s.store.passes[t].todo[0];
      var n := item.serial;
      && t in s.starts && n in s.asked && n in s.failedAt && t in after.store.passes
      && var start, asked := s.starts[t], s.asked[n];
      var deferred := asked.retryAfter.Some? && asked.retryAfter.value * 1000 <= 0x7FFF_FFFF_FFFF_FFFF
        && start < asked.at + 1000 * asked.retryAfter.value;
      && (deferred ==>
        && after.store.passes[t].sending == None && after.store.buf == s.store.buf + [item]
        && after.sends == s.sends && after.lost == s.lost)
      && (!deferred && start - s.failedAt[n] < 61 * 60_000 ==>
        && after.store.passes[t].sending == Some(item.(retryCount := item.retryCount + 1))
        && after.store.buf == s.store.buf && after.sends == s.sends[n := item.retryCount + 1] && after.lost == s.lost)
      && (!deferred && start - s.failedAt[n] >= 61 * 60_000 ==>
        && after.store.passes[t].sending == None && after.store.buf == s.store.buf
        && after.sends == s.sends && after.lost == s.lost + multiset{n})
  {
    hide Run, TryNext, AllTimed, Limited, Timed;
    OneMoreEvent(events, SendNext(t));
    AlwaysTimed(events);
    AlwaysLimited(events);
    HeadTimed(Run(events), t);
    HeadCounts(Run(events), t);
    TryExactly(Run(events), t);
  }

  lemma ResolveExactly(s: State, t: nat, reply: Reply)
    requires Awaits(s.store, t) && CountsSends(s.sends)(Sent(s.store, t))
    ensures var item, after := Sent(s.store, t), Resolve(s, t, reply);
      var n := item.serial;
      var delay := if reply.answer.Retryable? then reply.answer.retryAfter else None;
      var sends := if n in s.sends then s.sends[n] else 0;
      && after.asked == s.asked[n := Asked(reply.now, delay)] && after.sends == s.sends
      && match reply.answer
         case Delivered =>
           after.store.buf == s.store.buf && after.delivered == s.delivered + multiset{n} && after.lost == s.lost
         case Permanent =>
           after.store.buf == s.store.buf && after.refused == s.refused + multiset{n} && after.lost == s.lost
         case _ =>
           && after.delivered == s.delivered && after.refused == s.refused
           && if sends < 10 then
                && after.lost == s.lost && |after.store.buf| == |s.store.buf| + 1 && s.store.buf <= after.store.buf
                && after.store.buf[|s.store.buf|] == item.(nextRetryAt := NextRetry(reply.now, delay))
              else after.lost == s.lost + multiset{n} && after.store.buf == s.store.buf
  {
    NotedKeeps(s, t, reply);
    hide NextRetry, Noted, Answered;
  }

  lemma SentCounts(s: State, t: nat)
    requires Limited(s) && Awaits(s.store, t)
    ensures CountsSends(s.sends)(Sent(s.store, t))
  {
    MovesKeepEvery(s.store, t, CountsSends(s.sends));
  }

  /**
   * In every run, an answer that is worth a retry puts the batch back exactly if it was sent fewer than ten times, and
   * the history keeps the delay it asked for.
   */
  lemma PutBackExactlyIf(events: seq<Event>, t: nat, reply: Reply)
    requires t in Run(events).store.passes && Run(events).store.passes[t].sending.Some?
    ensures var s, after := Run(events), Run(events + [GetReply(t, reply)]);
      var item := s.store.passes[t].sending.value;
      var n := item.serial;
      var delay := if reply.answer.Retryable? then reply.answer.retryAfter else None;
      var sends := if n in s.sends then s.sends[n] else 0;
      && after.asked == s.asked[n := Asked(reply.now, delay)] && after.sends == s.sends
      && match reply.answer
         case Delivered =>
           after.store.buf == s.store.buf && after.delivered == s.delivered + multiset{n} && after.lost == s.lost
         case Permanent =>
           after.store.buf == s.store.buf && after.refused == s.refused + multiset{n} && after.lost == s.lost
         case _ =>
           && after.delivered == s.delivered && after.refused == s.refused
           && if sends < 10 then
                && after.lost == s.lost && |after.store.buf| == |s.store.buf| + 1 && s.store.buf <= after.store.buf
                && after.store.buf[|s.store.buf|] == item.(nextRetryAt := NextRetry(reply.now, delay))
              else after.lost == s.lost + multiset{n} && after.store.buf == s.store.buf
  {
    hide Run, Resolve, Limited, CountsSends;
    OneMoreEvent(events, GetReply(t, reply));
    AlwaysLimited(events);
    SentCounts(Run(events), t);
    ResolveExactly(Run(events), t, reply);
  }

  /** What the history says of a batch changes only when it fails first and when it is answered. */
  lemma HistoryIsOfTheAnswers(events: seq<Event>, e: Event)
    ensures var s, after := Run(events), Run(events + [e]);
      match e
      case FirstFailure(metrics, _, retryAfter, now) =>
        if metrics == [] then after == s
        else
          && after.asked == s.asked[s.accepted := Asked(now, retryAfter)]
          && after.failedAt == s.failedAt[s.accepted := now] && after.accepted == s.accepted + 1
      case BeginPass(t, now) =>
        && after.asked == s.asked && after.failedAt == s.failedAt && after.accepted == s.accepted
        && (s.store.buf != [] && t !in s.store.passes ==> after.starts == s.starts[t := now])
      case GetReply(t, _) =>
        && after.failedAt == s.failedAt && after.accepted == s.accepted
        && (!(t in s.store.passes && s.store.passes[t].sending.Some?) ==> after.asked == s.asked)
      case _ =>
        && after.asked == s.asked && after.failedAt == s.failedAt && after.accepted == s.accepted
        && after.starts == s.starts
  {
    hide Run, Serials, NextRetry, Deferred, TooOld, CappedPush, Evicted, Take, Finish, Skip, Send, Counted;
    OneMoreEvent(events, e);
  }
}
