/** Synthesized Lambda errors and their one retry (src/error_synthesis.rs). */
module ErrorSynthesis {
  import opened Types
  import opened Bags
  import opened RetryStore

  datatype Kind = Timeout | PlatformFault | LambdaError(errorType: string)

  function TypeOf(kind: Kind): string {
    match kind
    case Timeout => "LambdaTimeout"
    case PlatformFault => "LambdaPlatformFault"
    case LambdaError(errorType) => errorType
  }

  datatype Raise = Raise(kind: Kind, requestId: string, message: string, arn: string)

  function KeyOf(raise: Raise): (string, string) {
    (raise.requestId, TypeOf(raise.kind))
  }

  /** What `send_lambda_error` falls back to; the other two senders take the ARN as it is. */
  function FirstArn(raise: Raise, registrationArn: string, functionPath: string): (arn: string)
    ensures raise.kind.LambdaError? ==> arn != ""
  {
    if raise.kind.LambdaError? && raise.arn == "" then
      if registrationArn != "" then registrationArn else "arn:aws:lambda:" + functionPath
    else raise.arn
  }

  /** An entry of `FAILED_ERRORS`; `n` is the number of the raise, `retried` is set once its retry is under way. */
  datatype FailedError = FailedError(n: nat, requestId: string, errorType: string, message: string, arn: string,
    retried: bool)

  function SerialOf(failed: FailedError): nat { failed.n }

  /** One request that carries an error. */
  datatype Attempt = Attempt(n: nat, retry: bool, arn: string)

  datatype Event =
    | RaiseError(raise: Raise, registrationArn: string, functionPath: string)
    | FirstAnswer(task: nat, ok: bool)
    | BeginRetries(pass: nat)
    | RetryNext(pass: nat)
    | RetryAnswer(pass: nat, ok: bool)
    | EndRetries(pass: nat)
    | NewInvocation

  datatype State = State(
    sent: set<(string, string)>,
    store: Store<FailedError>,
    flying: map<nat, nat>,
    clock: nat,
    // History: what was raised and not suppressed, every attempt, attempts per raise, raises that are over.
    raises: seq<Raise>,
    attempts: seq<Attempt>,
    tries: map<nat, nat>,
    delivered: set<(string, string)>,
    over: multiset<nat>)

  const INITIAL := State({}, Store([], map[]), map[], 0, [], [], map[], {}, multiset{})

  function TriesOf(tries: map<nat, nat>, n: nat): nat {
    if n in tries then tries[n] else 0
  }

  /** An error whose type was already sent for the request is suppressed. */
  function Raised(s: State, raise: Raise, registrationArn: string, functionPath: string): State {
    if KeyOf(raise) in s.sent then s
    else
      var n := |s.raises|;
      s.(flying := s.flying[s.clock := n],
         raises := s.raises + [raise],
         attempts := s.attempts + [Attempt(n, false, FirstArn(raise, registrationArn, functionPath))],
         tries := s.tries[n := 1])
  }

  function Delivered(s: State, n: nat, key: (string, string)): State {
    s.(sent := s.sent + {key}, delivered := s.delivered + {key}, over := s.over + multiset{n})
  }

  /** A failed first send is queued with the ARN as it was passed in. */
  function First(s: State, t: nat, ok: bool): State {
    if t !in s.flying || s.flying[t] >= |s.raises| then s
    else
      var n := s.flying[t];
      var raise := s.raises[n];
      var s := s.(flying := s.flying - {t});
      if ok then Delivered(s, n, KeyOf(raise))
      else
        var failed := FailedError(n, raise.requestId, TypeOf(raise.kind), raise.message, raise.arn, false);
        s.(store := s.store.(buf := s.store.buf + [failed]))
  }

  function Next(s: State, t: nat): State {
    if !HasNext(s.store, t) then s
    else
      var failed := Head(s.store, t);
      s.(store := Send(s.store, t, failed.(retried := true)),
         attempts := s.attempts + [Attempt(failed.n, true, failed.arn)],
         tries := s.tries[failed.n := TriesOf(s.tries, failed.n) + 1])
  }

  /** A failed retry is dropped. */
  function Retried(s: State, t: nat, ok: bool): State {
    if !Awaits(s.store, t) then s
    else
      var failed := Sent(s.store, t);
      var s := s.(store := Answered(s.store, t));
      if ok then Delivered(s, failed.n, (failed.requestId, failed.errorType))
      else s.(over := s.over + multiset{failed.n})
  }

  function Effect(s: State, e: Event): State {
    match e
    case RaiseError(raise, registrationArn, functionPath) => Raised(s, raise, registrationArn, functionPath)
    case FirstAnswer(t, ok) => First(s, t, ok)
    case BeginRetries(t) => s.(store := Take(s.store, t))
    case RetryNext(t) => Next(s, t)
    case RetryAnswer(t, ok) => Retried(s, t, ok)
    case EndRetries(t) => s.(store := Finish(s.store, t))
    case NewInvocation => s.(sent := {})
  }

  function Step(s: State, e: Event): State {
    Effect(s, e).(clock := s.clock + 1)
  }

  function Run(events: seq<Event>): State {
    if events == [] then INITIAL else Step(Run(events[..|events| - 1]), events[|events| - 1])
  }

  // ---- Each raise is in one place --------------------------------------------------------

  function Flown(n: nat): seq<nat> { [n] }

  ghost function Places(s: State, n: nat): nat {
    Count(s.flying, Flown, n) + Waiting(s.store, SerialOf, n) + s.over[n]
  }

  ghost predicate InBooks(s: State, n: nat) {
    && Places(s, n) == (if n < |s.raises| then 1 else 0)
    && (forall t <- s.flying :: t < s.clock && s.flying[t] < |s.raises|)
  }

  lemma RaiseBooked(s: State, raise: Raise, registrationArn: string, functionPath: string, n: nat)
    requires InBooks(s, n)
    ensures InBooks(Raised(s, raise, registrationArn, functionPath).(clock := s.clock + 1), n)
  {
    hide Bag, Waiting, FirstArn;
    var next: nat := |s.raises|;
    CountUpdate(s.flying, s.clock, next, Flown, n);
  }

  lemma PushWaits(store: Store<FailedError>, failed: FailedError, n: nat)
    ensures Waiting(store.(buf := store.buf + [failed]), SerialOf, n) == Waiting(store, SerialOf, n) + One(failed.n, n)
  {
    hide Bag, Serials;
    SerialsOfPush(store.buf, failed, SerialOf, n);
  }

  lemma FirstBooked(s: State, t: nat, ok: bool, n: nat)
    requires InBooks(s, n)
    ensures InBooks(First(s, t, ok).(clock := s.clock + 1), n)
  {
    if t in s.flying {
      var k := s.flying[t];
      var raise := s.raises[k];
      hide Bag, Waiting;
      CountTake(s.flying, t, Flown, n);
      PushWaits(s.store, FailedError(k, raise.requestId, TypeOf(raise.kind), raise.message, raise.arn, false), n);
    }
  }

  lemma RetryBooked(s: State, t: nat, ok: bool, n: nat)
    requires InBooks(s, n)
    ensures InBooks(Next(s, t).(clock := s.clock + 1), n) && InBooks(Retried(s, t, ok).(clock := s.clock + 1), n)
  {
    hide Waiting, Bag;
    if HasNext(s.store, t) {
      SendWaits(s.store, t, Head(s.store, t).(retried := true), SerialOf, n);
    }
    if Awaits(s.store, t) {
      AnsweredWaits(s.store, t, SerialOf, n);
    }
  }

  lemma StepBooked(s: State, e: Event, n: nat)
    requires InBooks(s, n)
    ensures InBooks(Step(s, e), n)
  {
    hide Waiting, Bag, Raised, First, Next, Retried, Take, Finish;
    match e
    case RaiseError(raise, registrationArn, functionPath) => RaiseBooked(s, raise, registrationArn, functionPath, n);
    case FirstAnswer(t, ok) => FirstBooked(s, t, ok, n);
    case BeginRetries(t) => TakeWaits(s.store, t, SerialOf, n);
    case RetryNext(t) => RetryBooked(s, t, false, n);
    case RetryAnswer(t, ok) => RetryBooked(s, t, ok, n);
    case EndRetries(t) => FinishWaits(s.store, t, SerialOf, n);
    case NewInvocation =>
  }

  /** Every raised error is in its first send, waits for its retry, is being retried, or is over; never twice. */
  lemma {:induction false} EveryRaiseIsBooked(events: seq<Event>, n: nat)
    ensures InBooks(Run(events), n)
  {
    if events == [] {
      NoSerials(SerialOf, n);
    } else {
      EveryRaiseIsBooked(events[..|events| - 1], n);
      StepBooked(Run(events[..|events| - 1]), events[|events| - 1], n);
    }
  }

  // ---- Two attempts at most --------------------------------------------------------------

  /** A queued error is the raise it came from and has been attempted once, or twice while its retry is under way. */
  function Queued(raises: seq<Raise>, tries: map<nat, nat>): FailedError -> bool {
    (failed: FailedError) =>
      && failed.n < |raises|
      && KeyOf(raises[failed.n]) == (failed.requestId, failed.errorType)
      && failed.arn == raises[failed.n].arn
      && TriesOf(tries, failed.n) == if failed.retried then 2 else 1
  }

  ghost predicate NotYetRetried(store: Store<FailedError>) {
    && (forall x <- store.buf :: !x.retried)
    && (forall t <- store.passes :: forall x <- store.passes[t].todo :: !x.retried)
  }

  /** A retry carries the ARN as it was passed in; a first send of a Lambda error never carries an empty one. */
  predicate AttemptTrue(a: Attempt, raises: seq<Raise>) {
    && a.n < |raises|
    && (a.retry ==> a.arn == raises[a.n].arn)
    && (!a.retry && raises[a.n].kind.LambdaError? ==> a.arn != "")
    && (!a.retry && raises[a.n].arn != "" ==> a.arn == raises[a.n].arn)
  }

  ghost predicate FirstTries(flying: map<nat, nat>, raises: seq<Raise>, tries: map<nat, nat>) {
    forall t <- flying :: flying[t] < |raises| && TriesOf(tries, flying[t]) == 1
  }

  ghost predicate AttemptsTrue(attempts: seq<Attempt>, raises: seq<Raise>) {
    forall i :: 0 <= i < |attempts| ==> AttemptTrue(attempts[i], raises)
  }

  ghost predicate Sound(s: State) {
    && Every(s.store, Queued(s.raises, s.tries))
    && NotYetRetried(s.store)
    && FirstTries(s.flying, s.raises, s.tries)
    && (forall n <- s.tries :: n < |s.raises| && s.tries[n] <= 2)
    && AttemptsTrue(s.attempts, s.raises)
    && s.sent <= s.delivered
  }

  lemma RaiseSound(s: State, raise: Raise, registrationArn: string, functionPath: string)
    requires Sound(s)
    ensures Sound(Raised(s, raise, registrationArn, functionPath))
  {
    if KeyOf(raise) !in s.sent {
      var n := |s.raises|;
      var raises, tries := s.raises + [raise], s.tries[n := 1];
      var p, q := Queued(s.raises, s.tries), Queued(raises, tries);
      forall x | p(x) ensures q(x) {
      }
      EveryImplies(s.store, p, q);
      hide Queued, Every, NotYetRetried;
      forall i | 0 <= i < |s.attempts| ensures AttemptTrue(s.attempts[i], raises) {
      }
      assert AttemptTrue(Attempt(n, false, FirstArn(raise, registrationArn, functionPath)), raises);
      hide AttemptTrue, FirstArn;
    }
  }

  lemma FirstSound(s: State, t: nat, ok: bool)
    requires Sound(s)
    ensures Sound(First(s, t, ok))
  {
    if t in s.flying {
      var n := s.flying[t];
      var raise := s.raises[n];
      var failed := FailedError(n, raise.requestId, TypeOf(raise.kind), raise.message, raise.arn, false);
      assert Queued(s.raises, s.tries)(failed);
      hide Queued, Every, AttemptTrue;
      PushKeepsEvery(s.store, failed, 1, Queued(s.raises, s.tries));
    }
  }

  lemma RetryKeepsItems(store: Store<FailedError>, t: nat, raises: seq<Raise>, tries: map<nat, nat>)
    requires HasNext(store, t) && Every(store, Queued(raises, tries)) && !Head(store, t).retried
    requires Waiting(store, SerialOf, Head(store, t).n) <= 1
    ensures var failed := Head(store, t);
      var more := tries[failed.n := TriesOf(tries, failed.n) + 1];
      Every(Send(store, t, failed.(retried := true)), Queued(raises, more)) && more[failed.n] == 2
  {
    var failed := Head(store, t);
    var more := tries[failed.n := TriesOf(tries, failed.n) + 1];
    var p, q := Queued(raises, tries), Queued(raises, more);
    MovesKeepEvery(store, t, p);
    assert p(failed);
    forall x | p(x) && SerialOf(x) != failed.n ensures q(x) {
    }
    assert q(failed.(retried := true));
    hide Queued, Waiting, Every;
    SkipWaits(store, t, SerialOf, failed.n);
    EveryOther(Skip(store, t), SerialOf, failed.n, p, q);
    SendAfterSkip(store, t, failed.(retried := true), q);
  }

  /** No first send of a raise that already waits for its retry is under way. */
  lemma NotFlying(s: State, t: nat)
    requires HasNext(s.store, t) && InBooks(s, Head(s.store, t).n)
    ensures Head(s.store, t).n < |s.raises| && Waiting(s.store, SerialOf, Head(s.store, t).n) <= 1
    ensures forall u <- s.flying :: s.flying[u] != Head(s.store, t).n
  {
    hide Bag;
    var n := Head(s.store, t).n;
    SkipWaits(s.store, t, SerialOf, n);
    assert Count(s.flying, Flown, n) == 0;
    forall u | u in s.flying ensures s.flying[u] != n {
      CountTake(s.flying, u, Flown, n);
    }
  }

  lemma HeadIsQueued(s: State, t: nat)
    requires Sound(s) && HasNext(s.store, t)
    ensures Queued(s.raises, s.tries)(Head(s.store, t)) && !Head(s.store, t).retried
    ensures AttemptTrue(Attempt(Head(s.store, t).n, true, Head(s.store, t).arn), s.raises)
  {
    MovesKeepEvery(s.store, t, Queued(s.raises, s.tries));
  }

  lemma SendKeepsFresh(store: Store<FailedError>, t: nat, item: FailedError)
    requires NotYetRetried(store) && HasNext(store, t)
    ensures NotYetRetried(Send(store, t, item))
  {
  }

  lemma NextSound(s: State, t: nat)
    requires Sound(s)
    requires HasNext(s.store, t) ==> InBooks(s, Head(s.store, t).n)
    ensures Sound(Next(s, t))
  {
    if HasNext(s.store, t) {
      hide InBooks, Waiting, Queued, AttemptTrue, AttemptsTrue, FirstTries, Every, NotYetRetried;
      HeadIsQueued(s, t);
      NotFlying(s, t);
      hide Head, Send, HasNext, TriesOf;
      var failed := Head(s.store, t);
      NextKeepsHistory(s, failed.n, failed.arn);
      RetryKeepsItems(s.store, t, s.raises, s.tries);
      SendKeepsFresh(s.store, t, failed.(retried := true));
    }
  }

  lemma NextKeepsHistory(s: State, n: nat, arn: string)
    requires FirstTries(s.flying, s.raises, s.tries) && AttemptsTrue(s.attempts, s.raises)
    requires AttemptTrue(Attempt(n, true, arn), s.raises) && forall u <- s.flying :: s.flying[u] != n
    ensures FirstTries(s.flying, s.raises, s.tries[n := TriesOf(s.tries, n) + 1])
    ensures AttemptsTrue(s.attempts + [Attempt(n, true, arn)], s.raises)
  {
    hide AttemptTrue;
  }

  lemma AnswerSound(s: State, t: nat, ok: bool)
    requires Sound(s)
    ensures Sound(Retried(s, t, ok))
  {
    hide Queued, Every, AttemptTrue;
    MovesKeepEvery(s.store, t, Queued(s.raises, s.tries));
  }

  lemma MovesSound(s: State, t: nat)
    requires Sound(s)
    ensures Sound(s.(store := Take(s.store, t))) && Sound(s.(store := Finish(s.store, t)))
  {
    hide Queued, Every, AttemptTrue;
    MovesKeepEvery(s.store, t, Queued(s.raises, s.tries));
  }

  lemma StepSound(s: State, e: Event)
    requires Sound(s)
    requires e.RetryNext? && HasNext(s.store, e.pass) ==> InBooks(s, Head(s.store, e.pass).n)
    ensures Sound(Step(s, e))
  {
    hide Sound, Raised, First, Next, Retried, Finish, Take, InBooks;
    match e {
      case RaiseError(raise, registrationArn, functionPath) => RaiseSound(s, raise, registrationArn, functionPath);
      case FirstAnswer(t, ok) => FirstSound(s, t, ok);
      case BeginRetries(t) => MovesSound(s, t);
      case RetryNext(t) => NextSound(s, t);
      case RetryAnswer(t, ok) => AnswerSound(s, t, ok);
      case EndRetries(t) => MovesSound(s, t);
      case NewInvocation => ClearSound(s);
    }
    SoundIgnoresClock(Effect(s, e), s.clock + 1);
  }

  lemma SoundIgnoresClock(s: State, clock: nat)
    requires Sound(s)
    ensures Sound(s.(clock := clock))
  {
    hide Queued, Every, AttemptTrue;
  }

  lemma ClearSound(s: State)
    requires Sound(s)
    ensures Sound(s.(sent := {}))
  {
    hide Queued, Every, AttemptTrue;
  }

  lemma {:induction false} AlwaysSound(events: seq<Event>)
    ensures Sound(Run(events))
  {
    if events != [] {
      var s, e := Run(events[..|events| - 1]), events[|events| - 1];
      AlwaysSound(events[..|events| - 1]);
      if e.RetryNext? && HasNext(s.store, e.pass) {
        EveryRaiseIsBooked(events[..|events| - 1], Head(s.store, e.pass).n);
      }
      hide Sound, InBooks, Step;
      StepSound(s, e);
    }
  }

  /** Over any run, each raised error is attempted at most twice, and every key marked as sent was delivered. */
  lemma TwoAttemptsAtMost(events: seq<Event>, n: nat)
    ensures n in Run(events).tries ==> Run(events).tries[n] <= 2
    ensures Run(events).sent <= Run(events).delivered
  {
    AlwaysSound(events);
    hide Run, Every, Queued;
  }

  /** The first send of the raise is over and it does not wait in the queue. */
  ghost predicate OutOfQueue(s: State, n: nat) {
    && n < |s.raises|
    && (forall t <- s.flying :: s.flying[t] != n)
    && (forall x <- s.store.buf :: x.n != n)
  }

  lemma QueueStep(s: State, e: Event, n: nat)
    requires OutOfQueue(s, n)
    ensures OutOfQueue(Step(s, e), n)
  {
    hide FirstArn, TriesOf;
  }

  /**
   * Once its first send is over and it is out of the queue, being retried or done with, an error is never queued
   * again.
   */
  lemma {:induction false} NeverQueuedAgain(events: seq<Event>, i: nat, n: nat)
    requires i <= |events| && OutOfQueue(Run(events[..i]), n)
    ensures OutOfQueue(Run(events), n)
  {
    if i == |events| {
      assert events[..i] == events;
    } else {
      var init := events[..|events| - 1];
      assert init[..i] == events[..i];
      hide OutOfQueue, Step;
      NeverQueuedAgain(init, i, n);
      QueueStep(Run(init), events[|events| - 1], n);
    }
  }

  /**
   * `send_lambda_error` says the ARN is never empty. That holds of every first send; a retry carries the ARN that was
   * passed in, so it holds of a retry exactly if that one was not empty.
   */
  lemma RetryArnExactlyIf(events: seq<Event>, i: nat)
    requires i < |Run(events).attempts|
    ensures var s := Run(events);
      var a := s.attempts[i];
      && a.n < |s.raises|
      && (s.raises[a.n].kind.LambdaError? ==> (a.arn != "" <==> !a.retry || s.raises[a.n].arn != ""))
  {
    AlwaysSound(events);
    assert AttemptTrue(Run(events).attempts[i], Run(events).raises);
    hide Run, Every, Queued;
  }

  lemma RunStep(events: seq<Event>, e: Event)
    ensures Run(events + [e]) == Step(Run(events), e)
  {
    assert (events + [e])[..|events|] == events;
    hide Step;
  }

  lemma RaiseExactly(s: State, raise: Raise, registrationArn: string, functionPath: string)
    ensures var after := Step(s, RaiseError(raise, registrationArn, functionPath));
      var errorType := match raise.kind
        case Timeout => "LambdaTimeout"
        case PlatformFault => "LambdaPlatformFault"
        case LambdaError(given) => given;
      var arn :=
        if !raise.kind.LambdaError? || raise.arn != "" then raise.arn
        else if registrationArn != "" then registrationArn
        else "arn:aws:lambda:" + functionPath;
      && after.sent == s.sent && after.store == s.store
      && if (raise.requestId, errorType) in s.sent then
           after.attempts == s.attempts && after.raises == s.raises && after.flying == s.flying
         else
           && after.attempts == s.attempts + [Attempt(|s.raises|, false, arn)] && after.raises == s.raises + [raise]
           && after.flying == s.flying[s.clock := |s.raises|]
  {
  }

  /**
   * In every run, an error is sent exactly if none of its type was sent for its request since the last invocation
   * began, with the ARN it names or else the first one known.
   */
  lemma SentExactlyIfNew(events: seq<Event>, raise: Raise, registrationArn: string, functionPath: string)
    ensures var s, after := Run(events), Run(events + [RaiseError(raise, registrationArn, functionPath)]);
      var errorType := match raise.kind
        case Timeout => "LambdaTimeout"
        case PlatformFault => "LambdaPlatformFault"
        case LambdaError(given) => given;
      var arn :=
        if !raise.kind.LambdaError? || raise.arn != "" then raise.arn
        else if registrationArn != "" then registrationArn
        else "arn:aws:lambda:" + functionPath;
      && after.sent == s.sent && after.store == s.store
      && if (raise.requestId, errorType) in s.sent then
           after.attempts == s.attempts && after.raises == s.raises && after.flying == s.flying
         else
           && after.attempts == s.attempts + [Attempt(|s.raises|, false, arn)] && after.raises == s.raises + [raise]
           && after.flying == s.flying[s.clock := |s.raises|]
  {
    hide Run, Step;
    RunStep(events, RaiseError(raise, registrationArn, functionPath));
    RaiseExactly(Run(events), raise, registrationArn, functionPath);
  }

  lemma FirstExactly(s: State, t: nat, ok: bool)
    requires t in s.flying && s.flying[t] < |s.raises|
    ensures var after, raise := Step(s, FirstAnswer(t, ok)), s.raises[s.flying[t]];
      var errorType := match raise.kind
        case Timeout => "LambdaTimeout"
        case PlatformFault => "LambdaPlatformFault"
        case LambdaError(given) => given;
      && after.attempts == s.attempts && after.store.passes == s.store.passes
      && (ok ==> after.sent == s.sent + {(raise.requestId, errorType)} && after.store.buf == s.store.buf)
      && (!ok ==>
        && after.sent == s.sent
        && after.store.buf == s.store.buf
             + [FailedError(s.flying[t], raise.requestId, errorType, raise.message, raise.arn, false)])
  {
  }

  lemma AlwaysRaised(events: seq<Event>, t: nat)
    ensures t in Run(events).flying ==> Run(events).flying[t] < |Run(events).raises|
  {
    EveryRaiseIsBooked(events, 0);
    hide Run, Waiting, Bag;
  }

  /**
   * In every run, a first send that fails queues the error for its retry, and one that succeeds marks its type as sent
   * for the request. The answer to a retry queues nothing.
   */
  lemma QueuedExactlyIfFirstFails(events: seq<Event>, t: nat, ok: bool)
    ensures var s, first := Run(events), Run(events + [FirstAnswer(t, ok)]);
      t in s.flying ==>
        && s.flying[t] < |s.raises|
        && var raise := s.raises[s.flying[t]];
        var errorType := match raise.kind
          case Timeout => "LambdaTimeout"
          case PlatformFault => "LambdaPlatformFault"
          case LambdaError(given) => given;
        && first.attempts == s.attempts && first.store.passes == s.store.passes
        && (ok ==> first.sent == s.sent + {(raise.requestId, errorType)} && first.store.buf == s.store.buf)
        && (!ok ==>
          && first.sent == s.sent
          && first.store.buf == s.store.buf
               + [FailedError(s.flying[t], raise.requestId, errorType, raise.message, raise.arn, false)])
    ensures var s, retry := Run(events), Run(events + [RetryAnswer(t, ok)]);
      t in s.store.passes && s.store.passes[t].sending.Some? ==>
        var failed := s.store.passes[t].sending.value;
        && retry.store.buf == s.store.buf && retry.attempts == s.attempts
        && retry.sent == s.sent + if ok then {(failed.requestId, failed.errorType)} else {}
  {
    RetryExactly(Run(events), t, ok);
    hide Run, Step;
    RunStep(events, FirstAnswer(t, ok));
    RunStep(events, RetryAnswer(t, ok));
    AlwaysRaised(events, t);
    if t in Run(events).flying {
      FirstExactly(Run(events), t, ok);
    }
  }

  lemma RetryExactly(s: State, t: nat, ok: bool)
    ensures var after := Step(s, RetryAnswer(t, ok));
      Awaits(s.store, t) ==>
        && after.store.buf == s.store.buf && after.attempts == s.attempts
        && after.sent == s.sent + if ok then {(Sent(s.store, t).requestId, Sent(s.store, t).errorType)} else {}
  {
  }

  lemma FirstSendNamesAnArn(raise: Event)
    requires raise == RaiseError(Raise(LambdaError("E"), "r", "m", ""), "a", "")
    ensures var s := Step(INITIAL, raise);
      && s.flying == map[0 := 0] && s.attempts == [Attempt(0, false, "a")]
      && s.raises == [raise.raise] && s.store == INITIAL.store
  {
  }

  lemma FailsIntoTheQueue(s: State, raise: Raise)
    requires raise == Raise(LambdaError("E"), "r", "m", "")
    requires s.flying == map[0 := 0] && s.raises == [raise] && s.store == INITIAL.store
    ensures var after := Step(s, FirstAnswer(0, false));
      && after.store == Store([FailedError(0, "r", "E", "m", "", false)], map[])
      && after.attempts == s.attempts && after.raises == s.raises
  {
    assert [] + [FailedError(0, "r", "E", "m", "", false)] == [FailedError(0, "r", "E", "m", "", false)];
  }

  lemma QueueIsTaken(s: State)
    requires s.store == Store([FailedError(0, "r", "E", "m", "", false)], map[])
    ensures var after := Step(s, BeginRetries(0));
      && HasNext(after.store, 0) && Head(after.store, 0) == FailedError(0, "r", "E", "m", "", false)
      && after.attempts == s.attempts
  {
  }

  lemma RetryIsSent(s: State)
    requires HasNext(s.store, 0) && Head(s.store, 0) == FailedError(0, "r", "E", "m", "", false)
    ensures Step(s, RetryNext(0)).attempts == s.attempts + [Attempt(0, true, "")]
  {
    hide Send, HasNext, Head, TriesOf;
  }

  /** A retry with an empty ARN does happen. */
  lemma EmptyArnOnRetry() returns (events: seq<Event>)
    ensures Run(events).attempts == [Attempt(0, false, "a")] + [Attempt(0, true, "")]
  {
    var raise := RaiseError(Raise(LambdaError("E"), "r", "m", ""), "a", "");
    assert Run([]) == INITIAL;
    hide Run, Step, HasNext, Head;
    FirstSendNamesAnArn(raise);
    var s1 := Step(INITIAL, raise);
    FailsIntoTheQueue(s1, raise.raise);
    var s2 := Step(s1, FirstAnswer(0, false));
    QueueIsTaken(s2);
    RetryIsSent(Step(s2, BeginRetries(0)));
    RunStep([], raise);
    RunStep([] + [raise], FirstAnswer(0, false));
    RunStep([] + [raise] + [FirstAnswer(0, false)], BeginRetries(0));
    RunStep([] + [raise] + [FirstAnswer(0, false)] + [BeginRetries(0)], RetryNext(0));
    events := [] + [raise] + [FirstAnswer(0, false)] + [BeginRetries(0)] + [RetryNext(0)];
  }

  // ---- The globals as code ---------------------------------------------------------------

  function KeysSent(failed: seq<FailedError>, oks: seq<bool>): set<(string, string)>
    requires |failed| <= |oks|
  {
    set i | 0 <= i < |failed| && oks[i] :: (failed[i].requestId, failed[i].errorType)
  }

  class SynthesizedErrors {
    var sent: set<(string, string)>
    var failed: seq<FailedError>

    constructor ()
      ensures sent == {} && failed == []
    {
      sent, failed := {}, [];
    }

    /** The three senders, when nothing else runs while they send. */
    method Send(n: nat, raise: Raise, registrationArn: string, functionPath: string, ok: bool)
      returns (arn: Option<string>)
      modifies this
      ensures var errorType := match raise.kind
          case Timeout => "LambdaTimeout"
          case PlatformFault => "LambdaPlatformFault"
          case LambdaError(given) => given;
        if (raise.requestId, errorType) in old(sent) then arn == None && sent == old(sent) && failed == old(failed)
        else
          && arn == Some(
               if !raise.kind.LambdaError? || raise.arn != "" then raise.arn
               else if registrationArn != "" then registrationArn
               else "arn:aws:lambda:" + functionPath)
          && sent == (if ok then old(sent) + {(raise.requestId, errorType)} else old(sent))
          && failed == if ok then old(failed)
               else old(failed) + [FailedError(n, raise.requestId, errorType, raise.message, raise.arn, false)]
    {
      if KeyOf(raise) in sent {
        return None;
      }
      arn := Some(raise.arn);
      if raise.kind.LambdaError? && raise.arn == "" {
        arn := Some(if registrationArn != "" then registrationArn else "arn:aws:lambda:" + functionPath);
      }
      if ok {
        sent := sent + {KeyOf(raise)};
      } else {
        failed := failed + [FailedError(n, raise.requestId, TypeOf(raise.kind), raise.message, raise.arn, false)];
      }
    }

    /** `retry_failed_errors`: the queue is cleared first, and nothing is queued again. */
    method RetryFailed(oks: seq<bool>) returns (retried: bool)
      requires |failed| <= |oks|
      modifies this
      ensures retried <==> old(failed) != []
      ensures failed == [] && sent == old(sent) + KeysSent(old(failed), oks)
      ensures forall key :: key in sent <==> key in old(sent) || exists i ::
        && 0 <= i < |old(failed)| && oks[i]
        && key == (old(failed)[i].requestId, old(failed)[i].errorType)
    {
      retried := failed != [];
      var errors := failed;
      failed := [];
      for i := 0 to |errors|
        invariant failed == [] && sent == old(sent) + KeysSent(errors[..i], oks)
      {
        KeysSentOneMore(errors, oks, i);
        if oks[i] {
          sent := sent + {(errors[i].requestId, errors[i].errorType)};
        }
      }
      assert errors[..|errors|] == errors;
    }
  }

  lemma KeysSentOneMore(errors: seq<FailedError>, oks: seq<bool>, i: nat)
    requires i < |errors| <= |oks|
    ensures KeysSent(errors[..i + 1], oks)
            == KeysSent(errors[..i], oks) + if oks[i] then {(errors[i].requestId, errors[i].errorType)} else {}
  {
    var before, after := errors[..i], errors[..i + 1];
    assert forall j :: 0 <= j < i ==> after[j] == before[j];
    assert after[i] == errors[i];
  }
}
