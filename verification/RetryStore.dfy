/**
 * What the three retry buffers share: a pass takes the whole buffer, then works through it item by item, suspended
 * at each send, while other code may push to the buffer or start another pass. Each buffer's own rules for ageing,
 * counting and capping are in its module.
 */
module RetryStore {
  import opened Types
  import opened Bags

  /** `sending` is the item whose send the pass waits for. */
  datatype Pass<T> = Pass(todo: seq<T>, sending: Option<T>)

  datatype Store<T> = Store(buf: seq<T>, passes: map<nat, Pass<T>>)

  function Take<T>(st: Store<T>, t: nat): Store<T> {
    if |st.buf| == 0 || t in st.passes then st else Store([], st.passes[t := Pass(st.buf, None)])
  }

  predicate HasNext<T>(st: Store<T>, t: nat) {
    t in st.passes && st.passes[t].sending.None? && |st.passes[t].todo| > 0
  }

  predicate Awaits<T>(st: Store<T>, t: nat) {
    t in st.passes && st.passes[t].sending.Some?
  }

  function Head<T>(st: Store<T>, t: nat): T
    requires HasNext(st, t)
  {
    st.passes[t].todo[0]
  }

  /** The head leaves the pass unsent. */
  function Skip<T>(st: Store<T>, t: nat): Store<T>
    requires HasNext(st, t)
  {
    st.(passes := st.passes[t := Pass(st.passes[t].todo[1..], None)])
  }

  /** The head, as updated for the try, is being sent. */
  function Send<T>(st: Store<T>, t: nat, item: T): Store<T>
    requires HasNext(st, t)
  {
    st.(passes := st.passes[t := Pass(st.passes[t].todo[1..], Some(item))])
  }

  function Sent<T>(st: Store<T>, t: nat): T
    requires Awaits(st, t)
  {
    st.passes[t].sending.value
  }

  function Answered<T>(st: Store<T>, t: nat): Store<T>
    requires Awaits(st, t)
  {
    st.(passes := st.passes[t := Pass(st.passes[t].todo, None)])
  }

  function Finish<T>(st: Store<T>, t: nat): Store<T> {
    if t in st.passes && |st.passes[t].todo| == 0 && st.passes[t].sending.None?
    then st.(passes := st.passes - {t})
    else st
  }

  /** A push that evicts the oldest from a full buffer. */
  function CappedPush<T>(buf: seq<T>, item: T, cap: nat): (r: seq<T>)
    requires cap > 0
    ensures |r| == if |buf| >= cap then |buf| else |buf| + 1
  {
    if |buf| >= cap then buf[1..] + [item] else buf + [item]
  }

  function Evicted<T>(buf: seq<T>, cap: nat): seq<T>
    requires cap > 0
  {
    if |buf| >= cap then [buf[0]] else []
  }

  // ---- Where an item is ------------------------------------------------------------------

  function Serials<T>(items: seq<T>, serial: T -> nat): (r: seq<nat>)
    ensures |r| == |items|
  {
    seq(|items|, i requires 0 <= i < |items| => serial(items[i]))
  }

  function Owned<T>(serial: T -> nat): Pass<T> -> seq<nat> {
    (pass: Pass<T>) => Serials(if pass.sending.Some? then [pass.sending.value] + pass.todo else pass.todo, serial)
  }

  /** How often the item numbered `n` is in the buffer or in a pass. */
  ghost function Waiting<T>(st: Store<T>, serial: T -> nat, n: nat): nat {
    multiset(Serials(st.buf, serial))[n] + Count(st.passes, Owned(serial), n)
  }

  function One(n: nat, k: nat): nat {
    if n == k then 1 else 0
  }

  lemma SerialsConcat<T>(a: seq<T>, b: seq<T>, serial: T -> nat, n: nat)
    ensures Serials(a + b, serial) == Serials(a, serial) + Serials(b, serial)
    ensures multiset(Serials(a + b, serial))[n] == multiset(Serials(a, serial))[n] + multiset(Serials(b, serial))[n]
  {
    assert Serials(a + b, serial) == Serials(a, serial) + Serials(b, serial);
  }

  lemma SerialsOfOne<T>(item: T, serial: T -> nat, n: nat)
    ensures multiset(Serials([item], serial))[n] == One(serial(item), n)
  {
    assert Serials([item], serial) == [serial(item)];
  }

  lemma SerialsOfPush<T>(buf: seq<T>, item: T, serial: T -> nat, n: nat)
    ensures multiset(Serials(buf + [item], serial))[n] == multiset(Serials(buf, serial))[n] + One(serial(item), n)
  {
    SerialsConcat(buf, [item], serial, n);
    SerialsOfOne(item, serial, n);
  }

  lemma SerialsOfHead<T>(items: seq<T>, serial: T -> nat, n: nat)
    requires |items| > 0
    ensures multiset(Serials(items, serial))[n] == One(serial(items[0]), n) + multiset(Serials(items[1..], serial))[n]
  {
    assert items == [items[0]] + items[1..];
    SerialsConcat([items[0]], items[1..], serial, n);
    SerialsOfOne(items[0], serial, n);
  }

  lemma OwnedWhileSending<T>(item: T, todo: seq<T>, serial: T -> nat, n: nat)
    ensures multiset(Owned(serial)(Pass(todo, Some(item))))[n]
      == One(serial(item), n) + multiset(Serials(todo, serial))[n]
  {
    assert ([item] + todo)[1..] == todo;
    SerialsOfHead([item] + todo, serial, n);
  }

  lemma CappedPushCount<T>(buf: seq<T>, item: T, cap: nat, serial: T -> nat, n: nat)
    requires cap > 0
    ensures multiset(Serials(CappedPush(buf, item, cap), serial))[n] + multiset(Serials(Evicted(buf, cap), serial))[n]
            == multiset(Serials(buf, serial))[n] + One(serial(item), n)
  {
    hide Serials, One;
    SerialsOfPush(buf, item, serial, n);
    if |buf| >= cap {
      SerialsOfHead(buf, serial, n);
      SerialsOfOne(buf[0], serial, n);
      SerialsOfPush(buf[1..], item, serial, n);
    } else {
      assert multiset(Serials([], serial))[n] == 0 by { NoSerials(serial, n); }
    }
  }

  lemma NoSerials<T>(serial: T -> nat, n: nat)
    ensures Serials([], serial) == [] && multiset(Serials([], serial))[n] == 0
  {
  }

  lemma TakeWaits<T>(st: Store<T>, t: nat, serial: T -> nat, n: nat)
    ensures Waiting(Take(st, t), serial, n) == Waiting(st, serial, n)
  {
    hide Bag;
    CountUpdate(st.passes, t, Pass(st.buf, None), Owned(serial), n);
    NoSerials(serial, n);
  }

  lemma SkipWaits<T>(st: Store<T>, t: nat, serial: T -> nat, n: nat)
    requires HasNext(st, t)
    ensures Waiting(Skip(st, t), serial, n) + One(serial(Head(st, t)), n) == Waiting(st, serial, n)
  {
    hide Bag;
    CountUpdate(st.passes, t, Pass(st.passes[t].todo[1..], None), Owned(serial), n);
    SerialsOfHead(st.passes[t].todo, serial, n);
  }

  lemma SendWaits<T>(st: Store<T>, t: nat, item: T, serial: T -> nat, n: nat)
    requires HasNext(st, t) && serial(item) == serial(Head(st, t))
    ensures Waiting(Send(st, t, item), serial, n) == Waiting(st, serial, n)
  {
    hide Bag;
    CountUpdate(st.passes, t, Pass(st.passes[t].todo[1..], Some(item)), Owned(serial), n);
    SerialsOfHead(st.passes[t].todo, serial, n);
    OwnedWhileSending(item, st.passes[t].todo[1..], serial, n);
  }

  lemma AnsweredWaits<T>(st: Store<T>, t: nat, serial: T -> nat, n: nat)
    requires Awaits(st, t)
    ensures Waiting(Answered(st, t), serial, n) + One(serial(Sent(st, t)), n) == Waiting(st, serial, n)
  {
    hide Bag;
    CountUpdate(st.passes, t, Pass(st.passes[t].todo, None), Owned(serial), n);
    OwnedWhileSending(Sent(st, t), st.passes[t].todo, serial, n);
  }

  lemma FinishWaits<T>(st: Store<T>, t: nat, serial: T -> nat, n: nat)
    ensures Waiting(Finish(st, t), serial, n) == Waiting(st, serial, n)
  {
    hide Bag;
    if t in st.passes {
      CountTake(st.passes, t, Owned(serial), n);
      NoSerials(serial, n);
    }
  }

  // ---- What holds of every item ----------------------------------------------------------

  ghost predicate Every<T(!new)>(st: Store<T>, p: T -> bool) {
    && (forall x <- st.buf :: p(x))
    && (forall t <- st.passes :: EveryIn(st.passes[t], p))
  }

  ghost predicate EveryIn<T(!new)>(pass: Pass<T>, p: T -> bool) {
    (forall x <- pass.todo :: p(x)) && (pass.sending.Some? ==> p(pass.sending.value))
  }

  lemma MovesKeepEvery<T(!new)>(st: Store<T>, t: nat, p: T -> bool)
    requires Every(st, p)
    ensures Every(Take(st, t), p) && Every(Finish(st, t), p)
    ensures HasNext(st, t) ==> p(Head(st, t)) && Every(Skip(st, t), p)
    ensures Awaits(st, t) ==> p(Sent(st, t)) && Every(Answered(st, t), p)
  {
    assert t in st.passes ==> EveryIn(st.passes[t], p);
  }

  lemma SendKeepsEvery<T(!new)>(st: Store<T>, t: nat, item: T, p: T -> bool)
    requires Every(st, p) && HasNext(st, t) && p(item)
    ensures Every(Send(st, t, item), p)
  {
    assert EveryIn(st.passes[t], p);
  }

  lemma PushKeepsEvery<T(!new)>(st: Store<T>, item: T, cap: nat, p: T -> bool)
    requires Every(st, p) && p(item) && cap > 0
    ensures Every(st.(buf := st.buf + [item]), p) && Every(st.(buf := CappedPush(st.buf, item, cap)), p)
  {
  }

  /** Where nothing has number `n`, what holds of every item with another number holds of all. */
  lemma EveryOther<T(!new)>(st: Store<T>, serial: T -> nat, n: nat, p: T -> bool, q: T -> bool)
    requires Waiting(st, serial, n) == 0 && Every(st, p)
    requires forall x :: p(x) && serial(x) != n ==> q(x)
    ensures Every(st, q)
  {
    hide Bag;
    NotSerial(st.buf, serial, n);
    forall u | u in st.passes ensures EveryIn(st.passes[u], q) {
      CountTake(st.passes, u, Owned(serial), n);
      var pass := st.passes[u];
      var members := if pass.sending.Some? then [pass.sending.value] + pass.todo else pass.todo;
      NotSerial(members, serial, n);
      assert forall x <- pass.todo :: x in members;
      assert EveryIn(pass, p);
    }
  }

  /** An item is sent in the place it leaves. */
  lemma SendAfterSkip<T(!new)>(st: Store<T>, t: nat, item: T, p: T -> bool)
    requires HasNext(st, t) && Every(Skip(st, t), p) && p(item)
    ensures Every(Send(st, t, item), p)
  {
    assert EveryIn(Skip(st, t).passes[t], p);
    forall u | u in Send(st, t, item).passes ensures EveryIn(Send(st, t, item).passes[u], p) {
      assert u != t ==> EveryIn(Skip(st, t).passes[u], p);
    }
  }

  lemma NotSerial<T(!new)>(items: seq<T>, serial: T -> nat, n: nat)
    requires multiset(Serials(items, serial))[n] == 0
    ensures forall x <- items :: serial(x) != n
  {
    forall i | 0 <= i < |items| ensures serial(items[i]) != n {
      assert Serials(items, serial)[i] == serial(items[i]);
      assert Serials(items, serial)[i] in multiset(Serials(items, serial));
    }
  }

  lemma EveryImplies<T(!new)>(st: Store<T>, p: T -> bool, q: T -> bool)
    requires Every(st, p) && forall x :: p(x) ==> q(x)
    ensures Every(st, q)
  {
    forall t | t in st.passes ensures EveryIn(st.passes[t], q) {
      assert EveryIn(st.passes[t], p);
    }
  }

  // ---- What a pass that nothing interrupts leaves ----------------------------------------

  /** What the items leave behind, one after the other, when `after` says what each try leaves. */
  function Leftover<T, A>(items: seq<T>, script: seq<A>, after: (T, A) -> Option<T>): seq<T>
    requires |items| <= |script|
  {
    if |items| == 0 then []
    else
      var k := |items| - 1;
      var left := after(items[k], script[k]);
      if left.Some? then Leftover(items[..k], script, after) + [left.value] else Leftover(items[..k], script, after)
  }

  /** `at` lists in order the positions of the items of which something is left. */
  ghost predicate Picks<T, A>(at: seq<nat>, items: seq<T>, script: seq<A>, after: (T, A) -> Option<T>)
    requires |items| <= |script|
  {
    && (forall i :: 0 <= i < |at| ==> at[i] < |items|)
    && (forall i, j :: 0 <= i < j < |at| ==> at[i] < at[j])
    && (forall k :: 0 <= k < |items| ==> (k in at <==> after(items[k], script[k]).Some?))
  }

  lemma PicksOneMore<T, A>(at: seq<nat>, items: seq<T>, script: seq<A>, after: (T, A) -> Option<T>)
    requires 0 < |items| <= |script|
    requires Picks(at, items[..|items| - 1], script, after)
    ensures var k := |items| - 1;
      Picks(if after(items[k], script[k]).Some? then at + [k] else at, items, script, after)
  {
    var k := |items| - 1;
    var init := items[..k];
    forall j | 0 <= j < k ensures j in at <==> after(items[j], script[j]).Some? {
      assert init[j] == items[j];
    }
    assert k !in at;
  }

  /** `left[i]` is what the item at position `at[i]` left. */
  ghost predicate LeftAt<T(!new), A(!new)>(left: seq<T>, at: seq<nat>, items: seq<T>, script: seq<A>,
                                           after: (T, A) -> Option<T>)
    requires |items| <= |script|
  {
    |at| == |left| && forall i :: 0 <= i < |at| ==>
      at[i] < |items| && after(items[at[i]], script[at[i]]) == Some(left[i])
  }

  lemma LeftAtOneMore<T(!new), A(!new)>(left: seq<T>, at: seq<nat>, items: seq<T>, script: seq<A>,
                                        after: (T, A) -> Option<T>)
    requires 0 < |items| <= |script|
    requires LeftAt(left, at, items[..|items| - 1], script, after)
    ensures LeftAt(left, at, items, script, after)
    ensures var k := |items| - 1;
      after(items[k], script[k]).Some? ==>
        LeftAt(left + [after(items[k], script[k]).value], at + [k], items, script, after)
  {
    var init := items[..|items| - 1];
    forall i | 0 <= i < |at| ensures at[i] < |items| && after(items[at[i]], script[at[i]]) == Some(left[i]) {
      assert init[at[i]] == items[at[i]];
    }
  }

  /** The leftover is a subsequence of the items: exactly those of which something is left, each as it was left. */
  lemma {:induction false} LeftoverIsASubsequence<T(!new), A(!new)>(items: seq<T>, script: seq<A>,
                                                                    after: (T, A) -> Option<T>)
    returns (at: seq<nat>)
    requires |items| <= |script|
    ensures Picks(at, items, script, after) && LeftAt(Leftover(items, script, after), at, items, script, after)
  {
    if |items| == 0 {
      at := [];
    } else {
      var k := |items| - 1;
      hide Picks, LeftAt;
      at := LeftoverIsASubsequence(items[..k], script, after);
      PicksOneMore(at, items, script, after);
      LeftAtOneMore(Leftover(items[..k], script, after), at, items, script, after);
      if after(items[k], script[k]).Some? {
        at := at + [k];
      }
    }
  }

  lemma {:induction false} LeftoverHead<T, A>(items: seq<T>, script: seq<A>, after: (T, A) -> Option<T>)
    requires 0 < |items| <= |script|
    ensures var left := after(items[0], script[0]);
      Leftover(items, script, after)
      == (if left.Some? then [left.value] else []) + Leftover(items[1..], script[1..], after)
  {
    var k := |items| - 1;
    if k > 0 {
      LeftoverHead(items[..k], script, after);
      assert items[..k][1..] == items[1..][..k - 1];
    }
  }
}
