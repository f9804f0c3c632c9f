/**
 * The buffer of agent payloads that failed to reach the APM collector, and one retry pass over it
 * (src/event_loop.rs).
 */
module FailedPayloads {
  import opened Types
  import opened RetryStore

  const MAX_FAILED_AGENT_PAYLOADS := 500
  const HOUR_MS := 60 * 60 * 1000

  /** `serial` is the number of payloads accepted before this one; it stays with the payload. */
  datatype Item = Item(serial: nat, requestId: string, bytes: seq<Byte>, retryCount: nat, failedAt: int)

  function SerialOf(item: Item): nat { item.serial }

  function AgeInHours(item: Item, now: int): int {
    TruncatedUnits(now - item.failedAt, HOUR_MS)
  }

  predicate TooOld(item: Item, now: int) {
    AgeInHours(item, now) > 24
  }

  function Bumped(item: Item): Item {
    item.(retryCount := item.retryCount + 1)
  }

  function Recent(items: seq<Item>, now: int): seq<Item> {
    if items == [] then []
    else
      var last := items[|items| - 1];
      if AgeInHours(last, now) <= 24 then Recent(items[..|items| - 1], now) + [last]
      else Recent(items[..|items| - 1], now)
  }

  function Expired(items: seq<Item>, now: int): seq<Item> {
    if items == [] then []
    else
      var last := items[|items| - 1];
      if AgeInHours(last, now) <= 24 then Expired(items[..|items| - 1], now)
      else Expired(items[..|items| - 1], now) + [last]
  }

  /** Whole hours, truncated: more than 24 of them are at least 25 hours. */
  lemma MoreThanADay(item: Item, now: int)
    ensures AgeInHours(item, now) > 24 <==> now - item.failedAt >= 25 * 3_600_000
    ensures AgeInHours(item, now) >= 24 <==> now - item.failedAt >= 24 * 3_600_000
  {
  }

  lemma {:induction false} PurgeKeepsTheRecent(items: seq<Item>, now: int, item: Item)
    ensures item in Recent(items, now) <==> item in items && now - item.failedAt < 25 * 3_600_000
    ensures item in Expired(items, now) <==> item in items && now - item.failedAt >= 25 * 3_600_000
  {
    MoreThanADay(item, now);
    hide AgeInHours;
    if items != [] {
      assert items == items[..|items| - 1] + [items[|items| - 1]];
      PurgeKeepsTheRecent(items[..|items| - 1], now, item);
    }
  }

  /** The purge keeps the order: what it leaves are the payloads at increasing positions, each as it was. */
  lemma {:induction false} PurgeKeepsOrder(items: seq<Item>, now: int) returns (at: seq<nat>)
    ensures |at| == |Recent(items, now)| && forall i, j :: 0 <= i < j < |at| ==> at[i] < at[j]
    ensures forall i :: 0 <= i < |at| ==> at[i] < |items| && Recent(items, now)[i] == items[at[i]]
    ensures forall k :: 0 <= k < |items| ==> (k in at <==> now - items[k].failedAt < 25 * 3_600_000)
  {
    at := [];
    if items != [] {
      hide AgeInHours;
      var k := |items| - 1;
      var init := items[..k];
      at := PurgeKeepsOrder(init, now);
      MoreThanADay(items[k], now);
      assert forall j :: 0 <= j < k ==> init[j] == items[j];
      assert k !in at;
      if AgeInHours(items[k], now) <= 24 {
        assert Recent(items, now) == Recent(init, now) + [items[k]];
        at := at + [k];
      }
    }
  }

  /**
   * What the environment does to one payload of a pass: the clock it is checked against, and whether it got through.
   */
  datatype Attempt = Attempt(now: int, delivered: bool)

  /** What an attempt leaves of a payload. */
  function Left(item: Item, a: Attempt): Option<Item> {
    if TooOld(item, a.now) || a.delivered then None else Some(Bumped(item))
  }

  function DroppedForAge(items: seq<Item>, script: seq<Attempt>): nat
    requires |items| <= |script|
  {
    if items == [] then 0
    else
      var k := |items| - 1;
      DroppedForAge(items[..k], script) + if TooOld(items[k], script[k].now) then 1 else 0
  }

  lemma LeftExactlyIf(item: Item, a: Attempt)
    ensures Left(item, a) ==
      if a.now - item.failedAt < 25 * 3_600_000 && !a.delivered then Some(Bumped(item)) else None
  {
    MoreThanADay(item, a.now);
    hide AgeInHours;
  }

  /**
   * A pass that nothing interrupts leaves a subsequence of the old buffer, each payload with one more retry: exactly
   * those that failed less than 25 hours ago and were not delivered.
   */
  lemma PassLeavesASubsequence(items: seq<Item>, script: seq<Attempt>, left: seq<Item>) returns (at: seq<nat>)
    requires |items| <= |script| && left == Leftover(items, script, Left)
    ensures |at| == |left| && forall i, j :: 0 <= i < j < |at| ==> at[i] < at[j]
    ensures forall i :: 0 <= i < |at| ==> at[i] < |items| && left[i] == Bumped(items[at[i]])
    ensures forall k :: 0 <= k < |items| ==>
      (k in at <==> script[k].now - items[k].failedAt < 25 * 3_600_000 && !script[k].delivered)
  {
    at := LeftoverIsASubsequence(items, script, Left);
    hide Leftover, Left, Bumped;
    forall k | 0 <= k < |items|
      ensures Left(items[k], script[k]) ==
        if script[k].now - items[k].failedAt < 25 * 3_600_000 && !script[k].delivered then Some(Bumped(items[k]))
        else None
    {
      LeftExactlyIf(items[k], script[k]);
    }
  }

  /** A payload that is put back differs from itself by one retry. */
  lemma OneMoreRetry(item: Item)
    ensures Bumped(item) == Item(item.serial, item.requestId, item.bytes, item.retryCount + 1, item.failedAt)
  {
  }

  /** A pass drops for their age exactly those that failed at least 25 hours ago. */
  lemma {:induction false} DroppedForAgeIs(items: seq<Item>, script: seq<Attempt>)
    requires |items| <= |script|
    ensures DroppedForAge(items, script)
            == |set k | 0 <= k < |items| && script[k].now - items[k].failedAt >= 25 * 3_600_000|
  {
    var dropped := set k | 0 <= k < |items| && script[k].now - items[k].failedAt >= 25 * 3_600_000;
    if items != [] {
      var init := items[..|items| - 1];
      DroppedForAgeIs(init, script);
      MoreThanADay(items[|init|], script[|init|].now);
      hide AgeInHours;
      var earlier := set k | 0 <= k < |init| && script[k].now - init[k].failedAt >= 25 * 3_600_000;
      assert dropped == if TooOld(items[|init|], script[|init|].now) then earlier + {|init|} else earlier;
    }
  }

  lemma SameAge(item: Item, now: int)
    ensures AgeInHours(Bumped(item), now) == AgeInHours(item, now)
  {
  }

  lemma NothingTried(script: seq<Attempt>)
    ensures DroppedForAge([], script) == 0 && Leftover([], script, Left) == []
  {
  }

  lemma PassOneMore(items: seq<Item>, script: seq<Attempt>, i: nat)
    requires i < |items| <= |script|
    ensures var older := AgeInHours(Bumped(items[i]), script[i].now) > 24;
      && DroppedForAge(items[..i + 1], script) == DroppedForAge(items[..i], script) + (if older then 1 else 0)
      && Leftover(items[..i + 1], script, Left)
         == Leftover(items[..i], script, Left) + if older || script[i].delivered then [] else [Bumped(items[i])]
  {
    hide AgeInHours;
    assert items[..i + 1][..i] == items[..i];
    SameAge(items[i], script[i].now);
  }

  class FailedAgentPayloads {
    var buf: seq<Item>
    var dropped: nat

    constructor ()
      ensures buf == [] && dropped == 0
    {
      buf, dropped := [], 0;
    }

    /** `push_failed_payload_capped`, the single choke point. */
    method PushCapped(item: Item)
      modifies this
      ensures buf == CappedPush(old(buf), item, MAX_FAILED_AGENT_PAYLOADS)
      ensures dropped == old(dropped) + |Evicted(old(buf), MAX_FAILED_AGENT_PAYLOADS)|
      ensures buf == (if |old(buf)| >= 500 then old(buf)[1..] else old(buf)) + [item]
      ensures dropped == old(dropped) + if |old(buf)| >= 500 then 1 else 0
    {
      if |buf| >= MAX_FAILED_AGENT_PAYLOADS {
        buf := buf[1..];
        dropped := dropped + 1;
      }
      buf := buf + [item];
    }

    /** `retry_failed_agent_payloads` when nothing else runs while it sends. */
    method RetryPass(script: seq<Attempt>) returns (ghost at: seq<nat>)
      requires |buf| <= |script| && |buf| <= MAX_FAILED_AGENT_PAYLOADS
      modifies this
      ensures buf == Leftover(old(buf), script, Left) && |buf| <= |old(buf)|
      ensures dropped == old(dropped) + DroppedForAge(old(buf), script)
      ensures |at| == |buf| && forall i, j :: 0 <= i < j < |at| ==> at[i] < at[j]
      ensures forall i :: 0 <= i < |at| ==>
        at[i] < |old(buf)| && buf[i] == Bumped(old(buf)[at[i]])
      ensures forall k :: 0 <= k < |old(buf)| ==>
        (k in at <==> script[k].now - old(buf)[k].failedAt < 25 * 3_600_000 && !script[k].delivered)
      ensures dropped == old(dropped)
        + |set k | 0 <= k < |old(buf)| && script[k].now - old(buf)[k].failedAt >= 25 * 3_600_000|
    {
      hide Leftover, DroppedForAge, Left, AgeInHours, TooOld, Bumped;
      var taken := buf;
      NothingTried(script);
      buf := [];
      for i := 0 to |taken|
        invariant buf == Leftover(taken[..i], script, Left) && |buf| <= i
        invariant dropped == old(dropped) + DroppedForAge(taken[..i], script)
      {
        PassOneMore(taken, script, i);
        var item := Bumped(taken[i]);
        if AgeInHours(item, script[i].now) > 24 {
          dropped := dropped + 1;
        } else if !script[i].delivered {
          PushCapped(item);
        }
      }
      assert taken[..|taken|] == taken;
      DroppedForAgeIs(taken, script);
      at := PassLeavesASubsequence(taken, script, buf);
    }

    /** `cleanup_old_failed_payloads`: the one exit that nothing counts. */
    method CleanupOld(now: int) returns (ghost at: seq<nat>)
      modifies this`buf
      ensures buf == Recent(old(buf), now)
      ensures |at| == |buf| && forall i, j :: 0 <= i < j < |at| ==> at[i] < at[j]
      ensures forall i :: 0 <= i < |at| ==> at[i] < |old(buf)| && buf[i] == old(buf)[at[i]]
      ensures forall k :: 0 <= k < |old(buf)| ==> (k in at <==> now - old(buf)[k].failedAt < 25 * 3_600_000)
    {
      var kept := [];
      for i := 0 to |buf|
        invariant buf == old(buf) && kept == Recent(buf[..i], now)
      {
        assert buf[..i + 1][..i] == buf[..i];
        if AgeInHours(buf[i], now) <= 24 {
          kept := kept + [buf[i]];
        }
      }
      assert buf[..|buf|] == buf;
      at := PurgeKeepsOrder(buf, now);
      buf := kept;
    }
  }
}
