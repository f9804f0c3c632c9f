/** The per-request state as code: creation, routing, immediate sends and the stale cleanup (src/request/mod.rs). */
module RequestState {
  import opened Types
  import opened Batch
  import opened Serverless
  import EventLoop

  function SendsOfOne(id: string, buffer: seq<Payload>): seq<(string, Payload)> {
    seq(|buffer|, i requires 0 <= i < |buffer| => (id, buffer[i]))
  }

  /** What the cleanup sends for the listed requests, in order. */
  function SendsOf(requests: map<string, Request>, ids: seq<string>): seq<(string, Payload)>
    requires forall id <- ids :: id in requests
  {
    if ids == [] then []
    else
      var init, last := ids[..|ids| - 1], ids[|ids| - 1];
      SendsOf(requests, init) + SendsOfOne(last, requests[last].buffer)
  }

  lemma SendsOneMore(requests: map<string, Request>, ids: seq<string>, i: nat)
    requires i < |ids| && forall id <- ids :: id in requests
    ensures SendsOf(requests, ids[..i + 1])
      == SendsOf(requests, ids[..i]) + SendsOfOne(ids[i], requests[ids[i]].buffer)
  {
    assert ids[..i + 1][..i] == ids[..i];
    hide SendsOfOne;
  }

  lemma SendsOfOneAre(other: string, buffer: seq<Payload>, id: string, p: Payload)
    ensures (id, p) in SendsOfOne(other, buffer) <==> id == other && p in buffer
  {
    if p in buffer {
      var i :| 0 <= i < |buffer| && buffer[i] == p;
      assert SendsOfOne(other, buffer)[i] == (other, p);
    }
  }

  /** Each payload of each listed request, under the id of its request. */
  lemma {:induction false} SendsAre(requests: map<string, Request>, ids: seq<string>, id: string, p: Payload)
    requires forall other <- ids :: other in requests
    ensures (id, p) in SendsOf(requests, ids) <==> id in ids && p in requests[id].buffer
  {
    hide SendsOfOne;
    if ids != [] {
      var init, last := ids[..|ids| - 1], ids[|ids| - 1];
      assert ids == init + [last];
      SendsAre(requests, init, id, p);
      SendsOfOneAre(last, requests[last].buffer, id, p);
    }
  }

  function Without<V>(given: map<string, V>, ids: seq<string>): map<string, V> {
    map id | id in given && id !in ids :: given[id]
  }

  lemma OneMoreGone<V>(given: map<string, V>, ids: seq<string>, i: nat)
    requires i < |ids| && forall j, k :: 0 <= j < k < |ids| ==> ids[j] != ids[k]
    ensures ids[..i + 1] == ids[..i] + [ids[i]] && ids[..i + 1][..i] == ids[..i]
    ensures Without(given, ids[..i + 1]) == Without(given, ids[..i]) - {ids[i]}
    ensures ids[i] in given ==> ids[i] in Without(given, ids[..i]) && Without(given, ids[..i])[ids[i]] == given[ids[i]]
  {
    assert ids[..i + 1] == ids[..i] + [ids[i]];
  }

  /** The payloads whose send went as `ok` says. */
  function Picked(payloads: seq<Payload>, oks: seq<bool>, ok: bool): seq<Payload>
    requires |payloads| <= |oks|
  {
    if payloads == [] then []
    else
      var k := |payloads| - 1;
      Picked(payloads[..k], oks, ok) + if oks[k] == ok then [payloads[k]] else []
  }

  class RequestTable {
    var requests: map<string, Request>
    var created: map<string, int>
    var orphans: seq<Payload>
    var active: Option<string>

    ghost predicate Valid()
      reads this
    {
      created.Keys == requests.Keys
    }

    constructor ()
      ensures Valid() && requests == map[] && orphans == [] && active == None
    {
      requests, created, orphans, active := map[], map[], [], None;
    }

    /** `create_request_processing_state`; `invocation` is the counter of invocations so far. */
    method CreateRequest(id: string, arn: string, invocation: int)
      requires Valid()
      modifies this
      ensures Valid() && active == old(active)
      ensures requests == old(requests)[id := Request(old(orphans), None, arn)] && orphans == []
      ensures created == old(created)[id := invocation]
    {
      var buffer := [];
      if orphans != [] {
        buffer := orphans;
        orphans := [];
      }
      requests := requests[id := Request(buffer, None, arn)];
      created := created[id := invocation];
    }

    /** `route_payload_to_active_request`; `immediate` is set when the payload is sent at once instead. */
    method Route(cfg: Config, payload: Payload) returns (to: Option<string>, immediate: bool)
      requires Valid()
      modifies this
      ensures Valid() && active == old(active) && created == old(created)
      ensures immediate <==> active.Some? && cfg.synchronousFlush
      ensures immediate ==> to == active && requests == old(requests) && orphans == old(orphans)
      ensures !immediate && active.Some? ==> to == if active.value in old(requests) then active else None
      ensures active.None? ==> (to.Some? <==> old(requests) != map[]) && (to.Some? ==> to.value in old(requests))
      ensures !immediate && to.Some? ==>
        var request := old(requests)[to.value];
        && requests == old(requests)[to.value := request.(buffer := request.buffer + [payload])]
        && orphans == old(orphans)
      ensures !immediate && to.None? ==>
        requests == old(requests) && orphans == old(orphans) + if active.None? then [payload] else []
    {
      immediate := false;
      to := active;
      if active.Some? {
        if cfg.synchronousFlush {
          immediate := true;
          return;
        }
        if active.value !in requests {
          to := None;   // "payload lost"
          return;
        }
      } else if requests == map[] {
        orphans := orphans + [payload];
        return;
      } else {
        var id :| id in requests;
        to := Some(id);
      }
      var request := requests[to.value];
      requests := requests[to.value := request.(buffer := request.buffer + [payload])];
    }

    method StaleIds(invocation: int) returns (ids: seq<string>)
      requires Valid()
      ensures forall id :: id in ids <==> id in requests && invocation - created[id] >= 5
      ensures forall i, j :: 0 <= i < j < |ids| ==> ids[i] != ids[j]
    {
      ids := [];
      var todo := requests.Keys;
      while todo != {}
        invariant todo <= requests.Keys
        invariant forall id :: id in ids <==> id in requests && id !in todo && invocation - created[id] >= 5
        invariant forall i, j :: 0 <= i < j < |ids| ==> ids[i] != ids[j]
      {
        var id :| id in todo;
        if invocation - created[id] >= 5 {
          ids := ids + [id];
        }
        todo := todo - {id};
      }
    }

    static method SendEach(id: string, buffer: seq<Payload>) returns (sends: seq<(string, Payload)>)
      ensures sends == SendsOfOne(id, buffer)
    {
      sends := [];
      for i := 0 to |buffer|
        invariant sends == SendsOfOne(id, buffer[..i])
      {
        sends := sends + [(id, buffer[i])];
      }
      assert buffer[..|buffer|] == buffer;
    }

    /**
     * `cleanup_old_request_buffers` when nothing else runs while it sends: every payload is sent, whatever comes of
     * it, and the request is removed.
     */
    method CleanupStale(invocation: int) returns (sends: seq<(string, Payload)>, ghost stale: seq<string>)
      requires Valid()
      modifies this`requests, this`created
      ensures Valid()
      ensures requests == map id | id in old(requests) && invocation - old(created)[id] < 5 :: old(requests)[id]
      ensures forall id :: id in stale <==> id in old(requests) && invocation - old(created)[id] >= 5
      ensures sends == SendsOf(old(requests), stale)
    {
      var ids := StaleIds(invocation);
      stale := ids;
      sends := [];
      assert Without(requests, ids[..0]) == requests && Without(created, ids[..0]) == created;
      for i := 0 to |ids|
        invariant requests == Without(old(requests), ids[..i]) && created == Without(old(created), ids[..i])
        invariant sends == SendsOf(old(requests), ids[..i])
      {
        var id := ids[i];
        OneMoreGone(old(requests), ids, i);
        OneMoreGone(old(created), ids, i);
        SendsOneMore(old(requests), ids, i);
        hide Without, SendsOf, SendsOfOne;
        var buffer := requests[id].buffer;
        requests := requests[id := requests[id].(buffer := [])];
        var more := SendEach(id, buffer);
        sends := sends + more;
        requests, created := requests - {id}, created - {id};
      }
      assert ids[..|ids|] == ids;
    }
  }

  lemma PickedOneMore(payloads: seq<Payload>, oks: seq<bool>, ok: bool, i: nat)
    requires i < |payloads| <= |oks|
    ensures oks[i] != ok ==> Picked(payloads[..i + 1], oks, ok) == Picked(payloads[..i], oks, ok)
    ensures oks[i] == ok ==> Picked(payloads[..i + 1], oks, ok) == Picked(payloads[..i], oks, ok) + [payloads[i]]
  {
    assert payloads[..i + 1][..i] == payloads[..i];
  }

  lemma OneMoreAdded(entries: Entries, id: string, init: seq<Payload>, last: Payload, arn: string, now: int)
    ensures AllAdded(entries, id, init + [last], None, arn, now)
      == Added(AllAdded(entries, id, init, None, arn, now), id, last, None, arn, now)
  {
    assert (init + [last])[..|init|] == init;
    hide Added;
  }

  /** `spawn_immediate_agent_payload_sends` when nothing else runs while it sends. */
  method SendImmediately(batch: AgentBatchBuffer, id: string, arn: string, payloads: seq<Payload>, oks: seq<bool>,
                         now: int)
    requires batch.Valid() && |payloads| <= |oks|
    modifies batch
    ensures batch.Valid()
    ensures batch.entries == AllAdded(old(batch.entries), id, Picked(payloads, oks, false), None, arn, now)
  {
    hide Picked, Added, AllAdded;
    NonePicked(oks, false);
    EventLoop.AllAddedNothing(batch.entries, id, None, arn, now);
    for i := 0 to |payloads|
      invariant batch.Valid()
      invariant batch.entries == AllAdded(old(batch.entries), id, Picked(payloads[..i], oks, false), None, arn, now)
    {
      PickedOneMore(payloads, oks, false, i);
      if !oks[i] {
        OneMoreAdded(old(batch.entries), id, Picked(payloads[..i], oks, false), payloads[i], arn, now);
        batch.AddToBatch(id, payloads[i], None, arn, now);
      }
    }
    assert payloads[..|payloads|] == payloads;
  }

  lemma NonePicked(oks: seq<bool>, ok: bool)
    ensures Picked([], oks, ok) == []
  {
  }

  // ---- The same as interleavings of the machine ------------------------------------------

  /** A new request adopts the orphans; what an old one of the same id still had is discarded. */
  lemma CreateIsTheEvent(cfg: Config, s: State, id: string, arn: string)
    ensures var after := Step(cfg, s, CreateRequest(id, arn));
      && after.requests == s.requests[id := Request(s.orphans, None, arn)] && after.orphans == []
      && after.batch == s.batch && after.tasks == s.tasks && after.active == s.active
      && (forall p <- s.orphans :: p.serial in after.filed && after.filed[p.serial] == id)
      && after.discarded == s.discarded + multiset(if id in s.requests then s.requests[id].buffer else [])
  {
    StepIs(cfg, s, CreateRequest(id, arn));
    hide Step, Effect;
  }

  lemma ArrivesForNobody(s: State, bytes: seq<Byte>, late: string)
    requires CanArrive(s, late) && s.active.None? && s.requests == map[]
    ensures var payload, after := Payload(|s.arrived|, bytes), ArriveOnPipe(s, bytes, late);
      && after.arrived == s.arrived + [payload] && after.batch == s.batch && after.active == s.active
      && after.requests == s.requests && after.unrouted == s.unrouted && after.clock == s.clock
      && after.tasks == s.tasks && after.orphans == s.orphans + [payload]
  {
    hide KeepsBooks, LeavesNothing, RemovesNothing;
  }

  lemma ArrivesFor(s: State, bytes: seq<Byte>, late: string, id: string)
    requires CanArrive(s, late) && (s.active.Some? || s.requests != map[])
    requires id == if s.active.Some? then s.active.value else late
    ensures var payload, after := Payload(|s.arrived|, bytes), ArriveOnPipe(s, bytes, late);
      && after.arrived == s.arrived + [payload] && after.batch == s.batch && after.active == s.active
      && after.requests == s.requests && after.unrouted == s.unrouted && after.clock == s.clock
      && after.tasks == s.tasks[s.clock := Routing(id, payload, s.active.Some?)] && after.orphans == s.orphans
  {
    hide KeepsBooks, LeavesNothing, RemovesNothing;
  }

  lemma Routes(cfg: Config, s: State, id: string, payload: Payload, active: bool, fallbackArn: string)
    requires s.clock in s.tasks && s.tasks[s.clock] == Routing(id, payload, active)
    ensures var after := RouteOn(cfg, s, s.clock, fallbackArn);
      && after.arrived == s.arrived && after.batch == s.batch && after.active == s.active
      && after.orphans == s.orphans
      && if active && cfg.synchronousFlush then
           var arn := if id in s.requests && s.requests[id].arn != "" then s.requests[id].arn else fallbackArn;
           && after.requests == s.requests && after.unrouted == s.unrouted
           && after.tasks == s.tasks[s.clock := ImmediateSend(id, arn, [payload])]
         else
           && after.tasks == s.tasks - {s.clock}
           && if id in s.requests then
                var request := s.requests[id];
                && after.requests == s.requests[id := request.(buffer := request.buffer + [payload])]
                && after.unrouted == s.unrouted
              else after.requests == s.requests && after.unrouted == s.unrouted + multiset{payload}
  {
    hide KeepsBooks, RemovesNothing;
  }

  /**
   * The route of a payload, with nothing in between, is what `Route` does in one piece; an immediate send goes under
   * the ARN of its request, if that has one.
   */
  lemma RouteIsAnInterleaving(cfg: Config, s: State, bytes: seq<Byte>, late: string, fallbackArn: string)
    requires CanArrive(s, late) && s.clock !in s.tasks
    ensures var payload := Payload(|s.arrived|, bytes);
      var after := RouteOn(cfg, ArriveOnPipe(s, bytes, late), s.clock, fallbackArn);
      && after.arrived == s.arrived + [payload] && after.batch == s.batch && after.active == s.active
      && if s.active.None? && s.requests == map[] then
           && after.requests == s.requests && after.orphans == s.orphans + [payload]
           && after.tasks == s.tasks && after.unrouted == s.unrouted
         else if s.active.Some? && cfg.synchronousFlush then
           var id := s.active.value;
           var arn := if id in s.requests && s.requests[id].arn != "" then s.requests[id].arn else fallbackArn;
           && after.requests == s.requests && after.orphans == s.orphans && after.unrouted == s.unrouted
           && after.tasks == s.tasks[s.clock := ImmediateSend(id, arn, [payload])]
         else
           var id := if s.active.Some? then s.active.value else late;
           && after.orphans == s.orphans && after.tasks == s.tasks
           && if id in s.requests then
                var request := s.requests[id];
                && after.requests == s.requests[id := request.(buffer := request.buffer + [payload])]
                && after.unrouted == s.unrouted
              else after.requests == s.requests && after.unrouted == s.unrouted + multiset{payload}
  {
    hide *;
    var payload := Payload(|s.arrived|, bytes);
    if s.active.None? && s.requests == map[] {
      ArrivesForNobody(s, bytes, late);
      NoRoute(cfg, ArriveOnPipe(s, bytes, late), s.clock, fallbackArn);
    } else {
      var id := if s.active.Some? then s.active.value else late;
      ArrivesFor(s, bytes, late, id);
      Routes(cfg, ArriveOnPipe(s, bytes, late), id, payload, s.active.Some?, fallbackArn);
      assert s.tasks[s.clock := Routing(id, payload, s.active.Some?)] - {s.clock} == s.tasks;
    }
  }

  lemma NoRoute(cfg: Config, s: State, t: nat, fallbackArn: string)
    requires t !in s.tasks
    ensures RouteOn(cfg, s, t, fallbackArn) == s
  {
  }

  /** The sends of one task with nothing in between. */
  ghost function ImmediateTimes(s: State, t: nat, oks: seq<bool>, now: int): State
    decreases |oks|
  {
    if oks == [] then s else ImmediateTimes(ImmediateOne(s, t, oks[0], now), t, oks[1..], now)
  }

  lemma {:induction false} PickedHead(payloads: seq<Payload>, oks: seq<bool>, ok: bool)
    requires 0 < |payloads| <= |oks|
    ensures Picked(payloads, oks, ok)
      == (if oks[0] == ok then [payloads[0]] else []) + Picked(payloads[1..], oks[1..], ok)
  {
    var k := |payloads| - 1;
    if k > 0 {
      PickedHead(payloads[..k], oks, ok);
      assert payloads[..k][1..] == payloads[1..][..k - 1];
    }
  }

  lemma ImmediateTurn(s: State, t: nat, ok: bool, now: int)
    requires t in s.tasks && s.tasks[t].ImmediateSend? && s.tasks[t].remaining != []
    ensures var task, after := s.tasks[t], ImmediateOne(s, t, ok, now);
      && after.tasks == s.tasks[t := ImmediateSend(task.id, task.arn, task.remaining[1..])]
      && after.batch == AllAdded(s.batch, task.id, if ok then [] else [task.remaining[0]], None, task.arn, now)
      && after.requests == s.requests
      && after.settled == s.settled + if ok then multiset{task.remaining[0]} else multiset{}
  {
    hide KeepsBooks, Marked, Added;
    EventLoop.AllAddedNothing(s.batch, s.tasks[t].id, None, s.tasks[t].arn, now);
  }

  /** Run without interruption, an immediate send leaves in the batch what `SendImmediately` leaves. */
  lemma {:induction false} ImmediateIsAnInterleaving(s: State, t: nat, oks: seq<bool>, now: int)
    requires t in s.tasks && s.tasks[t].ImmediateSend? && |oks| == |s.tasks[t].remaining|
    ensures var task, after := s.tasks[t], ImmediateTimes(s, t, oks, now);
      && after.batch == AllAdded(s.batch, task.id, Picked(task.remaining, oks, false), None, task.arn, now)
      && after.tasks == s.tasks[t := ImmediateSend(task.id, task.arn, [])] && after.requests == s.requests
    decreases |oks|
  {
    hide ImmediateOne, AllAdded, Picked;
    var task := s.tasks[t];
    if oks == [] {
      NonePicked(oks, false);
      EventLoop.AllAddedNothing(s.batch, task.id, None, task.arn, now);
      assert s.tasks[t := ImmediateSend(task.id, task.arn, [])] == s.tasks;
    } else {
      ImmediateTurn(s, t, oks[0], now);
      ImmediateIsAnInterleaving(ImmediateOne(s, t, oks[0], now), t, oks[1..], now);
      PickedHead(task.remaining, oks, false);
      EventLoop.AllAddedConcat(s.batch, task.id, if oks[0] then [] else [task.remaining[0]],
                               Picked(task.remaining[1..], oks[1..], false), None, task.arn, now);
    }
  }

  ghost function StaleTimes(s: State, t: nat, oks: seq<bool>): State
    decreases |oks|
  {
    if oks == [] then s else StaleTimes(StaleOne(s, t, oks[0]), t, oks[1..])
  }

  lemma StaleTurn(s: State, t: nat, ok: bool)
    requires t in s.tasks && s.tasks[t].StaleSend? && s.tasks[t].remaining != []
    ensures var task, after := s.tasks[t], StaleOne(s, t, ok);
      && after.tasks == s.tasks[t := StaleSend(task.id, task.remaining[1..])]
      && after.requests == s.requests && after.batch == s.batch && after.discarded == s.discarded
      && after.settled == s.settled + (if ok then multiset{task.remaining[0]} else multiset{})
      && after.failedStale == s.failedStale + if ok then multiset{} else multiset{task.remaining[0]}
  {
    hide KeepsBooks;
  }

  lemma {:induction false} StaleSendsAll(s: State, t: nat, oks: seq<bool>)
    requires t in s.tasks && s.tasks[t].StaleSend? && |oks| == |s.tasks[t].remaining|
    ensures var task, after := s.tasks[t], StaleTimes(s, t, oks);
      && after.tasks == s.tasks[t := StaleSend(task.id, [])] && after.requests == s.requests
      && after.batch == s.batch && after.discarded == s.discarded
    decreases |oks|
  {
    hide StaleOne;
    var task := s.tasks[t];
    if oks == [] {
      assert s.tasks[t := StaleSend(task.id, [])] == s.tasks;
    } else {
      var next := StaleOne(s, t, oks[0]);
      StaleTurn(s, t, oks[0]);
      assert StaleTimes(s, t, oks) == StaleTimes(next, t, oks[1..]);
      hide *;
      assert next.tasks[t].id == task.id;
      assert next.tasks[t := StaleSend(task.id, [])] == s.tasks[t := StaleSend(task.id, [])];
      StaleSendsAll(next, t, oks[1..]);
    }
  }

  lemma {:induction false} StaleCounts(s: State, t: nat, oks: seq<bool>)
    requires t in s.tasks && s.tasks[t].StaleSend? && |oks| == |s.tasks[t].remaining|
    ensures var remaining, after := s.tasks[t].remaining, StaleTimes(s, t, oks);
      && after.settled == s.settled + multiset(Picked(remaining, oks, true))
      && after.failedStale == s.failedStale + multiset(Picked(remaining, oks, false))
    decreases |oks|
  {
    hide StaleOne, Picked;
    var remaining := s.tasks[t].remaining;
    if oks == [] {
      NonePicked(oks, true);
      NonePicked(oks, false);
    } else {
      var next := StaleOne(s, t, oks[0]);
      StaleTurn(s, t, oks[0]);
      StaleCounts(next, t, oks[1..]);
      assert StaleTimes(s, t, oks) == StaleTimes(next, t, oks[1..]);
      hide StaleTimes;
      PickedHead(remaining, oks, true);
      PickedHead(remaining, oks, false);
    }
  }

  /**
   * The cleanup of one stale request, with nothing in between, sends its payloads and removes it, and discards nothing;
   * the payloads whose send failed are lost.
   */
  lemma StaleIsAnInterleaving(s: State, id: string, oks: seq<bool>)
    requires id in s.requests && |oks| == |s.requests[id].buffer| && s.clock !in s.tasks
    ensures var after := StaleOne(StaleTimes(TakeStale(s, id), s.clock, oks), s.clock, true);
      && after.requests == s.requests - {id} && after.tasks == s.tasks && after.batch == s.batch
      && after.discarded == s.discarded
      && after.failedStale == s.failedStale + multiset(Picked(s.requests[id].buffer, oks, false))
      && after.settled == s.settled + multiset(Picked(s.requests[id].buffer, oks, true))
  {
    hide *;
    var taken := TakeStale(s, id);
    TakesStale(s, id);
    StaleSendsAll(taken, s.clock, oks);
    StaleCounts(taken, s.clock, oks);
    StaleEnds(StaleTimes(taken, s.clock, oks), s.clock, id);
    assert s.tasks[s.clock := StaleSend(id, [])] - {s.clock} == s.tasks;
  }

  lemma TakesStale(s: State, id: string)
    requires id in s.requests
    ensures var after := TakeStale(s, id);
      && after.tasks == s.tasks[s.clock := StaleSend(id, s.requests[id].buffer)]
      && after.requests == s.requests[id := s.requests[id].(buffer := [])] && after.batch == s.batch
      && after.discarded == s.discarded && after.settled == s.settled && after.failedStale == s.failedStale
  {
    hide KeepsBooks, LeavesNothing, RemovesNothing;
  }

  lemma StaleEnds(s: State, t: nat, id: string)
    requires t in s.tasks && s.tasks[t] == StaleSend(id, []) && id in s.requests && s.requests[id].buffer == []
    ensures var after := StaleOne(s, t, true);
      && after.tasks == s.tasks - {t} && after.requests == s.requests - {id} && after.batch == s.batch
      && after.discarded == s.discarded && after.settled == s.settled && after.failedStale == s.failedStale
  {
    hide KeepsBooks, RemovesNothing;
  }
}
