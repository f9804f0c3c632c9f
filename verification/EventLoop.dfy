/**
 * The event-loop code that moves payloads between the per-request buffers and the batch, as it runs with trace
 * collection off: each of these functions is then one atomic piece (src/event_loop.rs, src/agent/batch.rs).
 */
module EventLoop {
  import opened Types
  import opened Batch
  import opened Serverless
  import Chunks
  import Cuts
  import Bags
  import ServerlessFiling
  import ServerlessLoss
  import ServerlessTheorems

  // ---- Reference ---------------------------------------------------------------------------

  /** A previous request that holds both a report and a payload. */
  predicate Late(requests: map<string, Request>, current: string, id: string) {
    id != current && id in requests && requests[id].report.Some? && requests[id].buffer != []
  }

  function LateRequests(requests: map<string, Request>, current: string): map<string, Request> {
    map id | id in requests && Late(requests, current, id) :: requests[id]
  }

  function Emptied(requests: map<string, Request>, ids: set<string>): map<string, Request> {
    map id | id in requests :: if id in ids then requests[id].(buffer := [], report := None) else requests[id]
  }

  lemma EmptiedOneMore(requests: map<string, Request>, done: set<string>, id: string)
    requires id in requests && id !in done
    ensures id in Emptied(requests, done) && Emptied(requests, done)[id] == requests[id]
    ensures Emptied(requests, done)[id := requests[id].(buffer := [], report := None)] == Emptied(requests, done + {id})
  {
  }

  function DrainedIn(requests: map<string, Request>, ids: set<string>): map<string, Request> {
    map id | id in requests :: if id in ids then Drained(requests[id]) else requests[id]
  }

  lemma DrainedOneMore(requests: map<string, Request>, done: set<string>, id: string)
    requires id in requests && id !in done
    ensures id in DrainedIn(requests, done) && DrainedIn(requests, done)[id] == requests[id]
    ensures DrainedIn(requests, done)[id := Drained(requests[id])] == DrainedIn(requests, done + {id})
  {
  }

  lemma AllDrained(requests: map<string, Request>)
    ensures DrainedIn(requests, requests.Keys).Keys == requests.Keys
    ensures forall id <- requests ::
      DrainedIn(requests, requests.Keys)[id]
      == if requests[id].buffer == [] then requests[id] else requests[id].(buffer := [], report := None)
  {
  }

  /** Every payload of a listed request is collected, with the request's report and ARN. */
  lemma CollectedFrom(requests: map<string, Request>, order: seq<string>, fallbackArn: string, now: int)
    requires ListsKeys(order, requests)
    ensures forall id <- requests :: forall p <- requests[id].buffer ::
      BatchedAgentPayload(id, [p], requests[id].report, ArnOf(requests, id, fallbackArn), now)
        in BufferItems(requests, order, fallbackArn, now)
  {
    hide ArnOf, BufferItems;
    forall id, p | id in requests && p in requests[id].buffer
      ensures BatchedAgentPayload(id, [p], requests[id].report, ArnOf(requests, id, fallbackArn), now)
        in BufferItems(requests, order, fallbackArn, now)
    {
      ServerlessFiling.BufferItemsCover(INITIAL.(requests := requests), order, fallbackArn, now, id, p);
    }
  }

  function Members(ids: seq<string>): set<string> {
    set id | id in ids
  }

  lemma OneMoreMember(ids: seq<string>, i: nat)
    requires i < |ids| && forall j, k :: 0 <= j < k < |ids| ==> ids[j] != ids[k]
    ensures ids[..i + 1] == ids[..i] + [ids[i]] && ids[..i + 1][..i] == ids[..i]
    ensures Members(ids[..i + 1]) == Members(ids[..i]) + {ids[i]} && ids[i] !in Members(ids[..i])
    ensures ids[i] in Members(ids) && Members(ids[..i]) <= Members(ids)
  {
    assert ids[..i + 1] == ids[..i] + [ids[i]];
  }

  lemma BufferItemsOneMore(requests: map<string, Request>, ids: seq<string>, i: nat, fallbackArn: string, now: int)
    requires i < |ids| && forall id <- ids :: id in requests
    ensures BufferItems(requests, ids[..i + 1], fallbackArn, now) == BufferItems(requests, ids[..i], fallbackArn, now)
      + ItemsOf(ids[i], ArnOf(requests, ids[i], fallbackArn), requests[ids[i]].report, requests[ids[i]].buffer, now)
  {
    assert ids[..i + 1][..i] == ids[..i];
    hide ItemsOf, ArnOf;
  }

  lemma ArnAndItems(a: map<string, Request>, b: map<string, Request>, id: string, fallbackArn: string)
    requires id in a && id in b && a[id] == b[id]
    ensures ArnOf(a, id, fallbackArn) == ArnOf(b, id, fallbackArn)
  {
  }

  lemma StartOfCollection(requests: map<string, Request>, fallbackArn: string, now: int)
    ensures DrainedIn(requests, Members([])) == requests && BufferItems(requests, [], fallbackArn, now) == []
  {
  }

  /** The buffers of the listed requests, one after the other. */
  function BuffersOf(requests: map<string, Request>, order: seq<string>): seq<Payload>
    requires forall id <- order :: id in requests
  {
    if order == [] then []
    else BuffersOf(requests, order[..|order| - 1]) + requests[order[|order| - 1]].buffer
  }

  /** The requests of `done` have their payloads batched with their report; no other entry changed. */
  ghost predicate PairedIn(entries: Entries, before: Entries, requests: map<string, Request>, done: set<string>,
                           fallbackArn: string, now: int)
    requires done <= requests.Keys
  {
    forall id: string :: EntryOf(entries, id) ==
      if id in done then
        EntryOf(AllAdded(before, id, requests[id].buffer, requests[id].report,
                         ArnOf(requests, id, fallbackArn), now), id)
      else EntryOf(before, id)
  }

  lemma DrainIsComplete(requests: map<string, Request>, current: string)
    ensures var after := Emptied(requests, LateRequests(requests, current).Keys);
      && LateRequests(after, current) == map[]
      && (current in requests ==> current in after && after[current] == requests[current])
  {
  }

  /** Batching under one key neither reads nor writes another. */
  lemma {:induction false} AllAddedIsLocal(a: Entries, b: Entries, id: string, payloads: seq<Payload>,
                                           report: Option<Report>, arn: string, now: int, other: string)
    requires EntryOf(a, id) == EntryOf(b, id)
    ensures EntryOf(AllAdded(a, id, payloads, report, arn, now), id)
      == EntryOf(AllAdded(b, id, payloads, report, arn, now), id)
    ensures other != id ==> EntryOf(AllAdded(a, id, payloads, report, arn, now), other) == EntryOf(a, other)
  {
    if payloads != [] {
      AllAddedIsLocal(a, b, id, payloads[..|payloads| - 1], report, arn, now, other);
    }
  }

  lemma PairedOneMore(entries: Entries, after: Entries, before: Entries, requests: map<string, Request>,
                      done: set<string>, id: string, fallbackArn: string, now: int)
    requires done <= requests.Keys && id in requests && id !in done
    requires PairedIn(entries, before, requests, done, fallbackArn, now)
    requires after == AllAdded(entries, id, requests[id].buffer, requests[id].report,
                               ArnOf(requests, id, fallbackArn), now)
    ensures PairedIn(after, before, requests, done + {id}, fallbackArn, now)
  {
    hide AllAdded, ArnOf;
    forall other: string
      ensures EntryOf(after, other) ==
        if other in done + {id} then
          EntryOf(AllAdded(before, other, requests[other].buffer, requests[other].report,
                           ArnOf(requests, other, fallbackArn), now), other)
        else EntryOf(before, other)
    {
      AllAddedIsLocal(entries, before, id, requests[id].buffer, requests[id].report,
                      ArnOf(requests, id, fallbackArn), now, other);
    }
  }

  /** The state of the drain's loop once the candidates `done` are drained. */
  ghost predicate DrainedTo(requests: map<string, Request>, entries: Entries, given: map<string, Request>,
                            before: Entries, done: seq<string>, fallbackArn: string, now: int, count: nat)
  {
    && (forall id <- done :: id in given)
    && requests == Emptied(given, Members(done))
    && PairedIn(entries, before, given, Members(done), fallbackArn, now)
    && count == |BuffersOf(given, done)|
  }

  lemma StartOfDrain(requests: map<string, Request>, entries: Entries, fallbackArn: string, now: int)
    ensures DrainedTo(requests, entries, requests, entries, [], fallbackArn, now, 0)
  {
  }

  lemma CandidateUntouched(requests: map<string, Request>, entries: Entries, given: map<string, Request>,
                           before: Entries, ids: seq<string>, i: nat, fallbackArn: string, now: int, count: nat)
    requires i < |ids| && ids[i] in given && forall j, k :: 0 <= j < k < |ids| ==> ids[j] != ids[k]
    requires DrainedTo(requests, entries, given, before, ids[..i], fallbackArn, now, count)
    ensures ids[i] in requests && requests[ids[i]] == given[ids[i]]
    ensures ArnOf(requests, ids[i], fallbackArn) == ArnOf(given, ids[i], fallbackArn)
  {
    OneMoreMember(ids, i);
    EmptiedOneMore(given, Members(ids[..i]), ids[i]);
    hide Emptied, Members, PairedIn, BuffersOf;
  }

  /** One turn of the drain's loop, from the state before it to the state after it. */
  lemma DrainedOneMoreCandidate(requests: map<string, Request>, entries: Entries, given: map<string, Request>,
                                before: Entries,
                                ids: seq<string>, i: nat, fallbackArn: string, now: int, count: nat, after: Entries)
    requires i < |ids| && ids[i] in given && forall j, k :: 0 <= j < k < |ids| ==> ids[j] != ids[k]
    requires DrainedTo(requests, entries, given, before, ids[..i], fallbackArn, now, count)
    requires after == AllAdded(entries, ids[i], given[ids[i]].buffer, given[ids[i]].report,
                               ArnOf(given, ids[i], fallbackArn), now)
    ensures DrainedTo(requests[ids[i] := given[ids[i]].(buffer := [], report := None)], after, given, before,
                      ids[..i + 1], fallbackArn, now, count + |given[ids[i]].buffer|)
  {
    OneMoreMember(ids, i);
    hide Emptied, Members, AllAdded, ArnOf, PairedIn;
    EmptiedOneMore(given, Members(ids[..i]), ids[i]);
    AreGiven(given, ids[..i]);
    PairedOneMore(entries, after, before, given, Members(ids[..i]), ids[i], fallbackArn, now);
  }

  lemma NoneIsLate(requests: map<string, Request>, current: string)
    ensures LateRequests(requests, current) == map[] ==>
      forall id <- requests :: id == current || requests[id].report.None? || requests[id].buffer == []
  {
    forall id | id in requests && id != current && requests[id].report.Some? && requests[id].buffer != []
      ensures id in LateRequests(requests, current)
    {
    }
  }

  lemma DrainIsDone(requests: map<string, Request>, entries: Entries, given: map<string, Request>, before: Entries,
                    drained: seq<string>, current: string, fallbackArn: string, now: int, count: nat)
    requires Members(drained) == LateRequests(given, current).Keys
    requires DrainedTo(requests, entries, given, before, drained, fallbackArn, now, count)
    ensures LateRequests(given, current).Keys <= given.Keys && forall id <- drained :: id in given
    ensures requests == Emptied(given, LateRequests(given, current).Keys) && LateRequests(requests, current) == map[]
    ensures current in given ==> current in requests && requests[current] == given[current]
    ensures forall id <- requests :: id == current || requests[id].report.None? || requests[id].buffer == []
    ensures PairedIn(entries, before, given, LateRequests(given, current).Keys, fallbackArn, now)
    ensures count == |BuffersOf(given, drained)|
  {
    DrainIsComplete(given, current);
    NoneIsLate(requests, current);
    hide Emptied, PairedIn, BuffersOf;
  }

  lemma AreGiven(given: map<string, Request>, done: seq<string>)
    requires forall id <- done :: id in given
    ensures Members(done) <= given.Keys
  {
  }

  /** After the drain, every payload moved sits in a batch entry of its own request that has a report. */
  lemma DrainedPayloadsAreBatched(requests: map<string, Request>, current: string, before: Entries, after: Entries,
                                  fallbackArn: string, now: int, id: string)
    requires PairedIn(after, before, requests, LateRequests(requests, current).Keys, fallbackArn, now)
    requires Late(requests, current, id)
    ensures id in after && after[id].report == requests[id].report
    ensures forall p <- requests[id].buffer :: p in after[id].payloads
  {
    assert id in LateRequests(requests, current);
    hide AllAdded, ArnOf;
    AllAddedReport(before, id, requests[id].buffer, requests[id].report, ArnOf(requests, id, fallbackArn), now);
    AllAddedPayloads(before, id, requests[id].buffer, requests[id].report, ArnOf(requests, id, fallbackArn), now);
  }

  // ---- REQUEST_DATA and the code that works on it ------------------------------------------

  class RequestData {
    var requests: map<string, Request>
    const batch: AgentBatchBuffer

    constructor (batch: AgentBatchBuffer)
      ensures requests == map[] && this.batch == batch
    {
      requests := map[];
      this.batch := batch;
    }

    method CandidateIds(current: string) returns (candidates: seq<string>)
      ensures ListsKeys(candidates, LateRequests(requests, current))
    {
      candidates := [];
      var todo := requests.Keys;
      while todo != {}
        invariant todo <= requests.Keys
        invariant forall id :: id in candidates <==> id in requests && id !in todo && Late(requests, current, id)
        invariant forall i, j :: 0 <= i < j < |candidates| ==> candidates[i] != candidates[j]
      {
        var id :| id in todo;
        if id != current && requests[id].report.Some? && requests[id].buffer != [] {
          candidates := candidates + [id];
        }
        todo := todo - {id};
      }
    }

    /** One turn of the drain's loop, whatever happened to the candidate since it was listed. */
    method DrainCandidate(id: string, fallbackArn: string, now: int) returns (count: nat)
      requires batch.Valid()
      modifies this, batch
      ensures batch.Valid()
      ensures if id in old(requests) && old(requests)[id].report.Some? && old(requests)[id].buffer != [] then
          var request := old(requests)[id];
          && requests == old(requests)[id := request.(buffer := [], report := None)]
          && count == |request.buffer|
          && batch.entries == AllAdded(old(batch.entries), id, request.buffer, request.report,
                                       ArnOf(old(requests), id, fallbackArn), now)
        else requests == old(requests) && batch.entries == old(batch.entries) && count == 0
    {
      count := 0;
      if id !in requests {
        return;
      }
      var report := requests[id].report;
      if report.None? {
        return;
      }
      requests := requests[id := requests[id].(report := None)];
      var arn := if requests[id].arn != "" then requests[id].arn else fallbackArn;
      var payloads := requests[id].buffer;
      requests := requests[id := requests[id].(buffer := [])];
      if payloads == [] {
        if requests[id].report.None? {
          requests := requests[id := requests[id].(report := report)];
        }
        return;
      }
      batch.BatchAllPayloads(id, payloads, report, arn, now);
      count := |payloads|;
    }

    /** `drain_late_paired_payloads_serverless`. */
    method DrainLatePaired(current: string, fallbackArn: string, now: int)
      returns (count: nat, ghost drained: seq<string>)
      requires batch.Valid()
      modifies this, batch
      ensures batch.Valid()
      ensures requests == Emptied(old(requests), LateRequests(old(requests), current).Keys)
      ensures LateRequests(requests, current) == map[]
      ensures current in old(requests) ==> current in requests && requests[current] == old(requests)[current]
      ensures PairedIn(batch.entries, old(batch.entries), old(requests), LateRequests(old(requests), current).Keys,
        fallbackArn, now)
      ensures forall id <- requests :: id == current || requests[id].report.None? || requests[id].buffer == []
      ensures ListsKeys(drained, LateRequests(old(requests), current)) && count == |BuffersOf(old(requests), drained)|
    {
      var candidates := CandidateIds(current);
      count := 0;
      drained := candidates;
      ghost var given, before := requests, batch.entries;
      assert Members(candidates) == LateRequests(given, current).Keys;
      assert forall id <- candidates :: id in given && given[id].report.Some? && given[id].buffer != [];
      StartOfDrain(given, before, fallbackArn, now);
      hide *;
      for i := 0 to |candidates|
        invariant batch.Valid()
        invariant DrainedTo(requests, batch.entries, given, before, candidates[..i], fallbackArn, now, count)
      {
        var id := candidates[i];
        CandidateUntouched(requests, batch.entries, given, before, candidates, i, fallbackArn, now, count);
        ghost var requestsNow, entries := requests, batch.entries;
        var n := DrainCandidate(id, fallbackArn, now);
        DrainedOneMoreCandidate(requestsNow, entries, given, before, candidates, i, fallbackArn, now, count,
          batch.entries);
        count := count + n;
      }
      assert candidates[..|candidates|] == candidates;
      DrainIsDone(requests, batch.entries, given, before, candidates, current, fallbackArn, now, count);
    }

    /** `process_request_concurrently` up to its wait; what it spawns to be sent at once is returned. */
    method ProcessRequest(cfg: Config, id: string, arn: string, now: int) returns (toSend: seq<Payload>)
      requires batch.Valid()
      modifies this, batch
      ensures batch.Valid()
      ensures id !in old(requests) ==> requests == old(requests) && batch.entries == old(batch.entries) && toSend == []
      ensures id in old(requests) ==>
        var request := old(requests)[id];
        var paired := !cfg.synchronousFlush && request.buffer != [] && request.report.Some?;
        && toSend == (if cfg.synchronousFlush then request.buffer else [])
        && requests == old(requests)[id :=
             if paired then request.(buffer := [], report := None)
             else if cfg.synchronousFlush then request.(buffer := []) else request]
        && batch.entries ==
             if paired then AllAdded(old(batch.entries), id, request.buffer, request.report, arn, now)
             else old(batch.entries)
    {
      hide AllAdded;
      toSend := [];
      if id !in requests {
        return;
      }
      var payloads := requests[id].buffer;
      requests := requests[id := requests[id].(buffer := [])];
      var report := requests[id].report;
      requests := requests[id := requests[id].(report := None)];
      if payloads == [] {
        if report.Some? {
          requests := requests[id := requests[id].(report := report)];
        }
      } else if cfg.synchronousFlush {
        if report.Some? {
          requests := requests[id := requests[id].(report := report)];
        }
        toSend := payloads;
      } else if report.Some? {
        batch.BatchAllPayloads(id, payloads, report, arn, now);
      } else {
        assert [] + payloads == payloads;
        requests := requests[id := requests[id].(buffer := requests[id].buffer + payloads)];
      }
    }

    /** The listener's handling of a `platform.report` in standard mode. */
    method HandleReport(report: Report, fallbackArn: string, now: int)
      requires batch.Valid()
      modifies this, batch
      ensures batch.Valid()
      ensures var id := report.requestId;
        var request := if id in old(requests) then old(requests)[id] else Request([], None, "");
        if id in old(batch.entries) then
          requests == old(requests) && batch.entries == Attached(old(batch.entries), id, report)
        else if id !in old(requests) then
          requests == old(requests) && batch.entries == old(batch.entries)
        else if request.buffer == [] then
          requests == old(requests)[id := request.(report := Some(report))] && batch.entries == old(batch.entries)
        else
          && requests == old(requests)[id := request.(buffer := [])]
          && batch.entries == AllAdded(old(batch.entries), id, request.buffer, Some(report),
                                       ArnOf(old(requests), id, fallbackArn), now)
    {
      hide AllAdded;
      var id := report.requestId;
      if id in batch.entries {
        var _ := batch.AttachReport(id, report);
      } else if id in requests {
        var arn := if requests[id].arn != "" then requests[id].arn else fallbackArn;
        var payloads := requests[id].buffer;
        requests := requests[id := requests[id].(buffer := [])];
        if payloads == [] {
          requests := requests[id := requests[id].(report := Some(report))];
        } else {
          batch.BatchAllPayloads(id, payloads, Some(report), arn, now);
        }
      }
    }

    method RequestIds() returns (order: seq<string>)
      ensures ListsKeys(order, requests)
    {
      order := [];
      var todo := requests.Keys;
      while todo != {}
        invariant todo <= requests.Keys
        invariant forall id :: id in order <==> id in requests && id !in todo
        invariant forall i, j :: 0 <= i < j < |order| ==> order[i] != order[j]
      {
        var id :| id in todo;
        order := order + [id];
        todo := todo - {id};
      }
    }

    static method ItemsOfRequest(id: string, arn: string, report: Option<Report>, payloads: seq<Payload>, now: int)
      returns (items: seq<Entry>)
      ensures items == ItemsOf(id, arn, report, payloads, now)
    {
      items := [];
      for i := 0 to |payloads|
        invariant items == ItemsOf(id, arn, report, payloads[..i], now)
      {
        items := items + [BatchedAgentPayload(id, [payloads[i]], report, arn, now)];
      }
      assert payloads[..|payloads|] == payloads;
    }

    /** One request's share of the collection. */
    method CollectRequest(id: string, fallbackArn: string, now: int) returns (added: seq<Entry>)
      requires id in requests
      modifies this`requests
      ensures requests == old(requests)[id := Drained(old(requests)[id])]
      ensures added == ItemsOf(id, ArnOf(old(requests), id, fallbackArn), old(requests)[id].report,
                               old(requests)[id].buffer, now)
    {
      var payloads := requests[id].buffer;
      if payloads == [] {
        added := [];
      } else {
        var report := requests[id].report;
        var arn := if requests[id].arn != "" then requests[id].arn else fallbackArn;
        requests := requests[id := requests[id].(buffer := [], report := None)];
        added := ItemsOfRequest(id, arn, report, payloads, now);
      }
    }

    method CollectBuffers(fallbackArn: string, now: int) returns (collected: seq<Entry>, ghost order: seq<string>)
      modifies this`requests
      ensures ListsKeys(order, old(requests))
      ensures collected == BufferItems(old(requests), order, fallbackArn, now)
      ensures requests == DrainedIn(old(requests), old(requests).Keys)
    {
      collected := [];
      var ids := RequestIds();
      order := ids;
      assert Members(ids) == old(requests).Keys;
      hide Members, DrainedIn, BufferItems, ItemsOf, ArnOf, Drained;
      StartOfCollection(old(requests), fallbackArn, now);
      for i := 0 to |ids|
        invariant collected == BufferItems(old(requests), ids[..i], fallbackArn, now)
        invariant requests == DrainedIn(old(requests), Members(ids[..i]))
      {
        OneMoreMember(ids, i);
        DrainedOneMore(old(requests), Members(ids[..i]), ids[i]);
        BufferItemsOneMore(old(requests), ids, i, fallbackArn, now);
        ArnAndItems(requests, old(requests), ids[i], fallbackArn);
        var added := CollectRequest(ids[i], fallbackArn, now);
        collected := collected + added;
      }
      assert ids[..|ids|] == ids;
    }

    /** The collecting half of `send_all_pending_payloads_on_shutdown`. */
    method CollectForShutdown(fallbackArn: string, now: int)
      returns (all: seq<Entry>, ghost items: seq<Entry>, ghost order: seq<string>)
      requires batch.Valid()
      modifies this, batch
      ensures batch.Valid() && batch.entries == map[]
      ensures Lists(items, old(batch.entries)) && ListsKeys(order, old(requests))
      ensures all == items + BufferItems(old(requests), order, fallbackArn, now)
      ensures requests == DrainedIn(old(requests), old(requests).Keys)
      ensures requests.Keys == old(requests).Keys
      ensures forall id <- old(requests) ::
        var request := old(requests)[id];
        && requests[id] == (if request.buffer == [] then request else request.(buffer := [], report := None))
        && forall p <- request.buffer :: BatchedAgentPayload(
             id, [p], request.report, if request.arn != "" then request.arn else fallbackArn, now) in all
    {
      all := batch.GetAndClearBatch();
      items := all;
      hide Lists, BufferItems, DrainedIn, ArnOf;
      var collected;
      collected, order := CollectBuffers(fallbackArn, now);
      all := all + collected;
      CollectedFrom(old(requests), order, fallbackArn, now);
      AllDrained(old(requests));
    }

    /** The chunks `send_all_pending_payloads_on_shutdown` sends. */
    method ChunksForShutdown(cfg: Config, fallbackArn: string, now: int)
      returns (chunks: seq<seq<Entry>>, ghost items: seq<Entry>, ghost order: seq<string>)
      requires batch.Valid()
      modifies this, batch
      ensures batch.Valid() && batch.entries == map[]
      ensures Lists(items, old(batch.entries)) && ListsKeys(order, old(requests))
      ensures chunks == ChunksOf(cfg, items + BufferItems(old(requests), order, fallbackArn, now))
      ensures chunks == Cuts.GreedyCut(items + BufferItems(old(requests), order, fallbackArn, now), Chunks.ItemSize,
        1_000_000 - (500 + 3 * |cfg.functionName|))
      ensures forall id <- requests :: requests[id].buffer == []
    {
      var all;
      all, items, order := CollectForShutdown(fallbackArn, now);
      chunks := Chunks.SplitIntoChunks(all, MAX_CHUNK_SIZE, cfg.functionName);
    }
  }

  // ---- The atomic code is one interleaving of the machine ------------------------------------

  /** `n` turns of a pairing task with nothing in between. */
  ghost function PairedTimes(s: State, t: nat, now: int, n: nat): State
    decreases n
  {
    if n == 0 then s else PairedTimes(PairOne(s, t, now), t, now, n - 1)
  }

  lemma {:induction false} AllAddedConcat(entries: Entries, id: string, a: seq<Payload>, b: seq<Payload>,
                                          report: Option<Report>, arn: string, now: int)
    ensures AllAdded(entries, id, a + b, report, arn, now)
            == AllAdded(AllAdded(entries, id, a, report, arn, now), id, b, report, arn, now)
  {
    if b == [] {
      assert a + b == a;
    } else {
      assert (a + b)[..|a + b| - 1] == a + b[..|b| - 1];
      AllAddedConcat(entries, id, a, b[..|b| - 1], report, arn, now);
    }
  }

  lemma {:induction false} UninterruptedPairing(s: State, t: nat, now: int)
    requires t in s.tasks && s.tasks[t].Pairing?
    ensures var task := s.tasks[t];
      var after := PairedTimes(s, t, now, |task.remaining| + 1);
      && after.batch == AllAdded(s.batch, task.id, task.remaining, Some(task.report), task.arn, now)
      && after.tasks == s.tasks - {t} && after.requests == s.requests
    decreases |s.tasks[t].remaining|
  {
    hide KeepsBooks, LeavesNothing, AllAdded, Marked;
    var task := s.tasks[t];
    if task.remaining == [] {
      AllAddedNothing(s.batch, task.id, Some(task.report), task.arn, now);
      assert PairedTimes(s, t, now, 1) == PairedTimes(PairOne(s, t, now), t, now, 0);
    } else {
      var next := PairOne(s, t, now);
      UninterruptedPairing(next, t, now);
      assert next.tasks - {t} == s.tasks - {t};
      assert task.remaining == [task.remaining[0]] + task.remaining[1..];
      AllAddedConcat(s.batch, task.id, [task.remaining[0]], task.remaining[1..], Some(task.report), task.arn, now);
    }
  }

  lemma AllAddedNothing(entries: Entries, id: string, report: Option<Report>, arn: string, now: int)
    ensures AllAdded(entries, id, [], report, arn, now) == entries
  {
  }

  /** The drain of one late request, run without interruption, is what `DrainCandidate` does in one piece. */
  lemma DrainCandidateIsAnInterleaving(s: State, current: string, id: string, fallbackArn: string, now: int)
    requires Late(s.requests, current, id) && s.clock !in s.tasks
    ensures var request := s.requests[id];
      var after := PairedTimes(DrainOne(s, current, id, fallbackArn), s.clock, now, |request.buffer| + 1);
      && after.requests == s.requests[id := request.(buffer := [], report := None)]
      && after.batch == AllAdded(s.batch, id, request.buffer, request.report, ArnOf(s.requests, id, fallbackArn), now)
      && after.tasks == s.tasks
  {
    hide KeepsBooks, LeavesNothing, AllAdded, PairedTimes, ArnOf;
    var started := DrainOne(s, current, id, fallbackArn);
    UninterruptedPairing(started, s.clock, now);
    assert started.tasks - {s.clock} == s.tasks;
  }

  /** So is the processing of a request, which is the take followed at once by the decision. */
  lemma ProcessRequestIsAnInterleaving(cfg: Config, s: State, id: string, arn: string, now: int)
    requires id in s.requests && s.requests[id].buffer != [] && s.clock !in s.tasks
    ensures var request := s.requests[id];
      var paired := !cfg.synchronousFlush && request.report.Some?;
      var after := Decide(cfg, Take(s, id, arn), s.clock, now);
      && after.requests == s.requests[id :=
           if paired then request.(buffer := [], report := None)
           else if cfg.synchronousFlush then request.(buffer := []) else request]
      && after.batch == (if paired then AllAdded(s.batch, id, request.buffer, request.report, arn, now) else s.batch)
      && after.tasks ==
           if cfg.synchronousFlush then s.tasks[s.clock := ImmediateSend(id, arn, request.buffer)] else s.tasks
  {
    hide KeepsBooks, LeavesNothing, AllAdded, Marked;
    var taken := Take(s, id, arn);
    assert taken.tasks - {s.clock} == s.tasks;
    assert [] + s.requests[id].buffer == s.requests[id].buffer;
  }

  /** So is the handling of a report that finds payloads. */
  lemma HandleReportIsAnInterleaving(s: State, report: Report, fallbackArn: string, now: int)
    requires report.requestId !in s.batch && report.requestId in s.requests && s.clock !in s.tasks
    requires s.requests[report.requestId].buffer != []
    ensures var id := report.requestId;
      var request := s.requests[id];
      var after := PairedTimes(ReportIn(s, report, fallbackArn), s.clock, now, |request.buffer| + 1);
      && after.requests == s.requests[id := request.(buffer := [])]
      && after.batch == AllAdded(s.batch, id, request.buffer, Some(report), ArnOf(s.requests, id, fallbackArn), now)
      && after.tasks == s.tasks
  {
    hide KeepsBooks, LeavesNothing, AllAdded, PairedTimes, ArnOf;
    var started := ReportIn(s, report, fallbackArn);
    UninterruptedPairing(started, s.clock, now);
    assert started.tasks - {s.clock} == s.tasks;
  }

  // ---- Sending the batch -----------------------------------------------------------------

  method EventsToSend(items: seq<Entry>) returns (events: seq<LogEvent>)
    ensures events == Chunks.EventsOf(items)
  {
    events := [];
    for i := 0 to |items|
      invariant events == Chunks.EventsOf(items[..i])
    {
      assert items[..i + 1][..i] == items[..i];
      events := Chunks.PushAgentLogEvents(events, items[i]);
    }
    assert items[..|items|] == items;
  }

  /** The version line of one request; `version` is the part that is the same for all of them. */
  function VersionLine(id: string, version: string): string {
    "Version RequestId: " + id + version
  }

  /** Outside APM mode the batch send follows the events of each item with its version line. */
  function VersionEvents(item: Entry, version: Option<string>): seq<LogEvent> {
    if version.Some? then [VersionEvent(item.requestId, VersionLine(item.requestId, version.value), item.timestamp)]
      else []
  }

  function VersionedEvents(items: seq<Entry>, version: Option<string>): seq<LogEvent> {
    if items == [] then []
    else
      var last := items[|items| - 1];
      VersionedEvents(items[..|items| - 1], version) + Chunks.LogEvents(last) + VersionEvents(last, version)
  }

  /** An entry adds its own events and, outside APM mode, one version line under its request id. */
  lemma VersionedOneMore(items: seq<Entry>, item: Entry, version: Option<string>)
    ensures VersionedEvents(items + [item], version) == VersionedEvents(items, version) + Chunks.LogEvents(item)
      + if version.Some? then
          [VersionEvent(item.requestId, "Version RequestId: " + item.requestId + version.value, item.timestamp)]
        else []
  {
    assert (items + [item])[..|items|] == items;
  }

  /** With or without version lines, the document carries each payload of its items once and in order. */
  lemma {:induction false} VersionedEventsCarry(items: seq<Entry>, version: Option<string>)
    ensures ServerlessTheorems.SentPayloads(VersionedEvents(items, version)) == CarriedBy(items)
  {
    if items != [] {
      var init, last := items[..|items| - 1], items[|items| - 1];
      VersionedEventsCarry(init, version);
      ServerlessTheorems.LogEventsSend(last);
      ServerlessTheorems.SentPayloadsConcat(VersionedEvents(init, version), Chunks.LogEvents(last));
      ServerlessTheorems.SentPayloadsConcat(VersionedEvents(init, version) + Chunks.LogEvents(last),
                                            VersionEvents(last, version));
      NoPayloadInVersions(last, version);
      hide ServerlessTheorems.SentPayloads, Chunks.LogEvents, VersionEvents;
    }
  }

  lemma NoPayloadInVersions(item: Entry, version: Option<string>)
    ensures ServerlessTheorems.SentPayloads(VersionEvents(item, version)) == []
  {
    if version.Some? {
      assert VersionEvents(item, version)[..0] == [];
    }
  }

  method VersionedEventsToSend(items: seq<Entry>, version: Option<string>) returns (events: seq<LogEvent>)
    ensures events == VersionedEvents(items, version)
  {
    events := [];
    for i := 0 to |items|
      invariant events == VersionedEvents(items[..i], version)
    {
      assert items[..i + 1][..i] == items[..i];
      events := Chunks.PushAgentLogEvents(events, items[i]);
      if version.Some? {
        var line := VersionLine(items[i].requestId, version.value);
        events := events + [VersionEvent(items[i].requestId, line, items[i].timestamp)];
      }
    }
    assert items[..|items|] == items;
  }

  /**
   * `send_batched_payloads_with_reports_only` when nothing else runs while it sends; `version` is absent in APM mode.
   */
  method SendBatched(batch: AgentBatchBuffer, version: Option<string>, ok: bool)
    returns (events: seq<LogEvent>, ghost items: seq<Entry>)
    requires batch.Valid()
    modifies batch
    ensures batch.Valid() && Lists(items, WithReports(old(batch.entries))) && events == VersionedEvents(items, version)
    ensures batch.entries ==
      if ok then old(batch.entries) - WithReports(old(batch.entries)).Keys else old(batch.entries)
    ensures forall id <- old(batch.entries) ::
      && (old(batch.entries)[id] in items <==> old(batch.entries)[id].report.Some?)
      && (id !in batch.entries <==> ok && old(batch.entries)[id].report.Some?)
  {
    var taken := batch.GetBatchWithReportsOnly();
    items := taken;
    ListedIds(items, WithReports(batch.entries));
    events := VersionedEventsToSend(taken, version);
    if taken != [] && ok {
      batch.ClearBatch(taken);
    } else {
      assert taken == [] ==> batch.entries - Ids([]) == batch.entries;
    }
  }

  /** `cleanup_old_batch_entries` when nothing else runs while it sends: removal does not wait for success. */
  method CleanupOld(batch: AgentBatchBuffer, now: int, ok: bool)
    returns (events: seq<LogEvent>, ghost items: seq<Entry>)
    requires batch.Valid()
    modifies batch
    ensures batch.Valid() && Lists(items, OlderThan(old(batch.entries), now)) && events == Chunks.EventsOf(items)
    ensures batch.entries == old(batch.entries) - OlderThan(old(batch.entries), now).Keys
    ensures forall id <- old(batch.entries) ::
      && (old(batch.entries)[id] in items <==> now - old(batch.entries)[id].timestamp >= 300_000)
      && (id !in batch.entries <==> now - old(batch.entries)[id].timestamp >= 300_000)
  {
    var taken := batch.OldEntries(now);
    items := taken;
    ListedIds(items, OlderThan(batch.entries, now));
    events := EventsToSend(taken);
    if taken != [] {
      batch.ClearBatch(taken);
    } else {
      assert batch.entries - Ids([]) == batch.entries;
    }
  }

  /** Without anything in between, a successful send removes exactly what it sent: losing a payload takes an overlap. */
  lemma UninterruptedSendLosesNothing(s: State)
    requires s.clock !in s.tasks && |WithReports(s.batch)| != 0
    ensures var after := SnapshotSent(SendSnapshot(s), s.clock, true);
      && after.batch == s.batch - WithReports(s.batch).Keys
      && after.late == s.late && after.failedSweep == s.failedSweep
  {
    var snapshot := WithReports(s.batch);
    ServerlessLoss.CurrentRemovalLosesNothing(s.batch, snapshot);
    hide KeepsBooks, LeavesNothing, WithReports, Bags.Bag, Seen, Unseen, LateNow, SnapshotSerials;
  }

  lemma SweepEnds(s: State, snapshot: Entries, ok: bool)
    requires s.clock !in s.tasks && forall id <- snapshot :: id in s.batch && snapshot[id] == s.batch[id]
    ensures var after := SnapshotSent(Spawned(s, Sweep(snapshot)), s.clock, ok);
      after.batch == s.batch - snapshot.Keys && after.late == s.late && after.tasks == s.tasks
  {
    ServerlessLoss.CurrentRemovalLosesNothing(s.batch, snapshot);
    assert s.tasks[s.clock := Sweep(snapshot)] - {s.clock} == s.tasks;
    hide KeepsBooks, Bags.Bag, Seen, Unseen, LateNow, SnapshotSerials;
  }

  lemma TheOldAndTheRest(entries: Entries, now: int)
    ensures entries - OlderThan(entries, now).Keys ==
      map id | id in entries && now - entries[id].timestamp < 300_000 :: entries[id]
    ensures |OlderThan(entries, now)| == 0 ==> entries - OlderThan(entries, now).Keys == entries
    ensures forall id <- OlderThan(entries, now) :: id in entries && OlderThan(entries, now)[id] == entries[id]
  {
    if |OlderThan(entries, now)| == 0 {
      assert OlderThan(entries, now) == map[];
    }
  }

  /** A sweep with nothing in between removes exactly the entries that are five minutes old, sent or not. */
  lemma UninterruptedSweepRemovesTheOld(s: State, now: int, ok: bool)
    requires s.clock !in s.tasks
    ensures var after := SnapshotSent(SweepSnapshot(s, now), s.clock, ok);
      && after.batch == (map id | id in s.batch && now - s.batch[id].timestamp < 300_000 :: s.batch[id])
      && after.late == s.late && after.tasks == s.tasks
  {
    TheOldAndTheRest(s.batch, now);
    hide OlderThan;
    if |OlderThan(s.batch, now)| == 0 {
      NothingEnds(s, ok);
    } else {
      SweepEnds(s, OlderThan(s.batch, now), ok);
    }
    hide SnapshotSent, KeepsBooks, LeavesNothing, RemovesNothing, Spawned;
  }

  lemma NothingEnds(s: State, ok: bool)
    requires s.clock !in s.tasks
    ensures SnapshotSent(s, s.clock, ok) == s
  {
  }
}
