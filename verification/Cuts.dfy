/** Cuts of a list into contiguous runs of bounded total size, for any size measure. */
module Cuts {

  function TotalSize<T>(items: seq<T>, size: T -> nat): nat {
    if items == [] then 0 else TotalSize(items[..|items| - 1], size) + size(items[|items| - 1])
  }

  lemma TotalSizeConcat<T>(a: seq<T>, b: seq<T>, size: T -> nat)
    ensures TotalSize(a + b, size) == TotalSize(a, size) + TotalSize(b, size)
  {
    if b == [] {
      assert a + b == a;
    } else {
      assert (a + b)[..|a + b| - 1] == a + b[..|b| - 1];
      TotalSizeConcat(a, b[..|b| - 1], size);
    }
  }

  // ---- Legal cuts ------------------------------------------------------------------------

  function Flatten<T>(chunks: seq<seq<T>>): seq<T> {
    if chunks == [] then [] else Flatten(chunks[..|chunks| - 1]) + chunks[|chunks| - 1]
  }

  /** A run may be sent as one chunk: a lone item always may, several only within the limit. */
  ghost predicate Fits<T>(run: seq<T>, size: T -> nat, room: int) {
    |run| == 1 || (run != [] && TotalSize(run, size) <= room)
  }

  ghost predicate LegalCut<T>(chunks: seq<seq<T>>, items: seq<T>, size: T -> nat, room: int) {
    Flatten(chunks) == items && forall i :: 0 <= i < |chunks| ==> Fits(chunks[i], size, room)
  }

  /** No legal cut has fewer runs than `chunks` plus the open run, and one with as many
      ends in a run at least as long as the open one. */
  ghost predicate Ahead<T(!new)>(chunks: seq<seq<T>>, open: seq<T>, items: seq<T>, size: T -> nat, room: int) {
    forall cut :: LegalCut(cut, items, size, room) ==>
      && |cut| >= |chunks| + 1
      && (|cut| == |chunks| + 1 ==> |cut[|cut| - 1]| >= |open|)
  }

  /** Dropping the last item of a legal cut leaves a legal cut of the shorter input. */
  lemma DropLastItem<T>(cut: seq<seq<T>>, items: seq<T>, last: T, size: T -> nat, room: int)
    returns (shorter: seq<seq<T>>)
    requires LegalCut(cut, items + [last], size, room)
    ensures LegalCut(shorter, items, size, room)
    ensures cut != [] && var run := cut[|cut| - 1];
      run != [] && run[|run| - 1] == last &&
      if |run| == 1 then |shorter| == |cut| - 1
      else |shorter| == |cut| && shorter[|cut| - 1] == run[..|run| - 1]
  {
    var init, run := cut[..|cut| - 1], cut[|cut| - 1];
    assert Fits(run, size, room);
    assert Flatten(cut) == Flatten(init) + run;
    var rest := run[..|run| - 1];
    assert run == rest + [run[|run| - 1]];
    assert run[|run| - 1] == (items + [last])[|items|];
    assert Flatten(init) + rest == (items + [last])[..|items|] == items;
    if |run| == 1 {
      shorter := init;
    } else {
      shorter := init + [rest];
      assert shorter[..|shorter| - 1] == init;
      TotalSizeConcat(rest, [run[|run| - 1]], size);
    }
  }

  /** Of two suffixes of one list, the longer one is at least as large. */
  lemma LongerSuffixIsLarger<T>(prefix: seq<T>, longer: seq<T>, prefix': seq<T>, shorter: seq<T>, size: T -> nat)
    requires prefix + longer == prefix' + shorter
    requires |longer| >= |shorter|
    ensures TotalSize(longer, size) >= TotalSize(shorter, size)
  {
    var extra := longer[..|longer| - |shorter|];
    assert longer == extra + shorter by {
      assert longer == (prefix + longer)[|prefix|..];
      assert shorter == (prefix' + shorter)[|prefix'|..];
    }
    TotalSizeConcat(extra, shorter, size);
  }

  /** What one turn of the loop needs to know about any single cut of the longer input. */
  lemma AheadOfCut<T(!new)>(cut: seq<seq<T>>, chunks: seq<seq<T>>, open: seq<T>, items: seq<T>, next: T,
                   size: T -> nat, room: int)
    requires Flatten(chunks) + open == items
    requires Ahead(chunks, open, items, size, room)
    requires LegalCut(cut, items + [next], size, room)
    ensures |cut| >= |chunks| + 1 && |cut[|cut| - 1]| >= 1
    ensures |cut| == |chunks| + 1 ==>
      |cut[|cut| - 1]| >= |open| + 1 && TotalSize(open, size) + size(next) <= room
  {
    var shorter := DropLastItem(cut, items, next, size, room);
    var run := cut[|cut| - 1];
    if |run| > 1 && |cut| == |chunks| + 1 {
      var rest := run[..|run| - 1];
      LongerSuffixIsLarger(Flatten(shorter[..|shorter| - 1]), rest, Flatten(chunks), open, size);
      assert run == rest + [next];
      SizeOfPush(rest, next, size);
      assert Fits(run, size, room);
    }
  }

  lemma SizeOfPush<T>(items: seq<T>, next: T, size: T -> nat)
    ensures TotalSize(items + [next], size) == TotalSize(items, size) + size(next)
  {
    assert (items + [next])[..|items|] == items;
  }

  /** One turn of the loop keeps the greedy cut ahead, whichever branch it takes. */
  lemma AheadStep<T(!new)>(chunks: seq<seq<T>>, open: seq<T>, items: seq<T>, next: T, size: T -> nat, room: int)
    requires Flatten(chunks) + open == items
    requires Ahead(chunks, open, items, size, room)
    ensures if TotalSize(open, size) + size(next) > room
            then Ahead(chunks + [open], [next], items + [next], size, room)
            else Ahead(chunks, open + [next], items + [next], size, room)
  {
    forall cut | LegalCut(cut, items + [next], size, room)
      ensures |cut| >= |chunks| + 1 && |cut[|cut| - 1]| >= 1
      ensures |cut| == |chunks| + 1 ==>
        |cut[|cut| - 1]| >= |open| + 1 && TotalSize(open, size) + size(next) <= room
    {
      AheadOfCut(cut, chunks, open, items, next, size, room);
    }
  }

  lemma FirstItemAhead<T(!new)>(item: T, size: T -> nat, room: int)
    ensures Ahead([], [item], [item], size, room)
  {
    forall cut | LegalCut(cut, [item], size, room)
      ensures cut != [] && cut[|cut| - 1] != []
    {
      assert [] + [item] == [item];
      var _ := DropLastItem(cut, [], item, size, room);
    }
  }

  /** The state of the loop before turn `i`: what is closed and what is open is a cut of what was read. */
  ghost predicate Greedy<T(!new)>(chunks: seq<seq<T>>, open: seq<T>, items: seq<T>, size: T -> nat, room: int) {
    && Flatten(chunks) + open == items
    && (forall j :: 0 <= j < |chunks| ==> Fits(chunks[j], size, room))
    && (items == [] ==> chunks == [] && open == [])
    && (items != [] ==> Fits(open, size, room) && Ahead(chunks, open, items, size, room))
  }

  lemma GreedyStep<T(!new)>(chunks: seq<seq<T>>, open: seq<T>, items: seq<T>, next: T, size: T -> nat, room: int)
    requires Greedy(chunks, open, items, size, room)
    ensures if TotalSize(open, size) + size(next) > room && open != []
            then Greedy(chunks + [open], [next], items + [next], size, room)
            else Greedy(chunks, open + [next], items + [next], size, room)
  {
    SizeOfPush(open, next, size);
    if open == [] {
      assert open + [next] == [next] == items + [next];
      FirstItemAhead(next, size, room);
    } else {
      AheadStep(chunks, open, items, next, size, room);
      assert (chunks + [open])[..|chunks|] == chunks;
      assert Flatten(chunks) + (open + [next]) == items + [next];
    }
  }

  /** The closed runs and the open run after reading all of `items`. */
  function GreedyRuns<T>(items: seq<T>, size: T -> nat, room: int): (seq<seq<T>>, seq<T>) {
    if items == [] then ([], [])
    else
      var (chunks, open) := GreedyRuns(items[..|items| - 1], size, room);
      var next := items[|items| - 1];
      if TotalSize(open, size) + size(next) > room && open != [] then (chunks + [open], [next])
      else (chunks, open + [next])
  }

  lemma GreedyRunsOfNone<T>(size: T -> nat, room: int)
    ensures GreedyRuns([], size, room) == ([], []) && TotalSize([], size) == 0
  {
  }

  lemma GreedyRunsOfPush<T>(items: seq<T>, i: nat, size: T -> nat, room: int)
    requires i < |items|
    ensures var (chunks, open) := GreedyRuns(items[..i], size, room);
      GreedyRuns(items[..i + 1], size, room)
      == if TotalSize(open, size) + size(items[i]) > room && open != [] then (chunks + [open], [items[i]])
         else (chunks, open + [items[i]])
  {
    assert items[..i + 1][..i] == items[..i];
    hide TotalSize;
  }

  function GreedyCut<T>(items: seq<T>, size: T -> nat, room: int): seq<seq<T>> {
    var (chunks, open) := GreedyRuns(items, size, room);
    if open == [] then chunks else chunks + [open]
  }

  lemma {:induction false} GreedyRunsStayAhead<T(!new)>(items: seq<T>, size: T -> nat, room: int)
    ensures var (chunks, open) := GreedyRuns(items, size, room);
      Greedy(chunks, open, items, size, room)
  {
    if items != [] {
      var init, next := items[..|items| - 1], items[|items| - 1];
      assert init + [next] == items;
      assert [] + [next] == [next];
      GreedyRunsStayAhead(init, size, room);
      var (chunks, open) := GreedyRuns(init, size, room);
      GreedyStep(chunks, open, init, next, size, room);
    }
  }

  /** A legal cut such that no legal cut of the same list has fewer runs. */
  ghost predicate Optimal<T(!new)>(chunks: seq<seq<T>>, items: seq<T>, size: T -> nat, room: int) {
    && LegalCut(chunks, items, size, room)
    && forall cut :: LegalCut(cut, items, size, room) ==> |chunks| <= |cut|
  }

  lemma {:induction false} GreedyCutFlattens<T>(items: seq<T>, size: T -> nat, room: int)
    ensures Flatten(GreedyCut(items, size, room)) == items
  {
    GreedyRunsFlatten(items, size, room);
    var (chunks, open) := GreedyRuns(items, size, room);
    assert (chunks + [open])[..|chunks|] == chunks;
  }

  lemma {:induction false} GreedyRunsFlatten<T>(items: seq<T>, size: T -> nat, room: int)
    ensures var (chunks, open) := GreedyRuns(items, size, room);
      Flatten(chunks) + open == items
  {
    if items != [] {
      var init, next := items[..|items| - 1], items[|items| - 1];
      assert init + [next] == items;
      GreedyRunsFlatten(init, size, room);
      var (chunks, open) := GreedyRuns(init, size, room);
      assert (chunks + [open])[..|chunks|] == chunks;
      assert Flatten(chunks) + (open + [next]) == Flatten(chunks) + open + [next];
    }
  }

  /** The greedy cut is legal, and no legal cut into contiguous runs has fewer of them. */
  lemma GreedyCutIsOptimal<T(!new)>(items: seq<T>, size: T -> nat, room: int)
    ensures Optimal(GreedyCut(items, size, room), items, size, room)
  {
    hide GreedyRuns, TotalSize, Fits;
    var (chunks, open) := GreedyRuns(items, size, room);
    assert (chunks + [open])[..|chunks|] == chunks;
    GreedyRunsStayAhead(items, size, room);
  }
}
