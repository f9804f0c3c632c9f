/** The parser of `NEW_RELIC_LABELS` (src/config/mod.rs). */
module Labels {
  import opened Types

  const MAX_LABEL_LEN := 255
  const MAX_LABELS := 64

  datatype Label = Label(key: string, value: string)

  // ---- Strings ---------------------------------------------------------------------------

  /** The Unicode property White_Space, which `str::trim` strips. */
  predicate IsSpace(c: char) {
    || '\U{0009}' <= c <= '\U{000D}' || c == ' ' || c == '\U{0085}' || c == '\U{00A0}' || c == '\U{1680}'
    || '\U{2000}' <= c <= '\U{200A}' || c == '\U{2028}' || c == '\U{2029}' || c == '\U{202F}' || c == '\U{205F}'
    || c == '\U{3000}'
  }

  function TrimStart(s: string): (r: string)
    ensures r != [] ==> !IsSpace(r[0])
    ensures |r| <= |s|
  {
    if s == [] then [] else if IsSpace(s[0]) then TrimStart(s[1..]) else s
  }

  function TrimEnd(s: string): (r: string)
    ensures r != [] ==> !IsSpace(r[|r| - 1])
    ensures r <= s
  {
    if s == [] then [] else if IsSpace(s[|s| - 1]) then TrimEnd(s[..|s| - 1]) else s
  }

  function Trim(s: string): (r: string)
    ensures r != [] ==> !IsSpace(r[0]) && !IsSpace(r[|r| - 1])
  {
    TrimEnd(TrimStart(s))
  }

  predicate Blank(s: string) { Trim(s) == [] }

  lemma SpaceIsWhiteSpace(c: char)
    ensures IsSpace(c) <==> c as int in {
      0x09, 0x0A, 0x0B, 0x0C, 0x0D, 0x20, 0x85, 0xA0, 0x1680, 0x2000, 0x2001, 0x2002, 0x2003, 0x2004, 0x2005, 0x2006,
      0x2007, 0x2008, 0x2009, 0x200A, 0x2028, 0x2029, 0x202F, 0x205F, 0x3000 }
  {
  }

  predicate Spaces(s: string) {
    forall i :: 0 <= i < |s| ==> IsSpace(s[i])
  }

  lemma {:induction false} TrimStartPadded(lead: string, s: string)
    requires Spaces(lead)
    ensures TrimStart(lead + s) == TrimStart(s)
  {
    if lead == [] {
      assert lead + s == s;
    } else {
      assert (lead + s)[1..] == lead[1..] + s;
      TrimStartPadded(lead[1..], s);
    }
  }

  lemma {:induction false} TrimEndPadded(s: string, trail: string)
    requires Spaces(trail)
    ensures TrimEnd(s + trail) == TrimEnd(s)
  {
    if trail == [] {
      assert s + trail == s;
    } else {
      var shorter := trail[..|trail| - 1];
      assert (s + trail)[..|s + trail| - 1] == s + shorter;
      TrimEndPadded(s, shorter);
    }
  }

  lemma {:induction false} TrimStartSplits(s: string) returns (lead: string)
    ensures s == lead + TrimStart(s) && Spaces(lead)
  {
    lead := [];
    if s != [] && IsSpace(s[0]) {
      hide IsSpace;
      var rest := TrimStartSplits(s[1..]);
      assert s == [s[0]] + s[1..];
      lead := [s[0]] + rest;
    }
  }

  lemma {:induction false} TrimEndSplits(s: string) returns (trail: string)
    ensures s == TrimEnd(s) + trail && Spaces(trail)
  {
    trail := [];
    if s != [] && IsSpace(s[|s| - 1]) {
      hide IsSpace;
      var rest := TrimEndSplits(s[..|s| - 1]);
      assert s == s[..|s| - 1] + [s[|s| - 1]];
      trail := rest + [s[|s| - 1]];
    }
  }

  /** What is cut off is white space, and what is left has none at either end. */
  lemma TrimSplits(s: string) returns (lead: string, trail: string)
    ensures s == lead + Trim(s) + trail && Spaces(lead) && Spaces(trail)
    ensures Trim(s) != [] ==> !IsSpace(Trim(s)[0]) && !IsSpace(Trim(s)[|Trim(s)| - 1])
  {
    hide IsSpace;
    lead := TrimStartSplits(s);
    trail := TrimEndSplits(TrimStart(s));
  }

  /** White space around a string never changes what is left of it. */
  lemma TrimPadded(lead: string, s: string, trail: string)
    requires Spaces(lead) && Spaces(trail)
    ensures Trim(lead + s + trail) == Trim(s)
  {
    hide IsSpace, Spaces, TrimStart, TrimEnd;
    assert lead + s + trail == lead + (s + trail);
    TrimStartPadded(lead, s + trail);
    var cut := TrimStartSplits(s);
    var rest := TrimStart(s);
    assert s + trail == cut + (rest + trail);
    TrimStartPadded(cut, rest + trail);
    if rest == [] {
      assert rest + trail == trail + [];
      TrimStartPadded(trail, []);
      assert TrimStart([]) == [];
    } else {
      TrimStartStays(rest, trail);
      TrimEndPadded(rest, trail);
    }
  }

  lemma TrimStartStays(s: string, trail: string)
    requires s != [] && !IsSpace(s[0])
    ensures TrimStart(s + trail) == s + trail
  {
  }

  lemma TrimLead(lead: string, s: string)
    requires Spaces(lead)
    ensures Trim(lead + s) == Trim(s)
  {
    assert lead + s + [] == lead + s;
    TrimPadded(lead, s, []);
  }

  lemma TrimTrail(s: string, trail: string)
    requires Spaces(trail)
    ensures Trim(s + trail) == Trim(s)
  {
    assert [] + s + trail == s + trail;
    TrimPadded([], s, trail);
  }

  lemma TrimStops(s: string)
    requires s != [] && !IsSpace(s[0]) && !IsSpace(s[|s| - 1])
    ensures Trim(s) == s
  {
  }

  /** `str::split` on one character: always at least one piece. */
  function Split(s: string, c: char): (pieces: seq<string>)
    ensures |pieces| > 0
  {
    if s == [] then [[]]
    else
      var rest := Split(s[1..], c);
      if s[0] == c then [[]] + rest else [[s[0]] + rest[0]] + rest[1..]
  }

  lemma {:induction false} SplitAtSeparator(a: string, c: char, b: string)
    requires c !in a
    ensures Split(a + [c] + b, c) == [a] + Split(b, c)
  {
    var s := a + [c] + b;
    if a == [] {
      assert s[1..] == b;
    } else {
      assert s[1..] == a[1..] + [c] + b && a == [a[0]] + a[1..];
      SplitAtSeparator(a[1..], c, b);
    }
  }

  lemma {:induction false} SplitOfOne(a: string, c: char)
    requires c !in a
    ensures Split(a, c) == [a]
  {
    if a != [] {
      assert a == [a[0]] + a[1..];
      SplitOfOne(a[1..], c);
    }
  }

  lemma {:induction false} SplitBeforeLast(a: string, c: char)
    ensures Split(a + [c], c) == Split(a, c) + [[]]
  {
    if a == [] {
      assert ([] + [c])[1..] == [];
    } else {
      assert (a + [c])[1..] == a[1..] + [c];
      SplitBeforeLast(a[1..], c);
      if a[0] != c {
        assert (Split(a[1..], c) + [[]])[1..] == Split(a[1..], c)[1..] + [[]];
      }
    }
  }

  function Joined(pieces: seq<string>, c: char): string
    requires |pieces| > 0
  {
    if |pieces| == 1 then pieces[0] else pieces[0] + [c] + Joined(pieces[1..], c)
  }

  /** The pieces are what lies between the separators. */
  lemma {:induction false} SplitJoins(s: string, c: char)
    ensures Joined(Split(s, c), c) == s && forall i :: 0 <= i < |Split(s, c)| ==> c !in Split(s, c)[i]
  {
    if s != [] {
      SplitJoins(s[1..], c);
      assert s == [s[0]] + s[1..];
    }
  }

  lemma SplitExtendsFirst(s: string, x: char, c: char)
    requires x != c
    ensures Split([x] + s, c) == [[x] + Split(s, c)[0]] + Split(s, c)[1..]
  {
    assert ([x] + s)[1..] == s;
  }

  lemma {:induction false} SplitExtendsLast(s: string, x: char, c: char)
    requires x != c
    ensures var pieces := Split(s, c);
      Split(s + [x], c) == pieces[..|pieces| - 1] + [pieces[|pieces| - 1] + [x]]
  {
    if s == [] {
      assert [] + [x] == [x] + [];
      SplitExtendsFirst([], x, c);
    } else {
      assert (s + [x])[1..] == s[1..] + [x];
      SplitExtendsLast(s[1..], x, c);
      var rest := Split(s[1..], c);
      if s[0] != c && |rest| == 1 {
        assert [s[0]] + (rest[0] + [x]) == ([s[0]] + rest[0]) + [x];
      }
    }
  }

  // ---- What the parser returns -----------------------------------------------------------

  function Truncated(part: string): string {
    if |part| > MAX_LABEL_LEN then part[..MAX_LABEL_LEN] else part
  }

  /** One segment read as a label: exactly one colon, neither side blank. */
  function LabelOf(segment: string): Option<Label> {
    var parts := Split(Trim(segment), ':');
    if |parts| == 2 && !Blank(parts[0]) && !Blank(parts[1]) then
      Some(Label(Truncated(Trim(parts[0])), Truncated(Trim(parts[1]))))
    else None
  }

  function DropBlankStart(segments: seq<string>): (r: seq<string>)
    ensures |r| <= |segments|
  {
    if segments == [] then [] else if Blank(segments[0]) then DropBlankStart(segments[1..]) else segments
  }

  function DropBlankEnd(segments: seq<string>): seq<string> {
    if segments == [] then []
    else if Blank(segments[|segments| - 1]) then DropBlankEnd(segments[..|segments| - 1]) else segments
  }

  /** The segments between the outermost blank ones. */
  function Inner(segments: seq<string>): seq<string> {
    DropBlankEnd(DropBlankStart(segments))
  }

  function Put(labels: seq<Label>, tag: Label): seq<Label> {
    if labels == [] then [tag]
    else if labels[0].key == tag.key then [labels[0].(value := tag.value)] + labels[1..]
    else [labels[0]] + Put(labels[1..], tag)
  }

  function PutAll(labels: seq<Label>): seq<Label> {
    if labels == [] then [] else Put(PutAll(labels[..|labels| - 1]), labels[|labels| - 1])
  }

  predicate WellFormed(segments: seq<string>) {
    forall i :: 0 <= i < |segments| ==> LabelOf(segments[i]).Some?
  }

  function LabelsIn(segments: seq<string>): seq<Label>
    requires WellFormed(segments)
  {
    seq(|segments|, i requires 0 <= i < |segments| => LabelOf(segments[i]).value)
  }

  function Capped(labels: seq<Label>): (r: seq<Label>)
    ensures |r| <= MAX_LABELS && r <= labels && (|r| < |labels| ==> |r| == MAX_LABELS)
  {
    if |labels| > MAX_LABELS then labels[..MAX_LABELS] else labels
  }

  /** One malformed segment discards all labels. */
  function FromSegments(segments: seq<string>): seq<Label> {
    if WellFormed(segments) then Capped(PutAll(LabelsIn(segments))) else []
  }

  function Parsed(raw: string): seq<Label> {
    FromSegments(Inner(Split(raw, ';')))
  }

  // ---- Last occurrence wins, in first-occurrence order -------------------------------------

  ghost predicate Distinct(labels: seq<Label>) {
    forall i, j :: 0 <= i < j < |labels| ==> labels[i].key != labels[j].key
  }

  function FirstAt(labels: seq<Label>, key: string): (i: nat)
    ensures i <= |labels|
    ensures i < |labels| ==> labels[i].key == key
    ensures forall j :: 0 <= j < i ==> labels[j].key != key
  {
    if labels == [] || labels[0].key == key then 0 else FirstAt(labels[1..], key) + 1
  }

  function LastAt(labels: seq<Label>, key: string): (i: int)
    ensures -1 <= i < |labels|
    ensures i >= 0 ==> labels[i].key == key
    ensures forall j :: i < j < |labels| ==> labels[j].key != key
  {
    if labels == [] then -1
    else if labels[|labels| - 1].key == key then |labels| - 1
    else LastAt(labels[..|labels| - 1], key)
  }

  lemma {:induction false} PutIs(labels: seq<Label>, tag: Label)
    ensures var k := FirstAt(labels, tag.key);
      Put(labels, tag) == if k < |labels| then labels[k := labels[k].(value := tag.value)] else labels + [tag]
  {
    if labels != [] && labels[0].key != tag.key {
      PutIs(labels[1..], tag);
    }
  }

  /**
   * `result` lists each key of `labels` once, in the order of first occurrences, with the value of the last
   * occurrence.
   */
  ghost predicate Canonical(result: seq<Label>, labels: seq<Label>) {
    Distinct(result) && CoversKeys(result, labels) && LastWins(result, labels) && FirstOrder(result, labels)
  }

  ghost predicate CoversKeys(result: seq<Label>, labels: seq<Label>) {
    forall i :: 0 <= i < |labels| ==> FirstAt(result, labels[i].key) < |result|
  }

  ghost predicate LastWins(result: seq<Label>, labels: seq<Label>) {
    forall i :: 0 <= i < |result| ==>
      LastAt(labels, result[i].key) >= 0 && result[i].value == labels[LastAt(labels, result[i].key)].value
  }

  ghost predicate FirstOrder(result: seq<Label>, labels: seq<Label>) {
    forall i, j :: 0 <= i < j < |result| ==> FirstAt(labels, result[i].key) < FirstAt(labels, result[j].key)
  }

  lemma {:induction false} FirstOfPush(labels: seq<Label>, tag: Label, key: string)
    ensures FirstAt(labels + [tag], key)
            == if FirstAt(labels, key) < |labels| then FirstAt(labels, key)
               else if tag.key == key then |labels| else |labels| + 1
  {
    if labels != [] && labels[0].key != key {
      assert (labels + [tag])[1..] == labels[1..] + [tag];
      FirstOfPush(labels[1..], tag, key);
    }
  }

  lemma LastOfPush(labels: seq<Label>, tag: Label, key: string)
    ensures LastAt(labels + [tag], key) == if tag.key == key then |labels| else LastAt(labels, key)
  {
    assert (labels + [tag])[..|labels|] == labels;
  }

  /** What `Put` does, without saying how. */
  ghost predicate PutInto(after: seq<Label>, result: seq<Label>, tag: Label) {
    var k := FirstAt(result, tag.key);
    && |after| == (if k < |result| then |result| else |result| + 1)
    && (forall i :: 0 <= i < |result| ==> after[i].key == result[i].key)
    && (forall i :: 0 <= i < |result| && i != k ==> after[i] == result[i])
    && after[k] == tag
  }

  lemma PutPutsInto(result: seq<Label>, tag: Label)
    ensures PutInto(Put(result, tag), result, tag)
  {
    PutIs(result, tag);
    hide Put;
  }

  lemma StaysDistinct(after: seq<Label>, result: seq<Label>, tag: Label)
    requires PutInto(after, result, tag) && Distinct(result)
    ensures Distinct(after)
  {
  }

  lemma StillCovers(after: seq<Label>, result: seq<Label>, labels: seq<Label>, tag: Label)
    requires PutInto(after, result, tag) && CoversKeys(result, labels)
    ensures CoversKeys(after, labels + [tag])
  {
    var more := labels + [tag];
    forall i | 0 <= i < |more| ensures FirstAt(after, more[i].key) < |after| {
      var k := FirstAt(result, more[i].key);
      assert i < |labels| ==> more[i] == labels[i];
      assert k < |after| && after[k].key == more[i].key;
    }
  }

  lemma LastStillWins(after: seq<Label>, result: seq<Label>, labels: seq<Label>, tag: Label)
    requires PutInto(after, result, tag) && LastWins(result, labels) && Distinct(result)
    ensures LastWins(after, labels + [tag])
  {
    var more := labels + [tag];
    forall i | 0 <= i < |after|
      ensures LastAt(more, after[i].key) >= 0 && after[i].value == more[LastAt(more, after[i].key)].value
    {
      LastOfPush(labels, tag, after[i].key);
      if after[i].key != tag.key {
        assert i < |result| && after[i] == result[i];
      }
    }
  }

  lemma StillInFirstOrder(after: seq<Label>, result: seq<Label>, labels: seq<Label>, tag: Label)
    requires PutInto(after, result, tag) && LastWins(result, labels) && FirstOrder(result, labels)
      && CoversKeys(result, labels)
    ensures FirstOrder(after, labels + [tag])
  {
    var more := labels + [tag];
    forall i, j | 0 <= i < j < |after| ensures FirstAt(more, after[i].key) < FirstAt(more, after[j].key) {
      FirstOfPush(labels, tag, after[i].key);
      FirstOfPush(labels, tag, after[j].key);
      Occurs(labels, result[i].key);
      if j < |result| {
        Occurs(labels, result[j].key);
      } else {
        NewKey(result, labels, tag.key);
      }
    }
  }

  lemma NewKey(result: seq<Label>, labels: seq<Label>, key: string)
    requires CoversKeys(result, labels) && FirstAt(result, key) == |result|
    ensures FirstAt(labels, key) == |labels|
  {
    forall i | 0 <= i < |labels| ensures labels[i].key != key {
    }
  }

  lemma Occurs(labels: seq<Label>, key: string)
    requires LastAt(labels, key) >= 0
    ensures FirstAt(labels, key) < |labels|
  {
    assert labels[LastAt(labels, key)].key == key;
  }

  lemma OneMoreLabel(result: seq<Label>, labels: seq<Label>, tag: Label)
    requires Canonical(result, labels)
    ensures Canonical(Put(result, tag), labels + [tag])
  {
    hide Put, PutInto, Distinct, CoversKeys, LastWins, FirstOrder;
    var after := Put(result, tag);
    PutPutsInto(result, tag);
    StaysDistinct(after, result, tag);
    StillCovers(after, result, labels, tag);
    LastStillWins(after, result, labels, tag);
    StillInFirstOrder(after, result, labels, tag);
  }

  lemma {:induction false} PutAllIsCanonical(labels: seq<Label>)
    ensures Canonical(PutAll(labels), labels)
  {
    if labels == [] {
    } else {
      hide Canonical, Put;
      var init, last := labels[..|labels| - 1], labels[|labels| - 1];
      assert init + [last] == labels;
      assert PutAll(labels) == Put(PutAll(init), last);
      hide PutAll;
      PutAllIsCanonical(init);
      OneMoreLabel(PutAll(init), init, last);
    }
  }

  /** Neither empty nor over the limit, and without white space at its ends unless it was cut. */
  ghost predicate Tidy(part: string) {
    0 < |part| <= 255 && (|part| < 255 ==> Trim(part) == part)
  }

  lemma TruncatedIsTidy(part: string)
    requires Trim(part) != []
    ensures Tidy(Truncated(Trim(part)))
  {
    TrimStops(Trim(part));
    hide Trim;
  }

  lemma LabelOfIsTidy(segment: string)
    requires LabelOf(segment).Some?
    ensures Tidy(LabelOf(segment).value.key) && Tidy(LabelOf(segment).value.value)
  {
    var parts := Split(Trim(segment), ':');
    hide Trim, Split, Tidy, Truncated;
    TruncatedIsTidy(parts[0]);
    TruncatedIsTidy(parts[1]);
  }

  ghost predicate AllTidy(labels: seq<Label>) {
    forall i :: 0 <= i < |labels| ==> Tidy(labels[i].key) && Tidy(labels[i].value)
  }

  lemma LabelsAreTidy(segments: seq<string>)
    requires WellFormed(segments)
    ensures AllTidy(LabelsIn(segments))
  {
    forall i | 0 <= i < |segments| ensures Tidy(LabelsIn(segments)[i].key) && Tidy(LabelsIn(segments)[i].value) {
      LabelOfIsTidy(segments[i]);
    }
    hide LabelOf, Tidy;
  }

  lemma CanonicalIsTidy(result: seq<Label>, labels: seq<Label>)
    requires Canonical(result, labels) && AllTidy(labels)
    ensures AllTidy(result)
  {
    hide Tidy;
    forall i | 0 <= i < |result| ensures Tidy(result[i].key) && Tidy(result[i].value) {
      var k := LastAt(labels, result[i].key);
      assert labels[k].key == result[i].key;
    }
  }

  lemma PrefixIsTidy(result: seq<Label>, all: seq<Label>)
    requires result <= all && AllTidy(all) && Distinct(all)
    ensures Distinct(result)
    ensures forall tag <- result :: 0 < |tag.key| <= 255 && 0 < |tag.value| <= 255
    ensures forall tag <- result ::
      (|tag.key| < 255 ==> Trim(tag.key) == tag.key) && (|tag.value| < 255 ==> Trim(tag.value) == tag.value)
  {
    hide Trim;
    forall i | 0 <= i < |result| ensures Tidy(result[i].key) && Tidy(result[i].value) {
      assert result[i] == all[i];
    }
  }

  /**
   * For every input: empty, or in canonical form for its well-formed inner segments; within both limits, and with
   * trimmed keys and values.
   */
  lemma ParsedIsCanonical(raw: string)
    ensures var inner, result := Inner(Split(raw, ';')), Parsed(raw);
      && |result| <= 64 && Distinct(result)
      && if WellFormed(inner) then
           var all := PutAll(LabelsIn(inner));
           Canonical(all, LabelsIn(inner)) && result <= all && (|result| < |all| ==> |result| == 64)
         else result == []
    ensures forall tag <- Parsed(raw) :: 0 < |tag.key| <= 255 && 0 < |tag.value| <= 255
    ensures forall tag <- Parsed(raw) ::
      (|tag.key| < 255 ==> Trim(tag.key) == tag.key) && (|tag.value| < 255 ==> Trim(tag.value) == tag.value)
  {
    hide Inner, Split, LabelsIn, WellFormed, PutAll, FirstAt, LastAt, Capped, Trim, AllTidy;
    var inner := Inner(Split(raw, ';'));
    if WellFormed(inner) {
      PutAllIsCanonical(LabelsIn(inner));
      LabelsAreTidy(inner);
      CanonicalIsTidy(PutAll(LabelsIn(inner)), LabelsIn(inner));
      PrefixIsTidy(Parsed(raw), PutAll(LabelsIn(inner)));
    }
  }

  // ---- Outer separators ------------------------------------------------------------------

  lemma {:induction false} DropsLeading(blanks: seq<string>, segments: seq<string>)
    requires forall b <- blanks :: Blank(b)
    ensures DropBlankStart(blanks + segments) == DropBlankStart(segments)
  {
    if blanks == [] {
      assert blanks + segments == segments;
    } else {
      assert (blanks + segments)[1..] == blanks[1..] + segments;
      DropsLeading(blanks[1..], segments);
    }
  }

  lemma {:induction false} StartOfPush(segments: seq<string>, blank: string)
    requires Blank(blank)
    ensures DropBlankStart(segments + [blank])
            == if DropBlankStart(segments) == [] then [] else DropBlankStart(segments) + [blank]
  {
    hide Blank;
    if segments == [] {
      assert ([] + [blank])[1..] == [];
    } else if Blank(segments[0]) {
      assert (segments + [blank])[1..] == segments[1..] + [blank];
      StartOfPush(segments[1..], blank);
    }
  }

  lemma EndOfPush(segments: seq<string>, blank: string)
    requires Blank(blank)
    ensures DropBlankEnd(segments + [blank]) == DropBlankEnd(segments)
  {
    hide Blank;
    assert (segments + [blank])[..|segments|] == segments;
  }

  lemma InnerIgnoresEnds(segments: seq<string>)
    ensures Inner([""] + segments) == Inner(segments) && Inner(segments + [""]) == Inner(segments)
  {
    assert Blank("");
    hide Blank, DropBlankEnd, DropBlankStart;
    DropsLeading([""], segments);
    StartOfPush(segments, "");
    EndOfPush(DropBlankStart(segments), "");
  }

  /** Segments that differ by outer white space only. */
  ghost predicate SameTrims(a: seq<string>, b: seq<string>) {
    |a| == |b| && forall i :: 0 <= i < |a| ==> Trim(a[i]) == Trim(b[i])
  }

  lemma {:induction false} SameStart(a: seq<string>, b: seq<string>)
    requires SameTrims(a, b)
    ensures SameTrims(DropBlankStart(a), DropBlankStart(b))
  {
    hide Trim;
    if a != [] && Blank(a[0]) {
      SameStart(a[1..], b[1..]);
    }
  }

  lemma {:induction false} SameEnd(a: seq<string>, b: seq<string>)
    requires SameTrims(a, b)
    ensures SameTrims(DropBlankEnd(a), DropBlankEnd(b))
  {
    hide Trim;
    if a != [] && Blank(a[|a| - 1]) {
      SameEnd(a[..|a| - 1], b[..|b| - 1]);
    }
  }

  lemma SameLabels(a: seq<string>, b: seq<string>)
    requires SameTrims(a, b)
    ensures FromSegments(Inner(a)) == FromSegments(Inner(b))
  {
    SameStart(a, b);
    SameEnd(DropBlankStart(a), DropBlankStart(b));
    hide DropBlankStart, DropBlankEnd, SameTrims;
    SameReadings(Inner(a), Inner(b));
  }

  lemma SameReadings(a: seq<string>, b: seq<string>)
    requires SameTrims(a, b)
    ensures FromSegments(a) == FromSegments(b)
  {
    hide Trim, Split, PutAll;
    assert forall i :: 0 <= i < |a| ==> LabelOf(a[i]) == LabelOf(b[i]);
    hide LabelOf;
    if WellFormed(a) {
      assert LabelsIn(a) == LabelsIn(b);
    } else {
      assert !WellFormed(b);
    }
  }

  lemma OneOuterSeparator(raw: string)
    ensures Parsed([';'] + raw) == Parsed(raw) && Parsed(raw + [';']) == Parsed(raw)
  {
    assert ([';'] + raw)[1..] == raw;
    SplitBeforeLast(raw, ';');
    assert Split([';'] + raw, ';') == [[]] + Split(raw, ';');
    hide Inner, FromSegments, Split;
    InnerIgnoresEnds(Split(raw, ';'));
  }

  lemma OneSpaceBefore(raw: string, c: char)
    requires IsSpace(c)
    ensures SameTrims(Split([c] + raw, ';'), Split(raw, ';'))
  {
    var pieces := Split(raw, ';');
    assert Spaces([c]) && c != ';';
    hide Split, Trim, IsSpace, Spaces;
    SplitExtendsFirst(raw, c, ';');
    TrimLead([c], pieces[0]);
  }

  lemma SameButLast(init: seq<string>, a: string, b: string)
    requires Trim(a) == Trim(b)
    ensures SameTrims(init + [a], init + [b])
  {
    hide Trim;
  }

  lemma OneSpaceAfter(raw: string, c: char)
    requires IsSpace(c)
    ensures SameTrims(Split(raw + [c], ';'), Split(raw, ';'))
  {
    var pieces := Split(raw, ';');
    var init, last := pieces[..|pieces| - 1], pieces[|pieces| - 1];
    assert Spaces([c]) && c != ';';
    hide *;
    SplitExtendsLast(raw, c, ';');
    TrimTrail(last, [c]);
    SameButLast(init, last + [c], last);
    assert pieces == init + [last];
  }

  lemma OneOuterSpace(raw: string, c: char)
    requires IsSpace(c)
    ensures Parsed([c] + raw) == Parsed(raw) && Parsed(raw + [c]) == Parsed(raw)
  {
    hide Split, SameTrims, FromSegments, Inner, IsSpace;
    OneSpaceBefore(raw, c);
    OneSpaceAfter(raw, c);
    SameLabels(Split([c] + raw, ';'), Split(raw, ';'));
    SameLabels(Split(raw + [c], ';'), Split(raw, ';'));
  }

  /** Separators and white space at either end, in any number and order, never matter. */
  lemma {:induction false} OuterSeparatorsNeverMatter(left: string, raw: string, right: string)
    requires forall i :: 0 <= i < |left| ==> left[i] == ';' || IsSpace(left[i])
    requires forall i :: 0 <= i < |right| ==> right[i] == ';' || IsSpace(right[i])
    ensures Parsed(left + raw + right) == Parsed(raw)
    decreases |left| + |right|
  {
    hide Parsed, IsSpace;
    if left != [] {
      assert left == [left[0]] + left[1..];
      assert left + raw + right == [left[0]] + (left[1..] + raw + right);
      OneOuter(left[1..] + raw + right, left[0]);
      OuterSeparatorsNeverMatter(left[1..], raw, right);
    } else if right != [] {
      var shorter, last := right[..|right| - 1], right[|right| - 1];
      assert right == shorter + [last];
      assert left + raw + right == (left + raw + shorter) + [last];
      OneOuter(left + raw + shorter, last);
      OuterSeparatorsNeverMatter(left, raw, shorter);
    } else {
      assert left + raw + right == raw;
    }
  }

  lemma OneOuter(raw: string, c: char)
    requires c == ';' || IsSpace(c)
    ensures Parsed([c] + raw) == Parsed(raw) && Parsed(raw + [c]) == Parsed(raw)
  {
    hide Parsed, IsSpace;
    if c == ';' {
      OneOuterSeparator(raw);
    } else {
      OneOuterSpace(raw, c);
    }
  }

  // ---- Round trip ------------------------------------------------------------------------

  /** White space before and after the key, and before and after the value. */
  datatype Padding = Padding(beforeKey: string, afterKey: string, beforeValue: string, afterValue: string)

  predicate Pads(pad: Padding) {
    Spaces(pad.beforeKey) && Spaces(pad.afterKey) && Spaces(pad.beforeValue) && Spaces(pad.afterValue)
  }

  /** A part that ends where it ends when trimmed, and holds no colon. */
  predicate Part(part: string) {
    part != [] && !IsSpace(part[0]) && !IsSpace(part[|part| - 1]) && ':' !in part
  }

  predicate Readable(tag: Label) {
    Part(tag.key) && Part(tag.value) && ';' !in tag.key && ';' !in tag.value
  }

  function Padded(tag: Label, pad: Padding): string {
    pad.beforeKey + tag.key + pad.afterKey + [':'] + pad.beforeValue + tag.value + pad.afterValue
  }

  function SegmentsOf(labels: seq<Label>, pads: seq<Padding>): seq<string>
    requires |labels| == |pads|
  {
    seq(|labels|, i requires 0 <= i < |labels| => Padded(labels[i], pads[i]))
  }

  function Render(labels: seq<Label>, pads: seq<Padding>): string
    requires |labels| == |pads|
  {
    if labels == [] then [] else Joined(SegmentsOf(labels, pads), ';')
  }

  function Cut(tag: Label): Label {
    Label(if |tag.key| > 255 then tag.key[..255] else tag.key,
          if |tag.value| > 255 then tag.value[..255] else tag.value)
  }

  lemma NoSpace(s: string, c: char)
    requires Spaces(s) && (c == ':' || c == ';')
    ensures c !in s
  {
  }

  lemma PaddedTrims(tag: Label, pad: Padding)
    requires Part(tag.key) && Part(tag.value) && Pads(pad)
    ensures Trim(Padded(tag, pad)) == tag.key + pad.afterKey + [':'] + pad.beforeValue + tag.value
  {
    hide IsSpace, Spaces;
    var middle := tag.key + pad.afterKey + [':'] + pad.beforeValue + tag.value;
    assert Padded(tag, pad) == pad.beforeKey + middle + pad.afterValue;
    TrimPadded(pad.beforeKey, middle, pad.afterValue);
    TrimStops(middle);
    hide Trim;
  }

  lemma PaddedSplits(tag: Label, pad: Padding)
    requires Part(tag.key) && Part(tag.value) && Pads(pad)
    ensures Split(tag.key + pad.afterKey + [':'] + pad.beforeValue + tag.value, ':')
            == [tag.key + pad.afterKey, pad.beforeValue + tag.value]
  {
    NoSpace(pad.afterKey, ':');
    NoSpace(pad.beforeValue, ':');
    hide Split, IsSpace;
    var left, right := tag.key + pad.afterKey, pad.beforeValue + tag.value;
    assert tag.key + pad.afterKey + [':'] + pad.beforeValue + tag.value == left + [':'] + right;
    SplitAtSeparator(left, ':', right);
    SplitOfOne(right, ':');
  }

  lemma PartsTrim(tag: Label, pad: Padding)
    requires Part(tag.key) && Part(tag.value) && Pads(pad)
    ensures Trim(tag.key + pad.afterKey) == tag.key && Trim(pad.beforeValue + tag.value) == tag.value
  {
    hide IsSpace;
    TrimTrail(tag.key, pad.afterKey);
    TrimLead(pad.beforeValue, tag.value);
    TrimStops(tag.key);
    TrimStops(tag.value);
    hide Trim;
  }

  lemma SegmentParses(tag: Label, pad: Padding)
    requires Part(tag.key) && Part(tag.value) && Pads(pad)
    ensures LabelOf(Padded(tag, pad)) == Some(Cut(tag)) && !Blank(Padded(tag, pad))
  {
    PaddedTrims(tag, pad);
    PaddedSplits(tag, pad);
    PartsTrim(tag, pad);
    hide Trim, Split, IsSpace, Spaces, Padded;
  }

  /** A segment that reads as a label is a padded key, a colon and a padded value. */
  lemma SegmentComesApart(segment: string) returns (tag: Label, pad: Padding)
    requires LabelOf(segment).Some?
    ensures Part(tag.key) && Part(tag.value) && Pads(pad) && segment == Padded(tag, pad)
  {
    hide Trim, Split, IsSpace, Spaces;
    var parts := Split(Trim(segment), ':');
    var lead, trail := TrimSplits(segment);
    SplitJoins(Trim(segment), ':');
    assert Joined(parts, ':') == parts[0] + [':'] + parts[1];
    var beforeKey, afterKey := TrimSplits(parts[0]);
    var beforeValue, afterValue := TrimSplits(parts[1]);
    tag := Label(Trim(parts[0]), Trim(parts[1]));
    pad := Padding(lead + beforeKey, afterKey, beforeValue, afterValue + trail);
    assert ':' !in parts[0] && ':' !in parts[1];
    BothSpaces(lead, beforeKey);
    BothSpaces(afterValue, trail);
    hide Joined;
  }

  lemma BothSpaces(a: string, b: string)
    requires Spaces(a) && Spaces(b)
    ensures Spaces(a + b)
  {
    hide IsSpace;
  }

  /** Exactly these segments are well formed. */
  lemma WellFormedExactlyIf(segment: string)
    ensures LabelOf(segment).Some? <==>
      exists tag, pad :: segment == Padded(tag, pad) && Part(tag.key) && Part(tag.value) && Pads(pad)
  {
    hide LabelOf, Padded, Part, Pads;
    if LabelOf(segment).Some? {
      var tag, pad := SegmentComesApart(segment);
    }
    if tag, pad :| segment == Padded(tag, pad) && Part(tag.key) && Part(tag.value) && Pads(pad) {
      SegmentParses(tag, pad);
    }
  }

  lemma NoSeparator(tag: Label, pad: Padding)
    requires Readable(tag) && Pads(pad)
    ensures ';' !in Padded(tag, pad)
  {
    NoSpace(pad.beforeKey, ';');
    NoSpace(pad.afterKey, ';');
    NoSpace(pad.beforeValue, ';');
    NoSpace(pad.afterValue, ';');
    hide Spaces, IsSpace;
  }

  lemma {:induction false} JoinedSplits(pieces: seq<string>, c: char)
    requires |pieces| > 0 && forall i :: 0 <= i < |pieces| ==> c !in pieces[i]
    ensures Split(Joined(pieces, c), c) == pieces
  {
    hide Split;
    if |pieces| == 1 {
      SplitOfOne(pieces[0], c);
    } else {
      JoinedSplits(pieces[1..], c);
      SplitAtSeparator(pieces[0], c, Joined(pieces[1..], c));
    }
  }

  ghost predicate AllReadable(labels: seq<Label>, pads: seq<Padding>)
    requires |labels| == |pads|
  {
    forall i :: 0 <= i < |labels| ==> Readable(labels[i]) && Pads(pads[i])
  }

  function CutAll(labels: seq<Label>): seq<Label> {
    seq(|labels|, i requires 0 <= i < |labels| => Cut(labels[i]))
  }

  lemma SegmentsParse(labels: seq<Label>, pads: seq<Padding>)
    requires |labels| == |pads| && AllReadable(labels, pads)
    ensures var segments := SegmentsOf(labels, pads);
      && WellFormed(segments) && LabelsIn(segments) == CutAll(labels)
      && forall i :: 0 <= i < |segments| ==> !Blank(segments[i]) && ';' !in segments[i]
  {
    var segments := SegmentsOf(labels, pads);
    hide Padded, Part, Pads, Cut, LabelOf, Blank;
    forall i | 0 <= i < |segments|
      ensures LabelOf(segments[i]) == Some(Cut(labels[i])) && !Blank(segments[i]) && ';' !in segments[i]
    {
      SegmentParses(labels[i], pads[i]);
      NoSeparator(labels[i], pads[i]);
    }
  }

  /**
   * Any list of labels, each part padded with any white space, is read back as its canonical form: each part cut to 255
   * characters, each key once with its last value, the first 64 of them.
   */
  lemma PaddedReads(labels: seq<Label>, pads: seq<Padding>)
    requires |labels| == |pads| && AllReadable(labels, pads)
    ensures var all := PutAll(CutAll(labels));
      Canonical(all, CutAll(labels)) && Parsed(Render(labels, pads)) == if |all| > 64 then all[..64] else all
  {
    PutAllIsCanonical(CutAll(labels));
    if labels == [] {
      assert Split([], ';') == [""] && Blank("");
    } else {
      hide Split, LabelsIn, WellFormed, PutAll, CutAll, AllReadable, Canonical, Blank, Joined;
      var segments := SegmentsOf(labels, pads);
      SegmentsParse(labels, pads);
      JoinedSplits(segments, ';');
      InnerOfNonBlank(segments);
      hide SegmentsOf, Inner;
    }
  }

  lemma InnerOfNonBlank(segments: seq<string>)
    requires forall i :: 0 <= i < |segments| ==> !Blank(segments[i])
    ensures Inner(segments) == segments
  {
    hide Blank;
  }

  lemma {:induction false} PutAllOfDistinct(labels: seq<Label>)
    requires Distinct(labels)
    ensures PutAll(labels) == labels
  {
    if labels != [] {
      var init, last := labels[..|labels| - 1], labels[|labels| - 1];
      PutAllOfDistinct(init);
      PutIs(init, last);
    }
  }

  /**
   * Every list of at most 64 labels with distinct keys and parts within the limit is recovered from its rendering,
   * whatever the white space around its keys, values and segments.
   */
  lemma RoundTrip(labels: seq<Label>, pads: seq<Padding>)
    requires |labels| == |pads| && AllReadable(labels, pads)
    requires |labels| <= 64 && Distinct(labels)
    requires forall i :: 0 <= i < |labels| ==> |labels[i].key| <= 255 && |labels[i].value| <= 255
    ensures Parsed(Render(labels, pads)) == labels
  {
    assert CutAll(labels) == labels;
    hide PutAll, Distinct, AllReadable, Parsed, Render;
    PaddedReads(labels, pads);
    PutAllOfDistinct(labels);
  }

  // ---- The parser ------------------------------------------------------------------------

  method TruncateLabelPart(part: string) returns (r: string)
    ensures r == Truncated(part)
  {
    r := if |part| > MAX_LABEL_LEN then part[..MAX_LABEL_LEN] else part;
  }

  /** Overwrites the value of an existing key in place, or appends. */
  method Insert(pairs: seq<Label>, tag: Label) returns (r: seq<Label>)
    ensures r == Put(pairs, tag)
  {
    PutIs(pairs, tag);
    for i := 0 to |pairs|
      invariant forall j :: 0 <= j < i ==> pairs[j].key != tag.key
    {
      if pairs[i].key == tag.key {
        assert FirstAt(pairs, tag.key) == i;
        return pairs[i := pairs[i].(value := tag.value)];
      }
    }
    return pairs + [tag];
  }

  /** `None` when a segment is malformed. */
  method ParseSegments(segments: seq<string>) returns (pairs: Option<seq<Label>>)
    ensures pairs == if WellFormed(segments) then Some(PutAll(LabelsIn(segments))) else None
  {
    var sofar := [];
    hide Put;
    for i := 0 to |segments|
      invariant WellFormed(segments[..i]) && sofar == PutAll(LabelsIn(segments[..i]))
    {
      var segment := Trim(segments[i]);
      if segment == [] {
        assert Split([], ':') == [[]];
        assert LabelOf(segments[i]).None?;
        return None;
      }
      var parts := Split(segment, ':');
      if |parts| != 2 || Trim(parts[0]) == [] || Trim(parts[1]) == [] {
        assert LabelOf(segments[i]).None?;
        return None;
      }
      var key := TruncateLabelPart(Trim(parts[0]));
      var value := TruncateLabelPart(Trim(parts[1]));
      assert LabelOf(segments[i]) == Some(Label(key, value));
      LabelsOfPush(segments, i);
      sofar := Insert(sofar, Label(key, value));
    }
    assert segments[..|segments|] == segments;
    return Some(sofar);
  }

  lemma LabelsOfPush(segments: seq<string>, i: nat)
    requires i < |segments| && WellFormed(segments[..i]) && LabelOf(segments[i]).Some?
    ensures WellFormed(segments[..i + 1])
    ensures PutAll(LabelsIn(segments[..i + 1])) == Put(PutAll(LabelsIn(segments[..i])), LabelOf(segments[i]).value)
  {
    hide LabelOf, Put;
    var before, after := segments[..i], segments[..i + 1];
    forall j | 0 <= j < |after| ensures LabelOf(after[j]).Some? {
      assert j < i ==> after[j] == before[j];
    }
    forall j | 0 <= j < i ensures LabelsIn(after)[j] == LabelsIn(before)[j] {
      assert after[j] == before[j];
    }
    assert LabelsIn(after)[..i] == LabelsIn(before);
  }

  lemma StartAt(segments: seq<string>, start: nat)
    requires start <= |segments| && (forall i :: 0 <= i < start ==> Blank(segments[i]))
    requires start < |segments| ==> !Blank(segments[start])
    ensures DropBlankStart(segments) == segments[start..]
  {
    hide Blank;
    DropsLeading(segments[..start], segments[start..]);
    assert segments[..start] + segments[start..] == segments;
  }

  lemma {:induction false} EndAt(segments: seq<string>, end: nat)
    requires end < |segments| && !Blank(segments[end]) && (forall i :: end < i < |segments| ==> Blank(segments[i]))
    ensures DropBlankEnd(segments) == segments[..end + 1]
  {
    hide Blank;
    if end < |segments| - 1 {
      EndAt(segments[..|segments| - 1], end);
      assert segments[..|segments| - 1][..end + 1] == segments[..end + 1];
    } else {
      assert segments[..end + 1] == segments;
    }
  }

  method InnerSegments(segments: seq<string>) returns (inner: seq<string>)
    ensures inner == Inner(segments)
  {
    hide Trim;
    var start := 0;
    while start < |segments| && Trim(segments[start]) == []
      invariant start <= |segments| && forall i :: 0 <= i < start ==> Blank(segments[i])
    {
      start := start + 1;
    }
    StartAt(segments, start);
    if start == |segments| {
      return [];
    }
    var end := |segments| - 1;
    while Trim(segments[end]) == []
      invariant start <= end < |segments| && forall i :: end < i < |segments| ==> Blank(segments[i])
      decreases end
    {
      end := end - 1;
    }
    assert segments[start..][..end - start + 1] == segments[start..end + 1];
    EndAt(segments[start..], end - start);
    inner := segments[start..end + 1];
  }

  /** `parse_new_relic_labels`; an unset variable is `None`. */
  method ParseNewRelicLabels(variable: Option<string>) returns (labels: seq<Label>)
    ensures labels == if variable.Some? then Parsed(variable.value) else []
  {
    if variable.None? {
      return [];
    }
    var raw := variable.value;
    if Trim(raw) == [] {
      BlankParses(raw);
      return [];
    }
    hide Inner, Split, PutAll, LabelsIn, WellFormed;
    var segments := InnerSegments(Split(raw, ';'));
    var pairs := ParseSegments(segments);
    if pairs.None? {
      return [];
    }
    labels := pairs.value;
    if |labels| > MAX_LABELS {
      labels := labels[..MAX_LABELS];
    }
  }

  lemma {:induction false} NothingStarts(s: string)
    ensures forall i :: 0 <= i < |s| - |TrimStart(s)| ==> IsSpace(s[i])
  {
    if s != [] && IsSpace(s[0]) {
      NothingStarts(s[1..]);
      forall i | 0 < i < |s| - |TrimStart(s)| ensures IsSpace(s[i]) {
        assert s[i] == s[1..][i - 1];
      }
    }
  }

  lemma NothingEnds(s: string)
    requires s != [] && !IsSpace(s[0])
    ensures TrimEnd(s) != []
  {
    if |s| > 1 && IsSpace(s[|s| - 1]) {
      NothingEnds(s[..|s| - 1]);
    }
  }

  /** A blank variable has only blank segments. */
  lemma BlankParses(raw: string)
    requires Blank(raw)
    ensures Parsed(raw) == []
  {
    NothingStarts(raw);
    if TrimStart(raw) != [] {
      NothingEnds(TrimStart(raw));
    }
    assert ';' !in raw;
    SplitOfOne(raw, ';');
    assert DropBlankStart([raw]) == [];
  }

  lemma PutAllIsNotEmpty(labels: seq<Label>)
    requires labels != []
    ensures PutAll(labels) != []
  {
  }

  /** The inner segments run from the first that is not blank to the last. */
  lemma InnerBounds(segments: seq<string>) returns (start: nat, end: nat)
    requires exists i :: 0 <= i < |segments| && !Blank(segments[i])
    ensures start <= end < |segments| && !Blank(segments[start]) && !Blank(segments[end])
    ensures forall i :: 0 <= i < |segments| && !Blank(segments[i]) ==> start <= i <= end
    ensures Inner(segments) == segments[start..end + 1]
  {
    hide Blank, DropBlankStart, DropBlankEnd;
    start := 0;
    while Blank(segments[start])
      invariant start < |segments| && forall i :: 0 <= i < start ==> Blank(segments[i])
      decreases |segments| - start
    {
      start := start + 1;
    }
    end := |segments| - 1;
    while Blank(segments[end])
      invariant start <= end < |segments| && forall i :: end < i < |segments| ==> Blank(segments[i])
      decreases end
    {
      end := end - 1;
    }
    StartAt(segments, start);
    EndAt(segments[start..], end - start);
  }

  lemma NothingInside(segments: seq<string>)
    requires forall i :: 0 <= i < |segments| ==> Blank(segments[i])
    ensures Inner(segments) == []
  {
    hide Blank;
    StartAt(segments, |segments|);
  }

  /** Between two segments that are not blank, or one of these. */
  predicate Inside(segments: seq<string>, k: nat)
    requires k < |segments|
  {
    && (exists i :: 0 <= i <= k && !Blank(segments[i]))
    && (exists j :: k <= j < |segments| && !Blank(segments[j]))
  }

  lemma InsideIsInner(segments: seq<string>, start: nat, end: nat)
    requires start <= end < |segments| && !Blank(segments[start]) && !Blank(segments[end])
    requires forall i :: 0 <= i < |segments| && !Blank(segments[i]) ==> start <= i <= end
    ensures WellFormed(segments[start..end + 1]) <==>
      forall k :: 0 <= k < |segments| && Inside(segments, k) ==> LabelOf(segments[k]).Some?
  {
    hide Blank, LabelOf;
    var inner := segments[start..end + 1];
    forall k | 0 <= k < |segments| ensures Inside(segments, k) <==> start <= k <= end {
    }
    hide Inside;
    if WellFormed(inner) {
      forall k | 0 <= k < |segments| && Inside(segments, k) ensures LabelOf(segments[k]).Some? {
        assert segments[k] == inner[k - start];
      }
    }
    if forall k :: 0 <= k < |segments| && Inside(segments, k) ==> LabelOf(segments[k]).Some? {
      forall k | 0 <= k < |inner| ensures LabelOf(inner[k]).Some? {
        assert Inside(segments, start + k) && inner[k] == segments[start + k];
      }
    }
  }

  lemma EmptyIfNotWellFormed(segments: seq<string>)
    requires segments != []
    ensures FromSegments(segments) == [] <==> !WellFormed(segments)
  {
    if WellFormed(segments) {
      assert LabelsIn(segments) != [];
      PutAllIsNotEmpty(LabelsIn(segments));
    }
  }

  predicate AllBlank(segments: seq<string>) {
    forall i :: 0 <= i < |segments| ==> Blank(segments[i])
  }

  predicate SomeMalformed(segments: seq<string>) {
    exists k :: 0 <= k < |segments| && Inside(segments, k) && LabelOf(segments[k]).None?
  }

  lemma OneMalformedEmpties(segments: seq<string>)
    requires !AllBlank(segments)
    ensures FromSegments(Inner(segments)) == [] <==> SomeMalformed(segments)
  {
    hide Inner, LabelOf, Blank, Inside, WellFormed, FromSegments;
    var start, end := InnerBounds(segments);
    InsideIsInner(segments, start, end);
    EmptyIfNotWellFormed(segments[start..end + 1]);
  }

  /** No labels come out exactly if all segments are blank, or one that counts is malformed: one empties everything. */
  lemma EmptyExactlyIfMalformed(raw: string)
    ensures Parsed(raw) == [] <==> AllBlank(Split(raw, ';')) || SomeMalformed(Split(raw, ';'))
  {
    var segments := Split(raw, ';');
    hide Inner, LabelOf, Blank, Split, SomeMalformed;
    if AllBlank(segments) {
      NothingInside(segments);
    } else {
      hide AllBlank, FromSegments;
      OneMalformedEmpties(segments);
    }
  }
}
