/** Choosing the structured answer inside an agent's free-text output. */
module Extraction {
  import opened Options
  import opened Texts
  import opened Scanner

  /** Decoding and validating one candidate; its text on success. */
  type Parser = string -> Option<string>

  predicate FenceAt(text: string, i: nat) {
    i + 3 <= |text| && text[i] == '`' && text[i + 1] == '`' && text[i + 2] == '`'
  }

  predicate NoFence(text: string) {
    forall i: nat :: i < |text| ==> !FenceAt(text, i)
  }

  predicate IsBlank(c: char) { c == ' ' || c == '\t' }

  function Lower(c: char): char {
    if 'A' <= c <= 'Z' then (c as int + 32) as char else c
  }

  predicate SaysJson(info: string) {
    var t := TrimSpace(info);
    |t| == 4 && Lower(t[0]) == 'j' && Lower(t[1]) == 's' && Lower(t[2]) == 'o' && Lower(t[3]) == 'n'
  }

  /** The info line is the word json in any letter case, with spaces around it or without. */
  ghost predicate Labelled(info: string) {
    exists before, word, after ::
      && info == before + word + after && AllSpace(before) && AllSpace(after) && |word| == 4
      && word[0] in "jJ" && word[1] in "sS" && word[2] in "oO" && word[3] in "nN"
  }

  lemma LabelledSaysJson(info: string)
    ensures SaysJson(info) <==> Labelled(info)
  {
    if SaysJson(info) {
      var before, after := TrimSplits(info);
      var word := TrimSpace(info);
      assert info == before + word + after && AllSpace(before) && AllSpace(after);
    }
    if Labelled(info) {
      var before, word, after :|
        && info == before + word + after && AllSpace(before) && AllSpace(after) && |word| == 4
        && word[0] in "jJ" && word[1] in "sS" && word[2] in "oO" && word[3] in "nN";
      TrimUndoesPadding(before, word, after);
    }
  }

  /** Index of the first newline at or after `from`, or the end. */
  function LineEnd(text: string, from: nat): (e: nat)
    requires from <= |text|
    ensures from <= e <= |text|
    ensures e < |text| ==> text[e] == '\n'
    ensures forall i :: from <= i < e ==> text[i] != '\n'
    decreases |text| - from
  {
    if from == |text| || text[from] == '\n' then from else LineEnd(text, from + 1)
  }

  /** First index at or after `from` that is no blank, or `stop`. */
  function SkipBlanks(text: string, from: nat, stop: nat): (i: nat)
    requires from <= stop <= |text|
    ensures from <= i <= stop
    ensures i < stop ==> !IsBlank(text[i])
    ensures forall k :: from <= k < i ==> IsBlank(text[k])
    decreases stop - from
  {
    if from == stop || !IsBlank(text[from]) then from else SkipBlanks(text, from + 1, stop)
  }

  // ----- fences -----

  method IndexFence(text: string, from: nat) returns (r: Option<nat>)
    requires from <= |text|
    ensures r.None? ==> forall i: nat :: from <= i < |text| ==> !FenceAt(text, i)
    ensures r.Some? ==> from <= r.value && FenceAt(text, r.value) && forall i: nat :: from <= i < r.value ==>
              !FenceAt(text, i)
  {
    for i := from to |text|
      invariant forall k: nat :: from <= k < i ==> !FenceAt(text, k)
    {
      if FenceAt(text, i) { return Some(i); }
    }
    r := None;
  }

  /** `fenceContentStart`: where the fence's content starts, and its info line. */
  function ContentStart(text: string, fence: nat): (r: (nat, string))
    requires fence + 3 <= |text|
    ensures fence + 3 <= r.0 <= |text|
  {
    var e := LineEnd(text, fence + 3);
    (if e == |text| then e else e + 1, text[fence + 3..e])
  }

  /** The fence that opens the line `line..e`, past its blanks. */
  function FenceOfLine(text: string, line: nat, e: nat): (t: Option<nat>)
    requires line <= e <= |text|
    ensures t.Some? ==> line <= t.value && t.value + 3 <= e && FenceAt(text, t.value)
  {
    var t := SkipBlanks(text, line, e);
    if t + 3 <= e && FenceAt(text, t) then Some(t) else None
  }

  /** The fence at `t`, on a line ending at `e`, carries no info. */
  predicate Closes(text: string, t: nat, e: nat)
    requires t + 3 <= e <= |text|
  {
    TrimSpace(text[t + 3..e]) == ""
  }

  /** Where the block whose lines start at `line` is closed, when `depth` fences are open. */
  function BlockEnd(text: string, line: nat, depth: nat): (r: Option<nat>)
    requires line <= |text| && depth >= 1
    ensures r.Some? ==> 3 <= r.value <= |text|
    decreases |text| - line
  {
    if line == |text| then None
    else
      var e := LineEnd(text, line);
      var t := FenceOfLine(text, line, e);
      var left := if t.None? then depth else if Closes(text, t.value, e) then depth - 1 else depth + 1;
      if left == 0 then Some(t.value + 3)
      else if e == |text| then None
      else BlockEnd(text, e + 1, left)
  }

  method SkipFenceBlock(text: string) returns (r: Option<nat>)
    ensures r == BlockEnd(text, 0, 1)
  {
    hide TrimSpace, Closes, LineEnd, FenceOfLine;
    var depth := 1;
    var line := 0;
    while line < |text|
      invariant line <= |text| && depth >= 1
      invariant BlockEnd(text, 0, 1) == BlockEnd(text, line, depth)
    {
      var e := LineEnd(text, line);
      var t := FenceOfLine(text, line, e);
      if t.Some? {
        if Closes(text, t.value, e) {
          depth := depth - 1;
          if depth == 0 { return Some(t.value + 3); }
        } else {
          depth := depth + 1;
        }
      }
      if e == |text| { return None; }
      line := e + 1;
    }
    r := None;
  }

  /** The first fence at or after `from`. */
  function NextFence(text: string, from: nat): (r: Option<nat>)
    requires from <= |text|
    ensures r.None? ==> forall i: nat :: from <= i < |text| ==> !FenceAt(text, i)
    ensures r.Some? ==> from <= r.value && FenceAt(text, r.value) && forall i: nat :: from <= i < r.value ==>
              !FenceAt(text, i)
    decreases |text| - from
  {
    if from == |text| then None else if FenceAt(text, from) then Some(from) else NextFence(text, from + 1)
  }

  /** Where the content of the next JSON fence starts; other blocks are skipped whole. */
  function JsonOpen(text: string, from: nat): (r: Option<nat>)
    requires from <= |text|
    ensures r.Some? ==> from + 3 <= r.value <= |text|
    decreases |text| - from
  {
    var f := NextFence(text, from);
    if f.None? then None
    else
      var start := ContentStart(text, f.value).0;
      if SaysJson(ContentStart(text, f.value).1) then Some(start)
      else
        var next := BlockEnd(text[start..], 0, 1);
        if next.None? then None else JsonOpen(text, start + next.value)
  }

  /** One fence further: nothing, a JSON fence, or another block to skip. */
  lemma OpenStep(text: string, from: nat, f: Option<nat>)
    requires from <= |text| && f == NextFence(text, from)
    ensures f.None? ==> JsonOpen(text, from).None?
    ensures f.Some? ==>
              var (start, info) := ContentStart(text, f.value);
              var next := BlockEnd(text[start..], 0, 1);
              JsonOpen(text, from) ==
              if SaysJson(info) then Some(start) else if next.None? then None else JsonOpen(text, start + next.value)
  {
    hide ContentStart, SaysJson, BlockEnd, NextFence;
  }

  /** `indexJSONFenceOpen`. */
  method IndexJsonFenceOpen(text: string) returns (r: Option<nat>)
    ensures r == JsonOpen(text, 0)
  {
    hide SaysJson, BlockEnd, ContentStart, FenceAt, JsonOpen, NextFence;
    var from := 0;
    while from < |text|
      invariant from <= |text|
      invariant JsonOpen(text, 0) == JsonOpen(text, from)
      decreases |text| - from
    {
      var f := IndexFence(text, from);
      FenceIsNext(text, from, f);
      OpenStep(text, from, f);
      if f.None? { return None; }
      var (start, info) := ContentStart(text, f.value);
      if SaysJson(info) { return Some(start); }
      var next := SkipFenceBlock(text[start..]);
      if next.None? { return None; }
      from := start + next.value;
    }
    NothingAfter(text);
    r := None;
  }

  lemma NothingAfter(text: string)
    ensures JsonOpen(text, |text|).None?
  {
  }

  lemma FenceIsNext(text: string, from: nat, f: Option<nat>)
    requires from <= |text|
    requires f.None? ==> forall i: nat :: from <= i < |text| ==> !FenceAt(text, i)
    requires f.Some? ==> from <= f.value && FenceAt(text, f.value) && forall i: nat :: from <= i < f.value ==>
              !FenceAt(text, i)
    ensures f == NextFence(text, from)
  {
  }

  /** The first line from `line` on that a fence opens, and that fence's end. */
  function ClosingLine(text: string, line: nat): (r: Option<(nat, nat)>)
    requires line <= |text|
    ensures r.Some? ==> r.value.0 + 3 <= r.value.1 <= |text|
    decreases |text| - line
  {
    if line == |text| then None
    else
      var e := LineEnd(text, line);
      var t := FenceOfLine(text, line, e);
      if t.Some? then Some((line, t.value + 3)) else if e == |text| then None else ClosingLine(text, e + 1)
  }

  predicate Trails(c: char) { IsBlank(c) || c == '\r' || c == '\n' }

  /** The end of the text without trailing blanks and line ends. */
  function TrimmedEnd(text: string, end: nat): (r: nat)
    requires end <= |text|
    ensures r <= end && (r == 0 || !Trails(text[r - 1])) && forall k :: r <= k < end ==> Trails(text[k])
  {
    if end > 0 && Trails(text[end - 1]) then TrimmedEnd(text, end - 1) else end
  }

  /** Where a block's content ends and its fence does: the first line a fence opens, else a fence that ends the text. */
  function JsonClose(text: string): (r: Option<(nat, nat)>)
    ensures r.Some? ==> r.value.0 + 3 <= r.value.1 <= |text|
  {
    var line := ClosingLine(text, 0);
    var end := TrimmedEnd(text, |text|);
    if line.Some? then line else if end >= 3 && FenceAt(text, end - 3) then Some((end - 3, end)) else None
  }

  /** `indexJSONFenceClose`. */
  method IndexJsonFenceClose(text: string) returns (r: Option<(nat, nat)>)
    ensures r == JsonClose(text)
  {
    hide LineEnd, FenceOfLine;
    var line := 0;
    while line < |text|
      invariant line <= |text|
      invariant ClosingLine(text, 0) == ClosingLine(text, line)
      decreases |text| - line
    {
      var e := LineEnd(text, line);
      var t := FenceOfLine(text, line, e);
      if t.Some? { return Some((line, t.value + 3)); }
      line := if e == |text| then e else e + 1;
    }
    var end := |text|;
    while end > 0 && (IsBlank(text[end - 1]) || text[end - 1] == '\r' || text[end - 1] == '\n')
      invariant 0 <= end <= |text| && TrimmedEnd(text, |text|) == TrimmedEnd(text, end)
    {
      end := end - 1;
    }
    if end >= 3 && FenceAt(text, end - 3) { return Some((end - 3, end)); }
    r := None;
  }

  /** The bodies of the JSON fences from `from` on, in order; an unclosed one ends the list. */
  function CandidatesFrom(text: string, from: nat): seq<string>
    requires from <= |text|
    decreases |text|
  {
    var start := JsonOpen(text, from);
    if start.None? then []
    else
      var tail := text[start.value..];
      var close := JsonClose(tail);
      if close.None? then [] else [tail[..close.value.0]] + CandidatesFrom(tail[close.value.1..], 0)
  }

  function Candidates(text: string): seq<string> { CandidatesFrom(text, 0) }

  /** `fencedJSONCandidates`. */
  method FencedCandidates(text: string) returns (candidates: seq<string>)
    ensures candidates == Candidates(text)
  {
    hide JsonOpen, JsonClose;
    candidates := [];
    var rest := text;
    while true
      invariant Candidates(text) == candidates + CandidatesFrom(rest, 0)
      decreases |rest|
    {
      var start := IndexJsonFenceOpen(rest);
      if start.None? { return; }
      var tail := rest[start.value..];
      var close := IndexJsonFenceClose(tail);
      if close.None? { return; }
      var (end, next) := close.value;
      candidates := candidates + [tail[..end]];
      rest := tail[next..];
    }
  }

  // ----- texts built of prose and fenced blocks -----

  /** A line of a block, or a block within it. */
  datatype Item =
    | Line(text: string)
    | Nest(indent: string, info: string, items: seq<Item>, outdent: string, trail: string)

  /** A line that a fence opens. */
  function FenceLine(indent: string, info: string): string { indent + ("```" + (info + "\n")) }

  function PrintLine(x: Item): string {
    match x
    case Line(text) => text + "\n"
    case Nest(indent, info, items, outdent, trail) =>
      FenceLine(indent, info) + (PrintLines(items) + FenceLine(outdent, trail))
  }

  function PrintLines(items: seq<Item>): string {
    if items == [] then "" else PrintLine(items[0]) + PrintLines(items[1..])
  }

  predicate Blanks(s: string) { forall c :: c in s ==> c == ' ' || c == '\t' }

  /** One line, which no fence opens. */
  predicate PlainLine(l: string) {
    '\n' !in l && FenceOfLine(l, 0, |l|).None?
  }

  /** Opening fences carry an info text, closing ones none. */
  predicate ItemOk(x: Item) {
    match x
    case Line(text) => PlainLine(text)
    case Nest(indent, info, items, outdent, trail) =>
      && Blanks(indent) && '\n' !in info && TrimSpace(info) != "" && Blanks(outdent) && '\n' !in trail
           && TrimSpace(trail) == ""
      && forall y :: y in items ==> ItemOk(y)
  }

  /** A JSON block, whose fence closes on a line of its own, or another block around properly nested ones. */
  datatype Block =
    | JsonBlock(info: string, body: string, outdent: string)
    | OtherBlock(info: string, items: seq<Item>, outdent: string, trail: string)

  datatype Section = Section(prose: string, block: Block)

  function PrintBlock(b: Block): string {
    match b
    case JsonBlock(info, body, outdent) => FenceLine("", info) + (body + (outdent + "```"))
    case OtherBlock(info, items, outdent, trail) =>
      FenceLine("", info) + (PrintLines(items) + FenceLine(outdent, trail))
  }

  function PrintSections(sections: seq<Section>, post: string): string {
    if sections == [] then post
        else sections[0].prose + (PrintBlock(sections[0].block) + PrintSections(sections[1..], post))
  }

  /** Prose before a fence: it holds none and does not run into the next. */
  predicate ProseOk(prose: string) {
    NoFence(prose) && (prose == "" || prose[|prose| - 1] != '`')
  }

  ghost predicate BlockOk(b: Block) {
    match b
    case JsonBlock(info, body, outdent) =>
      && '\n' !in info && Labelled(info) && Blanks(outdent)
      && Fenceless(body, true) && (body == "" || body[|body| - 1] == '\n')
    case OtherBlock(info, items, outdent, trail) =>
      && '\n' !in info && !Labelled(info) && Blanks(outdent) && '\n' !in trail && TrimSpace(trail) == ""
      && forall x :: x in items ==> ItemOk(x)
  }

  ghost predicate SectionsOk(sections: seq<Section>, post: string) {
    NoFence(post) && forall x :: x in sections ==> ProseOk(x.prose) && BlockOk(x.block)
  }

  /** The bodies of the JSON blocks. */
  function Bodies(sections: seq<Section>): seq<string> {
    if sections == [] then []
    else (if sections[0].block.JsonBlock? then [sections[0].block.body] else []) + Bodies(sections[1..])
  }

  /** `s` stands in the text at `i`. */
  predicate At(text: string, i: nat, s: string) {
    i + |s| <= |text| && text[i..i + |s|] == s
  }

  lemma AtSplits(text: string, i: nat, a: string, b: string)
    requires At(text, i, a + b)
    ensures At(text, i, a) && At(text, i + |a|, b)
  {
    assert text[i..i + |a|] == text[i..i + |a + b|][..|a|] == a;
    assert text[i + |a|..i + |a| + |b|] == text[i..i + |a + b|][|a|..] == b;
  }

  lemma AtChar(text: string, i: nat, s: string, k: nat)
    requires At(text, i, s) && k < |s|
    ensures text[i + k] == s[k]
  {
    assert text[i..i + |s|][k] == s[k];
  }

  lemma AtDropped(text: string, start: nat, i: nat, s: string)
    requires start <= i && At(text, i, s)
    ensures At(text[start..], i - start, s)
  {
  }

  lemma {:induction false} SkipBlanksLocal(text: string, line: nat, l: string, i: nat)
    requires i <= |l| && At(text, line, l)
    ensures SkipBlanks(text, line + i, line + |l|) == line + SkipBlanks(l, i, |l|)
    decreases |l| - i
  {
    if i < |l| {
      AtChar(text, line, l, i);
      SkipBlanksLocal(text, line, l, i + 1);
    }
  }

  /** Which fence opens a line depends on the line alone. */
  lemma FenceIsLocal(text: string, line: nat, l: string)
    requires At(text, line, l)
    ensures FenceOfLine(text, line, line + |l|)
              == match FenceOfLine(l, 0, |l|) case None => None case Some(t) => Some(line + t)
  {
    SkipBlanksLocal(text, line, l, 0);
    var t := SkipBlanks(l, 0, |l|);
    if t + 3 <= |l| {
      AtChar(text, line, l, t);
      AtChar(text, line, l, t + 1);
      AtChar(text, line, l, t + 2);
    }
  }

  lemma IndentedFence(indent: string, info: string)
    requires Blanks(indent)
    ensures var l := indent + ("```" + info); FenceOfLine(l, 0, |l|) == Some(|indent|) && l[|indent| + 3..] == info
  {
    var l := indent + ("```" + info);
    assert forall k :: 0 <= k < |indent| ==> l[k] == indent[k] && indent[k] in indent;
    assert l[|indent|] == '`' && l[|indent| + 1] == '`' && l[|indent| + 2] == '`';
  }

  /** A fence opens a line exactly when it stands behind blanks at most, and a fence is three backticks. */
  lemma OpensLineIff(l: string)
    ensures FenceOfLine(l, 0, |l|).Some? <==> exists indent, info :: Blanks(indent) && l == indent + ("```" + info)
  {
    var t := FenceOfLine(l, 0, |l|);
    if t.Some? {
      var indent, info := l[..t.value], l[t.value + 3..];
      assert l == indent + ("```" + info);
      assert Blanks(indent);
    }
    if exists indent, info :: Blanks(indent) && l == indent + ("```" + info) {
      var indent, info :| Blanks(indent) && l == indent + ("```" + info);
      IndentedFence(indent, info);
    }
  }

  lemma FenceIsThree(text: string)
    ensures NoFence(text) <==> !exists a, b :: text == a + ("```" + b)
  {
    if !NoFence(text) {
      var i: nat :| i < |text| && FenceAt(text, i);
      assert text == text[..i] + ("```" + text[i + 3..]);
    }
    if exists a, b :: text == a + ("```" + b) {
      var a, b :| text == a + ("```" + b);
      assert text[|a|] == '`' && text[|a| + 1] == '`' && text[|a| + 2] == '`';
      assert FenceAt(text, |a|);
    }
  }

  lemma LineStands(text: string, line: nat, l: string)
    requires '\n' !in l && At(text, line, l + "\n")
    ensures line + |l| < |text| && LineEnd(text, line) == line + |l| && At(text, line, l)
  {
    AtSplits(text, line, l, "\n");
    AtChar(text, line + |l|, "\n", 0);
    forall k | line <= k < line + |l|
      ensures text[k] != '\n'
    {
      AtChar(text, line, l, k - line);
      assert l[k - line] in l;
    }
  }

  lemma PlainLineIsPassed(text: string, line: nat, l: string, depth: nat)
    requires depth >= 1 && PlainLine(l) && At(text, line, l + "\n")
    ensures BlockEnd(text, line, depth) == BlockEnd(text, line + |l| + 1, depth)
  {
    hide FenceOfLine, At;
    assert line + |l| + 1 <= |text| by { LineStands(text, line, l); }
    LineStands(text, line, l);
    FenceIsLocal(text, line, l);
  }

  /** An opening fence deepens the nesting, a closing one ends a level or the block. */
  lemma FenceLineIsCounted(text: string, line: nat, indent: string, info: string, depth: nat)
    requires depth >= 1 && Blanks(indent) && '\n' !in info && At(text, line, FenceLine(indent, info))
    ensures
      var next := line + |indent| + |info| + 4;
      && next <= |text|
      && BlockEnd(text, line, depth) ==
         if TrimSpace(info) != "" then BlockEnd(text, next, depth + 1)
         else if depth == 1 then Some(line + |indent| + 3) else BlockEnd(text, next, depth - 1)
  {
    hide FenceOfLine, TrimSpace, At;
    var l := indent + ("```" + info);
    assert FenceLine(indent, info) == l + "\n";
    assert '\n' !in l by {
      forall c | c in l ensures c != '\n' { assert c in indent || c == '`' || c in info; }
    }
    LineStands(text, line, l);
    FenceIsLocal(text, line, l);
    IndentedFence(indent, info);
    assert text[line + |indent| + 3..line + |l|] == info by { InfoOfLine(text, line, indent, info); }
  }

  lemma InfoOfLine(text: string, line: nat, indent: string, info: string)
    requires At(text, line, indent + ("```" + info))
    ensures text[line + |indent| + 3..line + |indent| + 3 + |info|] == info
  {
    AtSplits(text, line, indent, "```" + info);
    AtSplits(text, line + |indent|, "```", info);
  }

  /** Properly nested lines leave the nesting as it was. */
  lemma {:induction false} NestedLinesArePassed(text: string, line: nat, items: seq<Item>, depth: nat)
    requires depth >= 1 && (forall x :: x in items ==> ItemOk(x)) && At(text, line, PrintLines(items))
    ensures line + |PrintLines(items)| <= |text|
    ensures BlockEnd(text, line, depth) == BlockEnd(text, line + |PrintLines(items)|, depth)
    decreases items
  {
    hide PlainLine, TrimSpace, BlockEnd, ItemOk;
    if items != [] {
      var x := items[0];
      assert x in items;
      AtSplits(text, line, PrintLine(x), PrintLines(items[1..]));
      NestedItemIsPassed(text, line, x, depth);
      NestedLinesArePassed(text, line + |PrintLine(x)|, items[1..], depth);
    }
  }

  lemma {:induction false} NestedItemIsPassed(text: string, line: nat, x: Item, depth: nat)
    requires depth >= 1 && ItemOk(x) && At(text, line, PrintLine(x))
    ensures line + |PrintLine(x)| <= |text|
    ensures BlockEnd(text, line, depth) == BlockEnd(text, line + |PrintLine(x)|, depth)
    decreases x
  {
    hide PlainLine, TrimSpace, BlockEnd, Blanks, PrintLines;
    match x {
      case Line(l) =>
        AtIsInside(text, line, PrintLine(x));
        PlainLineIsPassed(text, line, l, depth);
      case Nest(indent, info, items, outdent, trail) =>
        hide At;
        NestStands(text, line, x);
        var first := line + |indent| + |info| + 4;
        FenceLineIsCounted(text, line, indent, info, depth);
        NestedLinesArePassed(text, first, items, depth + 1);
        FenceLineIsCounted(text, first + |PrintLines(items)|, outdent, trail, depth + 1);
    }
  }

  lemma NestStands(text: string, line: nat, x: Item)
    requires x.Nest? && At(text, line, PrintLine(x))
    ensures
      var first := line + |x.indent| + |x.info| + 4;
      && At(text, line, FenceLine(x.indent, x.info)) && At(text, first, PrintLines(x.items))
      && At(text, first + |PrintLines(x.items)|, FenceLine(x.outdent, x.trail))
      && |PrintLine(x)| == |x.indent| + |x.info| + 4 + |PrintLines(x.items)| + |x.outdent| + |x.trail| + 4
  {
    hide PrintLines;
    AtSplits(text, line, FenceLine(x.indent, x.info), PrintLines(x.items) + FenceLine(x.outdent, x.trail));
    AtSplits(text, line + |x.indent| + |x.info| + 4, PrintLines(x.items), FenceLine(x.outdent, x.trail));
  }

  /** A block around properly nested ones is closed at its own fence. */
  lemma BlockClosesAtOwnFence(text: string, line: nat, items: seq<Item>, outdent: string, trail: string)
    requires (forall x :: x in items ==> ItemOk(x)) && Blanks(outdent) && '\n' !in trail && TrimSpace(trail) == ""
    requires At(text, line, PrintLines(items)) && At(text, line + |PrintLines(items)|, FenceLine(outdent, trail))
    ensures BlockEnd(text, line, 1) == Some(line + |PrintLines(items)| + |outdent| + 3)
  {
    hide BlockEnd, TrimSpace, Blanks, ItemOk, At, PrintLines, FenceLine;
    assert line <= |text| by { AtIsInside(text, line, PrintLines(items)); }
    NestedLinesArePassed(text, line, items, 1);
    FenceLineIsCounted(text, line + |PrintLines(items)|, outdent, trail, 1);
  }

  lemma AtIsInside(text: string, i: nat, s: string)
    requires At(text, i, s)
    ensures i + |s| <= |text|
  {
  }

  /** The first fence after fenceless prose is the block's. */
  lemma ProseEndsAtFence(text: string, from: nat, prose: string, info: string)
    requires At(text, from, prose) && ProseOk(prose) && '\n' !in info && At(text, from + |prose|, FenceLine("", info))
    ensures
      var f := from + |prose|;
      NextFence(text, from) == Some(f) && f + 3 + |info| + 1 <= |text|
          && ContentStart(text, f) == (f + 3 + |info| + 1, info)
  {
    hide ProseOk, ContentStart, FenceLine, NextFence;
    var f := from + |prose|;
    ContentIs(text, f, info);
    NoFenceInProse(text, from, prose);
    hide At, FenceAt;
    FenceIsNext(text, from, Some(f));
  }

  lemma ContentIs(text: string, f: nat, info: string)
    requires '\n' !in info && At(text, f, FenceLine("", info))
    ensures f + 3 + |info| + 1 <= |text| && FenceAt(text, f) && ContentStart(text, f) == (f + 3 + |info| + 1, info)
  {
    assert FenceLine("", info) == "```" + (info + "\n");
    AtSplits(text, f, "```", info + "\n");
    FenceStands(text, f);
    LineStands(text, f + 3, info);
  }

  lemma FenceStands(text: string, f: nat)
    requires At(text, f, "```")
    ensures FenceAt(text, f)
  {
    AtChar(text, f, "```", 0);
    AtChar(text, f, "```", 1);
    AtChar(text, f, "```", 2);
  }

  lemma NoFenceInProse(text: string, from: nat, prose: string)
    requires At(text, from, prose) && ProseOk(prose)
    ensures forall i: nat :: from <= i < from + |prose| ==> !FenceAt(text, i)
  {
    forall i: nat | from <= i < from + |prose|
      ensures !FenceAt(text, i)
    {
      var k := i - from;
      AtChar(text, from, prose, k);
      if k + 3 <= |prose| {
        AtChar(text, from, prose, k + 1);
        AtChar(text, from, prose, k + 2);
        assert !FenceAt(prose, k);
      } else {
        AtChar(text, from, prose, |prose| - 1);
      }
    }
  }

  /** Without a fence in what is left, nothing opens. */
  lemma NothingOpens(text: string, from: nat, post: string)
    requires from <= |text| && NoFence(post) && text[from..] == post
    ensures NextFence(text, from).None?
  {
    forall i: nat | from <= i < |text|
      ensures !FenceAt(text, i)
    {
      assert !FenceAt(post, i - from);
      if i + 3 <= |text| {
        assert post[i - from] == text[i] && post[i - from + 1] == text[i + 1] && post[i - from + 2] == text[i + 2];
      }
    }
  }

  /** The body closes at the fence on the line after it. */
  lemma BodyCloses(text: string, body: string, outdent: string)
    requires Fenceless(body, true) && (body == "" || body[|body| - 1] == '\n') && Blanks(outdent)
    requires At(text, 0, body) && At(text, |body|, outdent + "```")
    ensures JsonClose(text) == Some((|body|, |body| + |outdent| + 3))
  {
    hide Fenceless, FenceOfLine, At;
    AtIsInside(text, |body|, outdent + "```");
    BodyLinesArePassed(text, body, 0);
    ClosingLineIsFound(text, |body|, outdent);
    hide ClosingLine;
  }

  /** No line of the body opens a fence. */
  lemma BodyLineIsPlain(text: string, body: string, line: nat)
    requires Fenceless(body, true) && body != "" && body[|body| - 1] == '\n'
    requires At(text, 0, body) && line < |body| && (line == 0 || body[line - 1] == '\n')
    ensures var e := LineEnd(text, line); e < |body| && body[e] == '\n' && FenceOfLine(text, line, e).None?
  {
    hide Fenceless, At;
    AtIsInside(text, 0, body);
    forall j | 0 <= j < |body|
      ensures body[j] == text[j]
    {
      AtChar(text, 0, body, j);
    }
    var e := LineEnd(text, line);
    assert text[|body| - 1] == '\n';
    assert e < |body|;
    var t := FenceOfLine(text, line, e);
    if t.Some? {
      FencelessAt(body, line, t.value);
      assert false;
    }
  }

  lemma {:induction false} BodyLinesArePassed(text: string, body: string, line: nat)
    requires Fenceless(body, true) && (body == "" || body[|body| - 1] == '\n')
    requires At(text, 0, body) && line <= |body| && (line == 0 || body[line - 1] == '\n')
    ensures ClosingLine(text, line) == ClosingLine(text, |body|)
    decreases |body| - line
  {
    hide Fenceless, At, LineEnd, FenceOfLine;
    AtIsInside(text, 0, body);
    if line < |body| {
      BodyLineIsPlain(text, body, line);
      BodyLinesArePassed(text, body, LineEnd(text, line) + 1);
    }
  }

  lemma ClosingLineIsFound(text: string, n: nat, outdent: string)
    requires Blanks(outdent) && At(text, n, outdent + "```")
    ensures ClosingLine(text, n) == Some((n, n + |outdent| + 3))
  {
    var e := LineEnd(text, n);
    forall k | n <= k < n + |outdent| + 3
      ensures text[k] != '\n'
    {
      AtChar(text, n, outdent + "```", k - n);
      if k < n + |outdent| { assert outdent[k - n] in outdent; }
    }
    assert e >= n + |outdent| + 3;
    var info := text[n + |outdent| + 3..e];
    assert text[n..e] == text[n..n + |outdent| + 3] + info;
    assert text[n..e] == outdent + ("```" + info);
    FenceIsLocal(text, n, text[n..e]);
    IndentedFence(outdent, info);
  }

  lemma {:induction false} NoClosingLine(text: string, line: nat)
    requires Fenceless(text, true) && line <= |text| && (line == 0 || text[line - 1] == '\n')
    ensures ClosingLine(text, line).None?
    decreases |text| - line
  {
    hide Fenceless;
    if line < |text| {
      var e := LineEnd(text, line);
      var t := FenceOfLine(text, line, e);
      if t.Some? { FencelessAt(text, line, t.value); }
      if e < |text| { NoClosingLine(text, e + 1); }
    }
  }

  /** Where no line opens a fence, one glued to the end of the text closes the block. */
  lemma GluedFenceCloses(body: string, trail: string)
    requires Fenceless(body + ("```" + trail), true) && forall c :: c in trail ==> Trails(c)
    ensures JsonClose(body + ("```" + trail)) == Some((|body|, |body| + 3))
  {
    hide *;
    GluedFenceStands(body, trail);
    LastFenceCloses(body + ("```" + trail), |body|);
  }

  lemma GluedFenceStands(body: string, trail: string)
    requires forall c :: c in trail ==> Trails(c)
    ensures
      var text := body + ("```" + trail);
      && |text| >= |body| + 3
      && FenceAt(text, |body|) && forall k :: |body| + 3 <= k < |text| ==> Trails(text[k])
  {
    var text := body + ("```" + trail);
    assert text[|body|] == '`' && text[|body| + 1] == '`' && text[|body| + 2] == '`';
    forall k | |body| + 3 <= k < |text|
      ensures Trails(text[k])
    {
      assert text[k] == trail[k - |body| - 3];
    }
  }

  lemma LastFenceCloses(text: string, n: nat)
    requires Fenceless(text, true) && n + 3 <= |text| && FenceAt(text, n)
    requires forall k :: n + 3 <= k < |text| ==> Trails(text[k])
    ensures JsonClose(text) == Some((n, n + 3))
  {
    NoClosingLine(text, 0);
    hide ClosingLine, Fenceless;
    assert text[n + 2] == '`';
    var end := TrimmedEnd(text, |text|);
    assert end == n + 3;
  }

  lemma LeadJoinsProse(lead: string, prose: string)
    requires '`' !in lead && ProseOk(prose)
    ensures ProseOk(lead + prose)
  {
    var s := lead + prose;
    forall i: nat | i < |s|
      ensures !FenceAt(s, i)
    {
      if i < |lead| { assert s[i] == lead[i] && lead[i] in lead; }
      else if i + 3 <= |s| { assert !FenceAt(prose, i - |lead|); }
    }
    if prose == "" && lead != "" { assert s == lead && s[|s| - 1] in lead; }
  }

  lemma LeadJoinsPost(lead: string, post: string)
    requires '`' !in lead && NoFence(post)
    ensures NoFence(lead + post)
  {
    var s := lead + post;
    forall i: nat | i < |s|
      ensures !FenceAt(s, i)
    {
      if i < |lead| { assert s[i] == lead[i] && lead[i] in lead; }
      else if i + 3 <= |s| { assert !FenceAt(post, i - |lead|); }
    }
  }

  /** Where the pieces of the first section stand. */
  lemma SectionStands(text: string, from: nat, lead: string, prose: string, info: string, inner: string,
      closing: string, more: string)
    requires from <= |text| && text[from..] == lead + (prose + ((FenceLine("", info) + (inner + closing)) + more))
    ensures
      var f := from + |lead + prose|;
      var start := f + |info| + 4;
      && At(text, from, lead + prose) && At(text, f, FenceLine("", info)) && At(text, start, inner)
           && At(text, start + |inner|, closing)
      && start + |inner| + |closing| <= |text| && text[start + |inner| + |closing|..] == more
  {
    var whole := text[from..];
    assert whole == (lead + prose) + (FenceLine("", info) + (inner + (closing + more)));
    assert At(text, from, whole);
    AtSplits(text, from, lead + prose, FenceLine("", info) + (inner + (closing + more)));
    var f := from + |lead + prose|;
    AtSplits(text, f, FenceLine("", info), inner + (closing + more));
    var start := f + |info| + 4;
    AtSplits(text, start, inner, closing + more);
    AtSplits(text, start + |inner|, closing, more);
    assert |whole| == |text| - from;
  }

  /** A JSON block is a candidate, and the search goes on behind it. */
  lemma JsonBlockIsTaken(text: string, from: nat, prose: string, info: string, body: string, outdent: string,
      more: string)
    requires from <= |text| && At(text, from, prose) && ProseOk(prose) && At(text, from + |prose|, FenceLine("", info))
    requires BlockOk(JsonBlock(info, body, outdent))
    requires var start := from + |prose| + |info| + 4;
             && At(text, start, body) && At(text, start + |body|, outdent + "```")
             && start + |body| + |outdent| + 3 <= |text| && text[start + |body| + |outdent| + 3..] == more
    ensures CandidatesFrom(text, from) == [body] + CandidatesFrom(more, 0)
  {
    hide NextFence, ContentStart, BlockEnd, SaysJson, JsonClose, ProseOk, Fenceless, Blanks, FenceLine, FenceAt,
         JsonOpen, At, CandidatesFrom;
    LabelledSaysJson(info);
    ProseEndsAtFence(text, from, prose, info);
    OpenStep(text, from, Some(from + |prose|));
    var start := from + |prose| + |info| + 4;
    AtDropped(text, start, start, body);
    AtDropped(text, start, start + |body|, outdent + "```");
    BodyCloses(text[start..], body, outdent);
    AtIsInside(text[start..], 0, body);
    BodyIsCut(text, start, body, outdent);
    TakeStep(text, from, start, |body|, |body| + |outdent| + 3);
    assert text[start..][|body| + |outdent| + 3..] == more;
  }

  lemma BodyIsCut(text: string, start: nat, body: string, outdent: string)
    requires start <= |text| && At(text[start..], 0, body)
    ensures text[start..][..|body|] == body
  {
  }

  lemma TakeStep(text: string, from: nat, start: nat, end: nat, next: nat)
    requires from <= |text| && JsonOpen(text, from) == Some(start) && JsonClose(text[start..]) == Some((end, next))
    ensures CandidatesFrom(text, from) == [text[start..][..end]] + CandidatesFrom(text[start..][next..], 0)
  {
    hide JsonOpen, JsonClose;
  }

  /** Another block is passed over. */
  lemma OtherBlockIsPassed(text: string, from: nat, prose: string, info: string, items: seq<Item>, outdent: string,
      trail: string)
    requires from <= |text| && At(text, from, prose) && ProseOk(prose) && At(text, from + |prose|, FenceLine("", info))
    requires BlockOk(OtherBlock(info, items, outdent, trail))
    requires var start := from + |prose| + |info| + 4;
             At(text, start, PrintLines(items)) && At(text, start + |PrintLines(items)|, FenceLine(outdent, trail))
    ensures
      var next := from + |prose| + |info| + 4 + |PrintLines(items)| + |outdent| + 3;
      next <= |text| && CandidatesFrom(text, from) == CandidatesFrom(text, next)
  {
    hide NextFence, ContentStart, BlockEnd, SaysJson, JsonClose, ProseOk, Fenceless, Blanks, FenceLine, FenceAt,
         PrintLines, ItemOk, TrimSpace, JsonOpen, At;
    LabelledSaysJson(info);
    ProseEndsAtFence(text, from, prose, info);
    OpenStep(text, from, Some(from + |prose|));
    var start := from + |prose| + |info| + 4;
    AtDropped(text, start, start, PrintLines(items));
    AtDropped(text, start, start + |PrintLines(items)|, FenceLine(outdent, trail));
    BlockClosesAtOwnFence(text[start..], 0, items, outdent, trail);
  }

  /** The candidates of a text built of sections are the bodies of its JSON blocks, in order. */
  lemma {:induction false} CandidatesAreBodies(text: string, from: nat, lead: string, sections: seq<Section>,
      post: string)
    requires from <= |text| && '`' !in lead && SectionsOk(sections, post)
              && text[from..] == lead + PrintSections(sections, post)
    ensures CandidatesFrom(text, from) == Bodies(sections)
    decreases |sections|
  {
    hide NextFence, ContentStart, BlockEnd, SaysJson, JsonClose, ProseOk, NoFence, Fenceless, ItemOk, TrimSpace,
         Blanks, FenceLine, At, PrintLines;
    if sections == [] {
      LeadJoinsPost(lead, post);
      NothingOpens(text, from, lead + post);
    } else {
      hide CandidatesFrom;
      var x := sections[0];
      assert x in sections;
      LeadJoinsProse(lead, x.prose);
      match x.block {
        case JsonBlock(info, body, outdent) => JsonSection(text, from, lead, sections, post);
        case OtherBlock(info, items, outdent, trail) => OtherSection(text, from, lead, sections, post);
      }
    }
  }

  lemma {:induction false} JsonSection(text: string, from: nat, lead: string, sections: seq<Section>, post: string)
    requires sections != [] && sections[0].block.JsonBlock? && ProseOk(lead + sections[0].prose)
    requires from <= |text| && '`' !in lead && SectionsOk(sections, post)
              && text[from..] == lead + PrintSections(sections, post)
    ensures CandidatesFrom(text, from) == Bodies(sections)
    decreases |sections|, 0
  {
    hide CandidatesFrom, ProseOk, NoFence, BlockOk, FenceLine, At;
    var x, more := sections[0], PrintSections(sections[1..], post);
    var b := x.block;
    SectionStands(text, from, lead, x.prose, b.info, b.body, b.outdent + "```", more);
    JsonBlockIsTaken(text, from, lead + x.prose, b.info, b.body, b.outdent, more);
    assert more[0..] == "" + more;
    CandidatesAreBodies(more, 0, "", sections[1..], post);
  }

  lemma {:induction false} OtherSection(text: string, from: nat, lead: string, sections: seq<Section>, post: string)
    requires sections != [] && sections[0].block.OtherBlock? && ProseOk(lead + sections[0].prose)
    requires from <= |text| && '`' !in lead && SectionsOk(sections, post)
              && text[from..] == lead + PrintSections(sections, post)
    ensures CandidatesFrom(text, from) == Bodies(sections)
    decreases |sections|, 0
  {
    hide CandidatesFrom, ProseOk, NoFence, BlockOk, PrintBlock;
    var x, more := sections[0], PrintSections(sections[1..], post);
    assert x in sections;
    var lead' := x.block.trail + "\n";
    var next := OtherBlockStands(text, from, lead, x, more);
    hide PrintSections;
    CandidatesAreBodies(text, next, lead', sections[1..], post);
  }

  lemma OtherBlockStands(text: string, from: nat, lead: string, x: Section, more: string) returns (next: nat)
    requires x.block.OtherBlock? && BlockOk(x.block) && ProseOk(lead + x.prose)
    requires from <= |text| && text[from..] == lead + (x.prose + (PrintBlock(x.block) + more))
    ensures next <= |text| && CandidatesFrom(text, from) == CandidatesFrom(text, next)
    ensures text[next..] == (x.block.trail + "\n") + more && '`' !in x.block.trail + "\n"
  {
    hide CandidatesFrom, ProseOk, ItemOk, At, TrimSpace, PrintLines, FenceLine, Blanks, SaysJson;
    var b := x.block;
    SectionStands(text, from, lead, x.prose, b.info, PrintLines(b.items), FenceLine(b.outdent, b.trail), more);
    var prose := lead + x.prose;
    var closing := from + |prose| + |b.info| + 4 + |PrintLines(b.items)|;
    OtherBlockIsPassed(text, from, prose, b.info, b.items, b.outdent, b.trail);
    next := closing + |b.outdent| + 3;
    TrailIsLeft(text, closing, b.outdent, b.trail, more);
    BlankHasNoBacktick(b.trail);
  }

  lemma TrailIsLeft(text: string, i: nat, outdent: string, trail: string, more: string)
    requires At(text, i, FenceLine(outdent, trail)) && text[i + |FenceLine(outdent, trail)|..] == more
    ensures i + |outdent| + 3 <= |text| && text[i + |outdent| + 3..] == (trail + "\n") + more
  {
    AtSplits(text, i, outdent, "```" + (trail + "\n"));
    AtSplits(text, i + |outdent|, "```", trail + "\n");
    var k := i + |outdent| + 3;
    assert text[k..] == text[k..k + |trail| + 1] + text[k + |trail| + 1..];
  }

  lemma {:induction false} BlankHasNoBacktick(s: string)
    requires TrimSpace(s) == ""
    ensures '`' !in s
    decreases |s|
  {
    if s != "" {
      if IsSpace(s[0]) {
        BlankHasNoBacktick(s[1..]);
        assert s == [s[0]] + s[1..];
      } else {
        BlankHasNoBacktick(s[..|s| - 1]);
        assert s == s[..|s| - 1] + [s[|s| - 1]];
      }
    }
  }

  lemma NoFenceNoCandidates(text: string)
    requires NoFence(text)
    ensures Candidates(text) == []
  {
    FenceIsNext(text, 0, None);
  }

  // ----- no line of printed JSON opens a fence -----

  /** No backtick follows only blanks on its line; `opening` when only blanks came before on the first line. */
  predicate Fenceless(s: string, opening: bool) {
    s == "" || (!(opening && s[0] == '`') && Fenceless(s[1..], s[0] == '\n' || (opening && IsBlank(s[0]))))
  }

  ghost predicate Tame(s: string) {
    Fenceless(s, true) && Fenceless(s, false)
  }

  lemma {:induction false} FencelessJoins(a: string, b: string, opening: bool)
    requires Fenceless(a, opening) && Tame(b)
    ensures Fenceless(a + b, opening)
  {
    if a == "" {
      assert a + b == b;
    } else {
      FencelessJoins(a[1..], b, a[0] == '\n' || (opening && IsBlank(a[0])));
      assert (a + b)[0] == a[0] && (a + b)[1..] == a[1..] + b;
    }
  }

  lemma TameJoins(a: string, b: string)
    requires Tame(a) && Tame(b)
    ensures Tame(a + b)
  {
    FencelessJoins(a, b, true);
    FencelessJoins(a, b, false);
  }

  lemma {:induction false} NoBacktickIsTame(s: string, opening: bool)
    requires '`' !in s
    ensures Fenceless(s, opening)
  {
    if s != "" {
      assert s[0] in s && forall c :: c in s[1..] ==> c in s;
      NoBacktickIsTame(s[1..], s[0] == '\n' || (opening && IsBlank(s[0])));
    }
  }

  lemma PlainIsTame(s: string)
    requires '`' !in s
    ensures Tame(s)
  {
    NoBacktickIsTame(s, true);
    NoBacktickIsTame(s, false);
  }

  lemma {:induction false} NoNewlineIsTame(s: string)
    requires '\n' !in s
    ensures Fenceless(s, false)
  {
    if s != "" {
      assert s[0] in s && forall c :: c in s[1..] ==> c in s;
      NoNewlineIsTame(s[1..]);
    }
  }

  lemma {:induction false} CharsStayOnLine(xs: seq<StringChar>)
    requires forall x :: x in xs ==> StringCharOk(x)
    ensures '\n' !in PrintChars(xs)
  {
    if xs != [] {
      CharsStayOnLine(xs[1..]);
      assert StringCharOk(xs[0]);
      assert '\n' !in PrintChar(xs[0]);
    }
  }

  lemma QuotedIsTame(xs: seq<StringChar>)
    requires forall x :: x in xs ==> StringCharOk(x)
    ensures Tame("\"" + PrintChars(xs) + "\"")
  {
    var s := "\"" + PrintChars(xs) + "\"";
    CharsStayOnLine(xs);
    assert '\n' !in s[1..];
    NoNewlineIsTame(s[1..]);
    assert s[0] == '"';
  }

  lemma BlankIsTame(s: string)
    requires Blank(s)
    ensures Tame(s)
  {
    assert forall c :: c in s ==> c != '`';
    PlainIsTame(s);
  }

  lemma {:induction false} DocIsTame(d: Doc)
    requires DocOk(d)
    ensures Tame(Print(d)) && Tame(Bare(d))
    decreases d, 0
  {
    match d {
      case Token(_, text, _) =>
        assert forall c :: c in text ==> c != '`';
        PlainIsTame(text);
      case Text(_, chars, _) => QuotedIsTame(chars);
      case List(_, inner, items, _) =>
        BlankIsTame(inner); PlainIsTame("["); PlainIsTame("]");
        ItemsAreTame(items);
        var mid := if items == [] then inner else PrintItems(items);
        TameJoins("[", mid);
        TameJoins("[" + mid, "]");
      case Object(_, inner, members, _) =>
        BlankIsTame(inner); PlainIsTame("{"); PlainIsTame("}");
        MembersAreTame(members);
        var mid := if members == [] then inner else PrintMembers(members);
        TameJoins("{", mid);
        TameJoins("{" + mid, "}");
    }
    BlankIsTame(d.before); BlankIsTame(d.after);
    TameJoins(d.before, Bare(d));
    TameJoins(d.before + Bare(d), d.after);
  }

  lemma {:induction false} ItemsAreTame(items: seq<Doc>)
    requires forall x :: x in items ==> DocOk(x)
    ensures Tame(PrintItems(items))
    decreases items, 1
  {
    if items != [] {
      DocIsTame(items[0]);
      if |items| > 1 {
        ItemsAreTame(items[1..]);
        PlainIsTame(",");
        TameJoins(Print(items[0]), ",");
        TameJoins(Print(items[0]) + ",", PrintItems(items[1..]));
      }
    }
  }

  lemma {:induction false} MemberIsTame(m: Member)
    requires MemberOk(m)
    ensures Tame(PrintMember(m))
    decreases m, 1
  {
    var quoted := "\"" + PrintChars(m.key) + "\"";
    BlankIsTame(m.keyBefore); BlankIsTame(m.keyAfter); PlainIsTame(":");
    QuotedIsTame(m.key);
    DocIsTame(m.value);
    TameJoins(m.keyBefore, quoted);
    TameJoins(m.keyBefore + quoted, m.keyAfter);
    TameJoins(m.keyBefore + quoted + m.keyAfter, ":");
    TameJoins(m.keyBefore + quoted + m.keyAfter + ":", Print(m.value));
    assert PrintMember(m) == m.keyBefore + quoted + m.keyAfter + ":" + Print(m.value);
  }

  lemma {:induction false} MembersAreTame(members: seq<Member>)
    requires forall m :: m in members ==> MemberOk(m)
    ensures Tame(PrintMembers(members))
    decreases members, 1
  {
    if members != [] {
      MemberIsTame(members[0]);
      if |members| > 1 {
        MembersAreTame(members[1..]);
        PlainIsTame(",");
        TameJoins(PrintMember(members[0]), ",");
        TameJoins(PrintMember(members[0]) + ",", PrintMembers(members[1..]));
      }
    }
  }

  /** A fenceless text has no backtick where its line, past blanks, begins. */
  lemma {:induction false} FencelessAt(s: string, line: nat, k: nat)
    requires Fenceless(s, true)
    requires line <= k < |s| && (line == 0 || s[line - 1] == '\n')
    requires forall j :: line <= j < k ==> IsBlank(s[j])
    ensures s[k] != '`'
  {
    FencelessFrom(s, true, line, k);
  }

  lemma {:induction false} FencelessFrom(s: string, opening: bool, line: nat, k: nat)
    requires Fenceless(s, opening)
    requires line <= k < |s| && (if line == 0 then opening else s[line - 1] == '\n')
    requires forall j :: line <= j < k ==> IsBlank(s[j])
    ensures s[k] != '`'
    decreases |s|
  {
    if k > 0 {
      var next := s[0] == '\n' || (opening && IsBlank(s[0]));
      if line == 0 {
        assert IsBlank(s[0]);
        FencelessFrom(s[1..], next, 0, k - 1);
      } else {
        FencelessFrom(s[1..], next, line - 1, k - 1);
      }
    }
  }

  // ----- bare objects in prose -----

  /** The last bare object at or after `i` that parses, else `last`; fenced blocks are skipped. */
  function LastBare(text: string, i: nat, parse: Parser, last: Option<string>): Option<string>
    requires i <= |text|
    decreases |text| - i
  {
    if i == |text| then last
    else if FenceAt(text, i) then
      var start := ContentStart(text, i).0;
      var next := BlockEnd(text[start..], 0, 1);
      if next.None? then last else LastBare(text, start + next.value, parse, last)
    else if text[i] != '{' then LastBare(text, i + 1, parse, last)
    else
      var n := Scan(text[i..], 0, false, false);
      if n.None? then LastBare(text, i + 1, parse, last)
      else
        ScanStaysInside(text[i..], 0, false, false);
        var found := parse(text[i..i + n.value]);
        LastBare(text, i + n.value, parse, if found.Some? then found else last)
  }

  lemma {:induction false} ScanStaysInside(rest: string, depth: int, inString: bool, escape: bool)
    ensures var n := Scan(rest, depth, inString, escape); n.Some? ==> 0 < n.value <= |rest|
    decreases rest
  {
    if rest != "" {
      forall d, s, e { ScanStaysInside(rest[1..], d, s, e); }
    }
  }

  method LastBareJsonObject(text: string, parse: Parser) returns (last: Option<string>)
    ensures last == LastBare(text, 0, parse, None)
  {
    hide FenceAt, BlockEnd, ContentStart, Scan;
    last := None;
    var i := 0;
    while i < |text|
      invariant i <= |text|
      invariant LastBare(text, 0, parse, None) == LastBare(text, i, parse, last)
      decreases |text| - i
    {
      if FenceAt(text, i) {
        var (start, _) := ContentStart(text, i);
        var next := SkipFenceBlock(text[start..]);
        if next.None? { return; }
        i := start + next.value;
      } else if text[i] != '{' {
        i := i + 1;
      } else {
        var end := ScanBalancedObject(text, i);
        if end.None? {
          i := i + 1;
        } else {
          var found := parse(text[i..end.value]);
          if found.Some? { last := found; }
          i := end.value;
        }
      }
    }
  }

  /** Objects in a text, each with the prose before it. */
  datatype Part = Part(prose: string, item: Doc)

  function Compose(parts: seq<Part>, post: string): string {
    if parts == [] then post else parts[0].prose + (Bare(parts[0].item) + Compose(parts[1..], post))
  }

  predicate PartsOk(parts: seq<Part>) {
    forall p :: p in parts ==> '{' !in p.prose && p.item.Object? && DocOk(p.item)
  }

  /** The last object that parses. */
  function LastParsed(parts: seq<Part>, parse: Parser, last: Option<string>): Option<string> {
    if parts == [] then last
    else
      var found := parse(Bare(parts[0].item));
      LastParsed(parts[1..], parse, if found.Some? then found else last)
  }

  lemma {:induction false} ProseIsSkipped(text: string, i: nat, n: nat, parse: Parser, last: Option<string>)
    requires i + n <= |text| && NoFence(text) && forall k :: i <= k < i + n ==> text[k] != '{'
    ensures LastBare(text, i, parse, last) == LastBare(text, i + n, parse, last)
    decreases n
  {
    if n > 0 { ProseIsSkipped(text, i + 1, n - 1, parse, last); }
  }

  lemma NothingAtTheEnd(text: string, parse: Parser, last: Option<string>)
    ensures LastBare(text, |text|, parse, last) == last
  {
  }

  lemma BareOpens(d: Doc)
    requires d.Object?
    ensures Bare(d) != "" && Bare(d)[0] == '{'
  {
  }

  lemma ObjectIsTaken(text: string, at: nat, d: Doc, tail: string, parse: Parser, last: Option<string>)
    requires NoFence(text) && d.Object? && DocOk(d)
    requires at <= |text| && text[at..] == Bare(d) + tail
    ensures
      var o := Bare(d);
      && at + |o| <= |text| && text[at + |o|..] == tail
      && LastBare(text, at, parse, last) == LastBare(text, at + |o|, parse, if parse(o).Some? then parse(o) else last)
  {
    hide FenceAt, BlockEnd, ContentStart, Scan, DocOk;
    var o := Bare(d);
    ScanUndoesPrint(d, tail);
    BareOpens(d);
    assert text[at..][0] == o[0];
    assert text[at..at + |o|] == text[at..][..|o|] == o;
    assert text[at + |o|..] == text[at..][|o|..] == tail;
  }

  /** Whatever prose surrounds the objects, the last one that parses is found, whole. */
  lemma {:induction false} LastBareFindsLast(text: string, i: nat, parts: seq<Part>, post: string, parse: Parser,
      last: Option<string>)
    requires NoFence(text) && PartsOk(parts) && '{' !in post
    requires i <= |text| && text[i..] == Compose(parts, post)
    ensures LastBare(text, i, parse, last) == LastParsed(parts, parse, last)
    decreases |parts|
  {
    hide LastBare, DocOk, Bare, NoFence;
    if parts == [] {
      forall k | i <= k < |text|
        ensures text[k] != '{'
      {
        assert text[k] == post[k - i];
      }
      ProseIsSkipped(text, i, |post|, parse, last);
      NothingAtTheEnd(text, parse, last);
    } else {
      var p := parts[0];
      assert p in parts;
      var o := Bare(p.item);
      var tail := Compose(parts[1..], post);
      forall k | i <= k < i + |p.prose|
        ensures text[k] != '{'
      {
        assert text[i..][k - i] == p.prose[k - i];
      }
      ProseIsSkipped(text, i, |p.prose|, parse, last);
      var at := i + |p.prose|;
      assert text[at..] == text[i..][|p.prose|..] == o + tail;
      ObjectIsTaken(text, at, p.item, tail, parse, last);
      LastBareFindsLast(text, at + |o|, parts[1..], post, parse, if parse(o).Some? then parse(o) else last);
    }
  }

  // ----- choosing the answer -----

  /** Prose without fences or opening braces around printed objects. */
  predicate Prose(text: string, parts: seq<Part>, post: string) {
    text == Compose(parts, post) && PartsOk(parts) && '{' !in post && NoFence(text)
  }

  /** A printed JSON document, whatever backticks its strings hold, is the body of a well-formed JSON block. */
  lemma FencedDocIsBlock(info: string, d: Doc, outdent: string)
    requires DocOk(d) && '\n' !in info && Labelled(info) && Blanks(outdent)
    ensures BlockOk(JsonBlock(info, Print(d) + "\n", outdent))
  {
    DocIsTame(d);
    PlainIsTame("\n");
    TameJoins(Print(d), "\n");
  }

  /** The results of those candidates that parse. */
  function Parsed(candidates: seq<string>, parse: Parser): seq<string> {
    if candidates == [] then []
    else
      var last := parse(candidates[|candidates| - 1]);
      Parsed(candidates[..|candidates| - 1], parse) + if last.Some? then [last.value] else []
  }

  /**
   * `parseStructuredTextOutput`: the whole text if it parses; else the only JSON
   * fence that parses, and no answer when several do; else the last bare object
   * that parses.
   */
  method ParseStructuredText(text: string, parse: Parser) returns (answer: Option<string>)
    ensures parse(text).Some? ==> answer == parse(text)
    ensures parse(text).None? ==>
              var fenced := Parsed(Candidates(text), parse);
              answer == if |fenced| == 1 then Some(fenced[0]) else if |fenced| > 1 then None
                  else LastBare(text, 0, parse, None)
    // Prose and fenced blocks: the candidates are the JSON bodies.
    ensures forall sections, post :: text == PrintSections(sections, post) && SectionsOk(sections, post) ==>
              Candidates(text) == Bodies(sections)
    // Objects in prose without fences: the last one that parses, whole.
    ensures forall parts, post :: parse(text).None? && Prose(text, parts, post) ==>
              answer == LastParsed(parts, parse, None)
  {
    hide Candidates, NoFence, Prose, LastBare;
    answer := parse(text);
    forall sections, post | text == PrintSections(sections, post) && SectionsOk(sections, post)
      ensures Candidates(text) == Bodies(sections)
    {
      SectionsGiveBodies(text, sections, post);
    }
    forall parts, post | Prose(text, parts, post)
      ensures Candidates(text) == [] && LastBare(text, 0, parse, None) == LastParsed(parts, parse, None)
    {
      ProseGivesLast(text, parts, post, parse);
    }
    if answer.Some? { return; }
    var candidates := FencedCandidates(text);
    var parsed: seq<string> := [];
    for k := 0 to |candidates|
      invariant parsed == Parsed(candidates[..k], parse)
    {
      assert candidates[..k + 1][..k] == candidates[..k];
      var fenced := parse(candidates[k]);
      if fenced.Some? { parsed := parsed + [fenced.value]; }
    }
    assert candidates[..|candidates|] == candidates;
    if |parsed| == 1 { return Some(parsed[0]); }
    if |parsed| > 1 { return None; }
    answer := LastBareJsonObject(text, parse);
  }

  lemma SectionsGiveBodies(text: string, sections: seq<Section>, post: string)
    requires text == PrintSections(sections, post) && SectionsOk(sections, post)
    ensures Candidates(text) == Bodies(sections)
  {
    assert text[0..] == "" + PrintSections(sections, post);
    CandidatesAreBodies(text, 0, "", sections, post);
  }

  lemma ProseGivesLast(text: string, parts: seq<Part>, post: string, parse: Parser)
    requires Prose(text, parts, post)
    ensures Candidates(text) == [] && LastBare(text, 0, parse, None) == LastParsed(parts, parse, None)
  {
    hide CandidatesFrom, LastBare;
    NoFenceNoCandidates(text);
    assert text[0..] == text;
    LastBareFindsLast(text, 0, parts, post, parse, None);
  }
}
