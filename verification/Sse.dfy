/** Server-sent events: section 9.2.6 of the WHATWG HTML standard, as far as `event` and `data` go. */
module Sse {

  const EVENT := "event:"
  const DATA := "data:"

  /** An event with its data line by line. */
  datatype Event = Event(name: string, data: seq<string>)

  predicate HasPrefix(s: string, prefix: string) {
    |prefix| <= |s| && s[..|prefix|] == prefix
  }

  function TrimReturns(s: string): string {
    if s != "" && s[|s| - 1] == '\r' then TrimReturns(s[..|s| - 1]) else s
  }

  function StripSpace(s: string): string {
    if s != "" && s[0] == ' ' then s[1..] else s
  }

  /** The lines of a text; a last line without newline counts unless it is empty. */
  function Lines(text: string, current: string): seq<string>
    decreases |text|
  {
    if text == "" then if current == "" then [] else [current]
    else if text[0] == '\n' then [current] + Lines(text[1..], "")
    else Lines(text[1..], current + [text[0]])
  }

  /** The events handed over while `keep` asks for more; `name` and `data` are the event being read. */
  function Delivered(lines: seq<string>, name: string, data: seq<string>, keep: Event -> bool): seq<Event>
    decreases |lines|
  {
    if lines == [] then Pending(name, data)
    else
      var line := TrimReturns(lines[0]);
      if line == "" then
        Pending(name, data) +
        if Pending(name, data) == [] || keep(Event(name, data)) then Delivered(lines[1..], "", [], keep) else []
      else if HasPrefix(line, EVENT) then Delivered(lines[1..], StripSpace(line[|EVENT|..]), data, keep)
      else if HasPrefix(line, DATA) then Delivered(lines[1..], name, data + [StripSpace(line[|DATA|..])], keep)
      else Delivered(lines[1..], name, data, keep)
  }

  /** The event read so far; nothing when it has neither name nor data. */
  function Pending(name: string, data: seq<string>): seq<Event> {
    if name == "" && data == [] then [] else [Event(name, data)]
  }

  method ScanLines(text: string) returns (lines: seq<string>)
    ensures lines == Lines(text, "")
  {
    lines := [];
    var start := 0;
    for i := 0 to |text|
      invariant start <= i
      invariant Lines(text, "") == lines + Lines(text[i..], text[start..i])
    {
      assert text[i..][0] == text[i] && text[i..][1..] == text[i + 1..];
      assert text[start..i] + [text[i]] == text[start..i + 1];
      if text[i] == '\n' {
        lines := lines + [text[start..i]];
        start := i + 1;
        assert text[start..i + 1] == "";
      }
    }
    assert text[|text|..] == "" && text[start..|text|] == text[start..];
    if start < |text| { lines := lines + [text[start..]]; }
  }

  /** `parseSSE`: the handler gets each event at its blank line and may stop the parse. */
  method ParseSse(text: string, keep: Event -> bool) returns (events: seq<Event>)
    ensures events == Delivered(Lines(text, ""), "", [], keep)
  {
    hide TrimReturns, StripSpace, HasPrefix, Lines;
    var lines := ScanLines(text);
    events := [];
    var name, data := "", [];
    for i := 0 to |lines|
      invariant Delivered(lines, "", [], keep) == events + Delivered(lines[i..], name, data, keep)
    {
      assert lines[i..][0] == lines[i] && lines[i..][1..] == lines[i + 1..];
      var line := TrimReturns(lines[i]);
      if line == "" {
        if name != "" || data != [] {
          var e := Event(name, data);
          events := events + [e];
          if !keep(e) { return; }
          name, data := "", [];
        }
        continue;
      }
      if HasPrefix(line, EVENT) {
        assert |line| >= |EVENT| by { LongEnough(line, EVENT); }
        name := StripSpace(line[|EVENT|..]);
      } else if HasPrefix(line, DATA) {
        assert |line| >= |DATA| by { LongEnough(line, DATA); }
        data := data + [StripSpace(line[|DATA|..])];
      }
    }
    assert lines[|lines|..] == [];
    if name != "" || data != [] { events := events + [Event(name, data)]; }
  }

  lemma PrefixHead(s: string, prefix: string)
    requires s != "" && prefix != ""
    ensures HasPrefix(s, prefix) ==> s[0] == prefix[0]
  {
    if HasPrefix(s, prefix) { assert s[..|prefix|][0] == s[0]; }
  }

  lemma LongEnough(s: string, prefix: string)
    requires HasPrefix(s, prefix)
    ensures |s| >= |prefix|
  {
  }

  // ----- parsing undoes framing -----

  predicate LineOk(s: string) {
    '\n' !in s && (s == "" || s[|s| - 1] != '\r')
  }

  /** Any event with at least one line of data, none broken by a line end. */
  predicate EventOk(e: Event) {
    LineOk(e.name) && e.data != [] && forall d :: d in e.data ==> LineOk(d)
  }

  function FrameData(data: seq<string>): seq<string> {
    if data == [] then [] else ["data: " + data[0]] + FrameData(data[1..])
  }

  function Frame(e: Event): seq<string> {
    (if e.name == "" then [] else ["event: " + e.name]) + FrameData(e.data) + [""]
  }

  function Frames(events: seq<Event>): seq<string> {
    if events == [] then [] else Frame(events[0]) + Frames(events[1..])
  }

  function Text(lines: seq<string>): string {
    if lines == [] then "" else lines[0] + ("\n" + Text(lines[1..]))
  }

  lemma {:induction false} LineIsRead(current: string, line: string, rest: string)
    requires '\n' !in line
    ensures Lines(line + ("\n" + rest), current) == [current + line] + Lines(rest, "")
    decreases |line|
  {
    var t := line + ("\n" + rest);
    if line == "" {
      assert t[0] == '\n' && t[1..] == rest && current + line == current;
    } else {
      assert line[0] in line;
      assert forall c :: c in line[1..] ==> c in line;
      assert t[0] == line[0] && t[1..] == line[1..] + ("\n" + rest);
      LineIsRead(current + [line[0]], line[1..], rest);
      assert current + [line[0]] + line[1..] == current + line;
    }
  }

  lemma {:induction false} LinesUndoText(lines: seq<string>)
    requires forall l :: l in lines ==> '\n' !in l
    ensures Lines(Text(lines), "") == lines
    decreases |lines|
  {
    if lines != [] {
      assert lines[0] in lines;
      LineIsRead("", lines[0], Text(lines[1..]));
      LinesUndoText(lines[1..]);
      assert "" + lines[0] == lines[0];
    }
  }

  lemma FieldLine(prefix: string, value: string)
    requires prefix != "" && LineOk(value)
    ensures
      var line := prefix + " " + value;
      && TrimReturns(line) == line && line != "" && HasPrefix(line, prefix) && StripSpace(line[|prefix|..]) == value
      && line[0] == prefix[0]
  {
    var line := prefix + " " + value;
    assert line[|prefix|..] == " " + value && (" " + value)[1..] == value;
    assert line[..|prefix|] == prefix;
    assert line[|line| - 1] == if value == "" then ' ' else value[|value| - 1];
  }

  lemma {:induction false} DataIsCollected(data: seq<string>, rest: seq<string>, name: string, before: seq<string>,
      keep: Event -> bool)
    requires forall d :: d in data ==> LineOk(d)
    ensures Delivered(FrameData(data) + rest, name, before, keep) == Delivered(rest, name, before + data, keep)
    decreases |data|
  {
    var lines := FrameData(data) + rest;
    if data == [] {
      assert lines == rest && before + data == before;
    } else {
      hide TrimReturns, StripSpace, LineOk;
      var d := data[0];
      assert d in data;
      FieldLine(DATA, d);
      assert DATA + " " + d == "data: " + d;
      assert lines[0] == DATA + " " + d && lines[1..] == FrameData(data[1..]) + rest;
      assert DATA[0] == 'd' && EVENT[0] == 'e';
      PrefixHead(lines[0], EVENT);
      DataIsCollected(data[1..], rest, name, before + [d], keep);
      assert before + [d] + data[1..] == before + data;
    }
  }

  /** The events up to the first the handler stops at. */
  function Taken(events: seq<Event>, keep: Event -> bool): seq<Event> {
    if events == [] then []
    else [events[0]] + if keep(events[0]) then Taken(events[1..], keep) else []
  }

  lemma FrameIsRead(e: Event, rest: seq<string>, keep: Event -> bool)
    requires EventOk(e)
    ensures Delivered(Frame(e) + rest, "", [], keep) == [e] + if keep(e) then Delivered(rest, "", [], keep) else []
  {
    hide Delivered, LineOk;
    var tail := FrameData(e.data) + ([""] + rest);
    BlankLineEnds(e, rest, keep);
    DataIsCollected(e.data, [""] + rest, e.name, [], keep);
    assert [] + e.data == e.data;
    if e.name == "" {
      assert Frame(e) + rest == tail;
    } else {
      assert EVENT + " " + e.name == "event: " + e.name;
      assert Frame(e) + rest == [EVENT + " " + e.name] + tail;
      NameIsRead(e.name, tail, keep);
    }
  }

  lemma BlankLineEnds(e: Event, rest: seq<string>, keep: Event -> bool)
    requires e.data != []
    ensures Delivered([""] + rest, e.name, e.data, keep) == [e] + if keep(e) then Delivered(rest, "", [], keep) else []
  {
    assert ([""] + rest)[1..] == rest;
  }

  lemma NameIsRead(name: string, rest: seq<string>, keep: Event -> bool)
    requires LineOk(name)
    ensures Delivered([EVENT + " " + name] + rest, "", [], keep) == Delivered(rest, name, [], keep)
  {
    hide TrimReturns, StripSpace;
    var line := EVENT + " " + name;
    FieldLine(EVENT, name);
    assert ([line] + rest)[0] == line && ([line] + rest)[1..] == rest;
  }

  lemma {:induction false} FramesAreRead(events: seq<Event>, keep: Event -> bool)
    requires forall e :: e in events ==> EventOk(e)
    ensures Delivered(Frames(events), "", [], keep) == Taken(events, keep)
    decreases |events|
  {
    if events != [] {
      hide Frame;
      assert events[0] in events;
      FrameIsRead(events[0], Frames(events[1..]), keep);
      FramesAreRead(events[1..], keep);
    }
  }

  lemma {:induction false} FrameLinesOk(events: seq<Event>)
    requires forall e :: e in events ==> EventOk(e)
    ensures forall l :: l in Frames(events) ==> '\n' !in l
    decreases |events|
  {
    if events != [] {
      assert events[0] in events;
      FrameDataOk(events[0].data);
      assert '\n' !in EVENT + " ";
      FrameLinesOk(events[1..]);
    }
  }

  lemma {:induction false} FrameDataOk(data: seq<string>)
    requires forall d :: d in data ==> LineOk(d)
    ensures forall l :: l in FrameData(data) ==> '\n' !in l
    decreases |data|
  {
    if data != [] {
      assert data[0] in data;
      assert '\n' !in DATA + " ";
      FrameDataOk(data[1..]);
    }
  }

  // ----- carriage returns before the line ends -----

  function Returns(n: nat): string {
    if n == 0 then "" else Returns(n - 1) + "\r"
  }

  /** The lines with any number of carriage returns after each. */
  function Ended(lines: seq<string>, extra: seq<nat>): seq<string>
    requires |lines| == |extra|
  {
    if lines == [] then [] else [lines[0] + Returns(extra[0])] + Ended(lines[1..], extra[1..])
  }

  lemma {:induction false} ReturnsAreTrimmed(line: string, n: nat)
    ensures TrimReturns(line + Returns(n)) == TrimReturns(line)
    ensures '\n' !in line ==> '\n' !in line + Returns(n)
  {
    var s := line + Returns(n);
    if n == 0 {
      assert s == line;
    } else {
      assert s == line + Returns(n - 1) + "\r";
      assert s[..|s| - 1] == line + Returns(n - 1);
      ReturnsAreTrimmed(line, n - 1);
    }
  }

  lemma {:induction false} ReturnsChangeNothing(lines: seq<string>, extra: seq<nat>, name: string,
      data: seq<string>, keep: Event -> bool)
    requires |lines| == |extra|
    ensures Delivered(Ended(lines, extra), name, data, keep) == Delivered(lines, name, data, keep)
    ensures (forall l :: l in lines ==> '\n' !in l) ==> forall l :: l in Ended(lines, extra) ==> '\n' !in l
    decreases |lines|
  {
    if lines != [] {
      hide TrimReturns, StripSpace, HasPrefix;
      ReturnsAreTrimmed(lines[0], extra[0]);
      var line := TrimReturns(lines[0]);
      var rest := Ended(lines[1..], extra[1..]);
      assert Ended(lines, extra)[0] == lines[0] + Returns(extra[0]) && Ended(lines, extra)[1..] == rest;
      if line == "" {
        ReturnsChangeNothing(lines[1..], extra[1..], "", [], keep);
      } else if HasPrefix(line, EVENT) {
        LongEnough(line, EVENT);
        ReturnsChangeNothing(lines[1..], extra[1..], StripSpace(line[|EVENT|..]), data, keep);
      } else if HasPrefix(line, DATA) {
        LongEnough(line, DATA);
        ReturnsChangeNothing(lines[1..], extra[1..], name, data + [StripSpace(line[|DATA|..])], keep);
      } else {
        ReturnsChangeNothing(lines[1..], extra[1..], name, data, keep);
      }
    }
  }

  /** Whatever events are framed, with lines ended either way, parsing gives them back up to where the handler stops. */
  lemma ParseUndoesFraming(events: seq<Event>, extra: seq<nat>, keep: Event -> bool)
    requires |extra| == |Frames(events)|
    requires forall e :: e in events ==> EventOk(e)
    ensures Delivered(Lines(Text(Ended(Frames(events), extra)), ""), "", [], keep) == Taken(events, keep)
  {
    FrameLinesOk(events);
    ReturnsChangeNothing(Frames(events), extra, "", [], keep);
    LinesUndoText(Ended(Frames(events), extra));
    FramesAreRead(events, keep);
  }
}
