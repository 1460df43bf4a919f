/** Recording one session's server-sent events from a byte stream that arrives in arbitrary pieces. */
module Capture {
  import opened Options

  const NL := '\n'

  /** Index of the first blank line at or after `from`: two newlines in a row. */
  function FirstBreak(s: string, from: nat): (r: Option<nat>)
    requires from <= |s|
    ensures r.Some? ==> from <= r.value && r.value + 2 <= |s|
    decreases |s| - from
  {
    if from + 2 > |s| then None
    else if s[from] == NL && s[from + 1] == NL then Some(from)
    else FirstBreak(s, from + 1)
  }

  lemma {:induction false} BreakStaysFirst(a: string, b: string, from: nat)
    requires from <= |a| && FirstBreak(a, from).Some?
    ensures FirstBreak(a + b, from) == FirstBreak(a, from)
    decreases |a| - from
  {
    if !(a[from] == NL && a[from + 1] == NL) { BreakStaysFirst(a, b, from + 1); }
  }

  datatype View = View(buf: string, pending: string, idle: bool)

  class SessionCapture {
    const matches: string -> bool      // the event belongs to the session
    const endsIt: string -> bool       // it says the session is idle
    var buf: string
    var pending: string
    var idleSeen: bool
    var idleCloses: nat                // how often the idle channel was closed

    constructor (matches: string -> bool, endsIt: string -> bool)
      ensures Valid() && Now() == View("", "", false) && this.matches == matches && this.endsIt == endsIt
    {
      this.matches, this.endsIt := matches, endsIt;
      buf, pending, idleSeen, idleCloses := "", "", false, 0;
    }

    function Now(): View
      reads this
    {
      View(buf, pending, idleSeen)
    }

    /** The channel was closed once if the session went idle, else never; no complete event is left waiting. */
    predicate Valid()
      reads this
    {
      idleCloses == (if idleSeen then 1 else 0) && Settled(Now())
    }

    method Write(p: string)
      requires Valid()
      modifies this
      ensures Valid() && Now() == Fed(matches, endsIt, old(Now()), p)
    {
      pending := pending + p;
      while !idleSeen
        invariant idleCloses == (if idleSeen then 1 else 0)
        invariant Drained(matches, endsIt, Now()) == Fed(matches, endsIt, old(Now()), p)
        decreases !idleSeen, |pending|
      {
        var at := FirstBreak(pending, 0);
        if at.None? { break; }
        var event := pending[..at.value];
        pending := pending[at.value + 2..];
        if matches(event) { buf := buf + event + "\n\n"; }
        if endsIt(event) {
          idleSeen := true;
          idleCloses := idleCloses + 1;
        }
      }
    }

    /** The same bytes in any other pieces would have left the same capture. */
    method WriteAll(pieces: seq<string>)
      requires Valid()
      modifies this
      ensures Valid() && Now() == Fed(matches, endsIt, old(Now()), Concat(pieces))
    {
      ghost var first := Now();
      FedInTwo(matches, endsIt, first, "", "");
      assert pieces[..0] == [];
      for i := 0 to |pieces|
        invariant Valid() && Now() == Fed(matches, endsIt, first, Concat(pieces[..i]))
      {
        assert pieces[..i + 1][..i] == pieces[..i];
        FedInTwo(matches, endsIt, first, Concat(pieces[..i]), pieces[i]);
        Write(pieces[i]);
      }
      assert pieces[..|pieces|] == pieces;
    }
  }

  function Concat(pieces: seq<string>): string {
    if pieces == [] then "" else Concat(pieces[..|pieces| - 1]) + pieces[|pieces| - 1]
  }

  predicate Settled(v: View) {
    v.idle || FirstBreak(v.pending, 0).None?
  }

  /** One complete event taken off `pending`. */
  function Taken(matches: string -> bool, endsIt: string -> bool, v: View): View
    requires !Settled(v)
  {
    var at := FirstBreak(v.pending, 0).value;
    var event := v.pending[..at];
    View(if matches(event) then v.buf + event + "\n\n" else v.buf, v.pending[at + 2..], endsIt(event))
  }

  function Drained(matches: string -> bool, endsIt: string -> bool, v: View): (r: View)
    ensures Settled(r)
    decreases !v.idle, |v.pending|
  {
    if Settled(v) then v else Drained(matches, endsIt, Taken(matches, endsIt, v))
  }

  function Fed(matches: string -> bool, endsIt: string -> bool, v: View, p: string): View {
    Drained(matches, endsIt, v.(pending := v.pending + p))
  }

  /** Bytes that come later do not change what happens to those that came first. */
  lemma {:induction false} DrainFirst(matches: string -> bool, endsIt: string -> bool, v: View, p: string)
    ensures Fed(matches, endsIt, Drained(matches, endsIt, v), p) == Fed(matches, endsIt, v, p)
    decreases !v.idle, |v.pending|
  {
    if !Settled(v) {
      var at := FirstBreak(v.pending, 0).value;
      BreakStaysFirst(v.pending, p, 0);
      var all := v.pending + p;
      assert all[..at] == v.pending[..at] && all[at + 2..] == v.pending[at + 2..] + p;
      var w := Taken(matches, endsIt, v);
      assert Taken(matches, endsIt, v.(pending := all)) == w.(pending := w.pending + p);
      DrainFirst(matches, endsIt, w, p);
    }
  }

  lemma FedInTwo(matches: string -> bool, endsIt: string -> bool, v: View, a: string, b: string)
    ensures Fed(matches, endsIt, Fed(matches, endsIt, v, a), b) == Fed(matches, endsIt, v, a + b)
    ensures Settled(v) ==> Fed(matches, endsIt, v, "") == v
  {
    DrainFirst(matches, endsIt, v.(pending := v.pending + a), b);
    assert v.pending + (a + b) == v.pending + a + b;
    assert v.pending + "" == v.pending;
  }

  // ----- against the events themselves -----

  predicate BlankLineAt(s: string, i: nat) {
    i + 2 <= |s| && s[i..i + 2] == "\n\n"
  }

  /** There is no blank line before `end`. */
  predicate Unbroken(s: string, end: nat) {
    forall i: nat :: i < end ==> !BlankLineAt(s, i)
  }

  /** An event's own bytes hold no blank line and do not end in a newline. */
  predicate EventOk(e: string) {
    Unbroken(e + "\n\n", |e|)
  }

  /** The first break is the first blank line, and there is none only where there is no blank line. */
  lemma {:induction false} BreakIsFirst(s: string, from: nat)
    requires from <= |s| && Unbroken(s, from)
    ensures
      var at := FirstBreak(s, from);
      if at.Some? then BlankLineAt(s, at.value) && Unbroken(s, at.value) else Unbroken(s, |s|)
    decreases |s| - from
  {
    if from + 2 <= |s| {
      assert s[from..from + 2] == [s[from], s[from + 1]];
      if !(s[from] == NL && s[from + 1] == NL) { BreakIsFirst(s, from + 1); }
    }
  }

  lemma EventBreaksAtEnd(e: string)
    requires EventOk(e)
    ensures FirstBreak(e + "\n\n", 0) == Some(|e|)
  {
    var s := e + "\n\n";
    BreakIsFirst(s, 0);
    assert BlankLineAt(s, |e|);
  }

  function Framed(events: seq<string>): string {
    if events == [] then "" else events[0] + "\n\n" + Framed(events[1..])
  }

  /** How many events are read: up to the one that ends the session. */
  function ReadCount(endsIt: string -> bool, events: seq<string>): (n: nat)
    ensures n <= |events|
  {
    if events == [] then 0 else if endsIt(events[0]) then 1 else 1 + ReadCount(endsIt, events[1..])
  }

  function Kept(matches: string -> bool, events: seq<string>): string {
    if events == [] then "" else (if matches(events[0]) then events[0] + "\n\n" else "") + Kept(matches, events[1..])
  }

  lemma EventIsTaken(matches: string -> bool, endsIt: string -> bool, e: string, more: string, buf: string)
    requires EventOk(e)
    ensures
      var kept := buf + if matches(e) then e + "\n\n" else "";
      Fed(matches, endsIt, View(buf, "", false), e + "\n\n" + more) ==
      if endsIt(e) then View(kept, more, true) else Fed(matches, endsIt, View(kept, "", false), more)
  {
    var framed := e + "\n\n";
    var all := framed + more;
    var v := View(buf, all, false);
    var kept := buf + if matches(e) then framed else "";
    EventBreaksAtEnd(e);
    BreakStaysFirst(framed, more, 0);
    assert all[..|e|] == e && all[|e| + 2..] == more;
    assert buf + e + "\n\n" == buf + framed && buf + "" == buf;
    assert Taken(matches, endsIt, v) == View(kept, more, endsIt(e));
    assert Drained(matches, endsIt, v) == Drained(matches, endsIt, View(kept, more, endsIt(e)));
    assert "" + all == all && "" + more == more;
  }

  lemma NothingToTake(matches: string -> bool, endsIt: string -> bool, rest: string, buf: string)
    requires Unbroken(rest, |rest|)
    ensures Fed(matches, endsIt, View(buf, "", false), rest) == View(buf, rest, false)
  {
    assert FirstBreak(rest, 0).None? by {
      hide FirstBreak;
      BreakIsFirst(rest, 0);
    }
    assert "" + rest == rest;
  }

  /** What is recorded: the session's events up to the idle one, framed as they came; the rest stays pending. */
  lemma {:induction false} CaptureKeepsEvents(matches: string -> bool, endsIt: string -> bool, events: seq<string>,
      rest: string, buf: string)
    requires forall e :: e in events ==> EventOk(e)
    requires Unbroken(rest, |rest|)
    ensures
      var n := ReadCount(endsIt, events);
      var idle := n > 0 && endsIt(events[n - 1]);
      Fed(matches, endsIt, View(buf, "", false), Framed(events) + rest) ==
      View(buf + Kept(matches, events[..n]), Framed(events[n..]) + rest, idle)
    decreases |events|
  {
    hide Fed, EventOk, Unbroken, FirstBreak;
    if events == [] {
      NothingToTake(matches, endsIt, rest, buf);
      assert Framed(events) + rest == rest && buf + Kept(matches, []) == buf;
    } else {
      var e := events[0];
      var more := Framed(events[1..]) + rest;
      var kept := if matches(e) then e + "\n\n" else "";
      var n := ReadCount(endsIt, events);
      assert e in events;
      assert Framed(events) + rest == e + "\n\n" + more;
      EventIsTaken(matches, endsIt, e, more, buf);
      assert events[..n][0] == e && events[..n][1..] == events[1..][..n - 1];
      assert events[n..] == events[1..][n - 1..];
      var k := Kept(matches, events[1..][..n - 1]);
      assert buf + kept + k == buf + (kept + k);
      assert Kept(matches, events[..n]) == kept + k;
      if !endsIt(e) {
        CaptureKeepsEvents(matches, endsIt, events[1..], rest, buf + kept);
        assert n > 1 ==> events[n - 1] == events[1..][n - 2];
      } else {
        assert events[1..][..0] == [];
      }
    }
  }
}
