/** Following one OpenCode session's event stream: parts of text, whose message they belong to, and usage. */
module OpenCode {
  import opened Options
  import opened Texts
  import opened Usages

  /** Part, message and session ids; 0 is the empty id. */
  type Id = nat

  datatype Role = User | Assistant | OtherRole

  datatype Event =
    | Delta(part: Id, text: string)                                    // message.part.delta of a text field
    | PartText(part: Id, message: Id, text: string, final: bool)       // message.part.updated, a text part
    | StepFinish(message: Id, tokens: Option<Usage>)                   // message.part.updated, a step's end
    | Message(message: Id, role: Role, tokens: Option<Usage>)          // message.updated
    | Idle
    | Foreign                                                          // malformed, or of another session

  datatype Part = Part(text: string, final: bool, message: Id, emitted: string)

  datatype Chunk = Separator | Text(part: Id, message: Id, text: string)

  /** What the listener got for one part. */
  function Output(chunks: seq<Chunk>, part: Id): string {
    if chunks == [] then ""
    else Output(chunks[..|chunks| - 1], part) + PieceOf(chunks[|chunks| - 1], part)
  }

  function PieceOf(c: Chunk, part: Id): string {
    if c.Text? && c.part == part then c.text else ""
  }

  lemma OutputPush(chunks: seq<Chunk>, c: Chunk, part: Id)
    ensures Output(chunks + [c], part) == Output(chunks, part) + PieceOf(c, part)
  {
    assert (chunks + [c])[..|chunks|] == chunks;
  }

  // ----- what a history of events says, whatever order the markers came in -----

  function TextOf(h: seq<Event>, part: Id): string {
    if h == [] then ""
    else
      var before := TextOf(h[..|h| - 1], part);
      match h[|h| - 1]
      case Delta(q, text) => if q == part && q != 0 then before + text else before
      case PartText(q, _, text, _) => if q == part && q != 0 then text else before
      case _ => before
  }

  function MessageOf(h: seq<Event>, part: Id): Id {
    if h == [] then 0
    else
      var before := MessageOf(h[..|h| - 1], part);
      match h[|h| - 1]
      case PartText(q, message, _, _) => if q == part && q != 0 && message != 0 then message else before
      case _ => before
  }

  function Marked(h: seq<Event>, role: Role): set<Id> {
    if h == [] then {}
    else
      var before := Marked(h[..|h| - 1], role);
      match h[|h| - 1]
      case Message(message, r, _) => if r == role then before + {message} else before
      case _ => before
  }

  /** The listener's due for a part: its text, once its message is known to be the assistant's. */
  function Due(h: seq<Event>, part: Id): string {
    if MessageOf(h, part) != 0 && MessageOf(h, part) in Marked(h, Assistant) then TextOf(h, part) else ""
  }

  predicate IsPrefix(a: string, b: string) {
    |a| <= |b| && b[..|a|] == a
  }

  /** Texts only grow, a part stays with its message, a message keeps its role, and a user message has an id. */
  predicate Regular(h: seq<Event>, e: Event) {
    match e
    case PartText(p, message, text, _) =>
      p != 0 ==> IsPrefix(TextOf(h, p), text) && (message == 0 || MessageOf(h, p) == 0 || message == MessageOf(h, p))
    case Message(message, role, _) =>
      (role == User ==> message != 0 && message !in Marked(h, Assistant))
          && (role == Assistant ==> message !in Marked(h, User))
    case _ => true
  }

  predicate AllRegular(h: seq<Event>) {
    forall n :: 0 <= n < |h| ==> Regular(h[..n], h[n])
  }

  /** The latest usage each message reported. */
  function Reports(h: seq<Event>): map<Id, Usage> {
    if h == [] then map[]
    else
      var before := Reports(h[..|h| - 1]);
      match h[|h| - 1]
      case StepFinish(message, tokens) => if message != 0 && tokens.Some? then before[message := tokens.value]
          else before
      case Message(message, role, tokens) => if role == Assistant && tokens.Some? then before[message := tokens.value]
          else before
      case _ => before
  }

  /** What one more event changes. */
  lemma Push(h: seq<Event>, e: Event)
    ensures forall p :: TextOf(h + [e], p) ==
              (if e.Delta? && e.part == p && p != 0 then TextOf(h, p) + e.text
               else if e.PartText? && e.part == p && p != 0 then e.text
               else TextOf(h, p))
    ensures forall p :: MessageOf(h + [e], p) == if e.PartText? && e.part == p && p != 0 && e.message != 0
              then e.message else MessageOf(h, p)
    ensures forall role :: Marked(h + [e], role) == if e.Message? && e.role == role then Marked(h, role) + {e.message}
              else Marked(h, role)
    ensures Reports(h + [e]) ==
            (if e.StepFinish? && e.message != 0 && e.tokens.Some? then Reports(h)[e.message := e.tokens.value]
             else if e.Message? && e.role == Assistant && e.tokens.Some? then Reports(h)[e.message := e.tokens.value]
             else Reports(h))
  {
    assert (h + [e])[..|h|] == h;
  }

  // ----- chunks -----

  /** What the listener has not got of a part; the whole text when it no longer starts with what was given. */
  function News(part: Part): string {
    if IsPrefix(part.emitted, part.text) then part.text[|part.emitted|..] else part.text
  }

  predicate Flushes(part: Part, message: Id, users: set<Id>, assistants: set<Id>) {
    part.message == message && message != 0 && message !in users && message in assistants
  }

  function Flushed(part: Part, message: Id, users: set<Id>, assistants: set<Id>): Part {
    if Flushes(part, message, users, assistants) then part.(emitted := part.text) else part
  }

  /** What flushing a message's parts, those among `order`, adds for one part. */
  function Released(listening: bool, parts: map<Id, Part>, order: seq<Id>, message: Id, users: set<Id>,
      assistants: set<Id>, p: Id): string {
    if listening && p in parts && p in order && Flushes(parts[p], message, users, assistants) then News(parts[p])
        else ""
  }

  function AllFlushed(parts: map<Id, Part>, order: seq<Id>, message: Id, users: set<Id>, assistants: set<Id>): map<Id,
      Part> {
    map p | p in parts :: if p in order then Flushed(parts[p], message, users, assistants) else parts[p]
  }

  /** What flushing part `p` alone adds for part `q`. */
  function ReleasedBy(listening: bool, parts: map<Id, Part>, message: Id, users: set<Id>, assistants: set<Id>, p: Id,
      q: Id): string {
    if listening && q == p && p in parts && Flushes(parts[p], message, users, assistants) then News(parts[p]) else ""
  }

  lemma NothingFlushed(listening: bool, parts: map<Id, Part>, message: Id, users: set<Id>, assistants: set<Id>)
    ensures AllFlushed(parts, [], message, users, assistants) == parts
    ensures forall q :: Released(listening, parts, [], message, users, assistants, q) == ""
  {
  }

  /** Flushing one more part of the order; a part met twice has nothing new the second time. */
  lemma FlushStep(listening: bool, parts: map<Id, Part>, order: seq<Id>, message: Id, users: set<Id>,
      assistants: set<Id>, p: Id)
    ensures
      var now := AllFlushed(parts, order, message, users, assistants);
      && AllFlushed(parts, order + [p], message, users, assistants) == (if p in now
           then now[p := Flushed(now[p], message, users, assistants)] else now)
      && forall q :: Released(listening, parts, order + [p], message, users, assistants, q) ==
                       Released(listening, parts, order, message, users, assistants, q)
                           + ReleasedBy(listening, now, message, users, assistants, p, q)
  {
  }

  /** Only chunks of assistant messages were added, none of a message known to be the user's. */
  predicate NewFrom(before: seq<Chunk>, after: seq<Chunk>, users: set<Id>, assistants: set<Id>) {
    && |before| <= |after| && after[..|before|] == before
    && forall k :: |before| <= k < |after| && after[k].Text? ==>
         after[k].message in assistants && after[k].message !in users
  }

  lemma NewFromNothing(chunks: seq<Chunk>, users: set<Id>, assistants: set<Id>)
    ensures NewFrom(chunks, chunks, users, assistants)
  {
  }

  lemma NewFromTransitive(a: seq<Chunk>, b: seq<Chunk>, c: seq<Chunk>, users: set<Id>, assistants: set<Id>)
    requires NewFrom(a, b, users, assistants) && NewFrom(b, c, users, assistants)
    ensures NewFrom(a, c, users, assistants)
  {
    assert c[..|b|][..|a|] == c[..|a|];
    forall k | |a| <= k < |c| && c[k].Text?
      ensures c[k].message in assistants && c[k].message !in users
    {
      if k < |b| { assert c[..|b|][k] == b[k]; }
    }
  }

  /** Separators stand between texts, one at a time. */
  predicate SeparatorsSeparate(chunks: seq<Chunk>) {
    && (chunks != [] ==> chunks[|chunks| - 1].Text?)
    && forall k :: 0 <= k < |chunks| && chunks[k].Separator? ==> 0 < k && chunks[k - 1].Text?
  }

  lemma NotBefore(order: seq<Id>, i: nat)
    requires NoneTwice(order) && i < |order|
    ensures order[i] !in order[..i]
  {
  }

  /** A text for the listener, with a separator before it after tool activity. */
  function Given(chunks: seq<Chunk>, separate: bool, c: Chunk): seq<Chunk> {
    (if separate && chunks != [] then chunks + [Separator] else chunks) + [c]
  }

  lemma GivenAddsPiece(chunks: seq<Chunk>, separate: bool, c: Chunk, users: set<Id>, assistants: set<Id>)
    requires SeparatorsSeparate(chunks) && c.Text? && c.message in assistants && c.message !in users
    ensures forall q :: Output(Given(chunks, separate, c), q) == Output(chunks, q) + PieceOf(c, q)
    ensures NewFrom(chunks, Given(chunks, separate, c), users, assistants)
    ensures SeparatorsSeparate(Given(chunks, separate, c))
  {
    forall q
      ensures Output(Given(chunks, separate, c), q) == Output(chunks, q) + PieceOf(c, q)
    {
      GivenPiece(chunks, separate, c, q);
    }
    hide Output;
  }

  lemma GivenPiece(chunks: seq<Chunk>, separate: bool, c: Chunk, q: Id)
    ensures Output(Given(chunks, separate, c), q) == Output(chunks, q) + PieceOf(c, q)
  {
    hide Output;
    var middle := if separate && chunks != [] then chunks + [Separator] else chunks;
    OutputPush(middle, c, q);
    OutputPush(chunks, Separator, q);
    assert Output(chunks, q) + "" == Output(chunks, q);
  }

  // ----- one event at a time -----

  /** What is held between events: the parts, those filtered out, and the messages of known role. */
  datatype View = View(parts: map<Id, Part>, filtered: set<Id>, users: set<Id>, assistants: set<Id>)

  const NEW_PART := Part("", false, 0, "")
  const START := View(map[], {}, {}, {})

  function PartIn(v: View, p: Id): Part { if p in v.parts then v.parts[p] else NEW_PART }

  predicate Emits(part: Part, users: set<Id>, assistants: set<Id>) {
    Flushes(part, part.message, users, assistants)
  }

  /** The part as a text event leaves it, before anything is given out; None when the event does not concern one. */
  function Written(v: View, e: Event): Option<(Id, Part)> {
    match e
    case Delta(p, text) =>
      if p == 0 || text == "" || p in v.filtered then None
          else Some((p, PartIn(v, p).(text := PartIn(v, p).text + text)))
    case PartText(p, message, text, final) =>
      if p == 0 then None
      else
        var part := PartIn(v, p).(text := text, final := final);
        Some((p, if message != 0 then part.(message := message) else part))
    case _ => None
  }

  /** A text event whose part belongs to a user's message. */
  predicate Rejects(v: View, e: Event, part: Part) {
    e.PartText? && part.message != 0 && part.message in v.users
  }

  function Next(v: View, e: Event): View {
    match e
    case Message(message, User, _) =>
      View(map p | p in v.parts && v.parts[p].message != message :: v.parts[p],
           v.filtered + (set p | p in v.parts && v.parts[p].message == message), v.users + {message}, v.assistants)
    case Message(message, Assistant, _) =>
      v.(assistants := v.assistants + {message},
         parts := map p | p in v.parts :: Flushed(v.parts[p], message, v.users, v.assistants + {message}))
    case _ =>
      match Written(v, e)
      case None => v
      case Some((p, part)) =>
        if Rejects(v, e, part) then v.(parts := v.parts - {p}, filtered := v.filtered + {p})
        else v.(parts := v.parts[p := Flushed(part, part.message, v.users, v.assistants)])
  }

  /** What the event adds to what a listener has of part `q`. */
  function Adds(v: View, e: Event, q: Id): string {
    match e
    case Message(message, Assistant, _) =>
      if q in v.parts && Flushes(v.parts[q], message, v.users, v.assistants + {message}) then News(v.parts[q]) else ""
    case Message(_, _, _) => ""
    case _ =>
      match Written(v, e)
      case None => ""
      case Some((p, part)) => if q == p && !Rejects(v, e, part) && Emits(part, v.users, v.assistants) then News(part)
          else ""
  }

  /** What is held after a history, and what a listener got of part `q`. */
  function RunView(h: seq<Event>): View {
    if h == [] then START else Next(RunView(h[..|h| - 1]), h[|h| - 1])
  }

  function OutOf(h: seq<Event>, q: Id): string {
    if h == [] then "" else OutOf(h[..|h| - 1], q) + Adds(RunView(h[..|h| - 1]), h[|h| - 1], q)
  }

  lemma RunPush(h: seq<Event>, e: Event)
    ensures RunView(h + [e]) == Next(RunView(h), e)
    ensures forall q :: OutOf(h + [e], q) == OutOf(h, q) + Adds(RunView(h), e, q)
  {
    assert (h + [e])[..|h|] == h;
  }

  /** A text event leaves every other part alone. */
  lemma NextElsewhere(v: View, e: Event, p: Id)
    requires !e.Message? && (Written(v, e).Some? ==> Written(v, e).value.0 != p)
    ensures var n := Next(v, e);
            && (p in n.parts <==> p in v.parts) && (p in v.parts ==> n.parts[p] == v.parts[p])
            && (p in n.filtered <==> p in v.filtered) && n.users == v.users && n.assistants == v.assistants
                 && Adds(v, e, p) == ""
  {
  }

  function TextIn(parts: map<Id, Part>, p: Id): string { if p in parts then parts[p].text else "" }
  function MessageIn(parts: map<Id, Part>, p: Id): Id { if p in parts then parts[p].message else 0 }
  function EmittedIn(parts: map<Id, Part>, p: Id): string { if p in parts then parts[p].emitted else "" }

  // ----- when the chunks of a part add up to its emitted text -----

  /** The event forgets part `p`. */
  predicate Drops(v: View, e: Event, p: Id) {
    p in v.parts && p !in Next(v, e).parts
  }

  /** Text of `p` was given out before, and the event forgets the part or gives out a text that does not extend it. */
  predicate Breaks(v: View, e: Event, p: Id) {
    && EmittedIn(v.parts, p) != ""
    && (|| Drops(v, e, p)
        || !IsPrefix(EmittedIn(v.parts, p), EmittedIn(Next(v, e).parts, p)))
  }

  /** One event, for one part: nothing is given out, or what is new of its text, which is then what was given. */
  lemma OneStep(v: View, e: Event, p: Id)
    ensures
      var was, now := EmittedIn(v.parts, p), EmittedIn(Next(v, e).parts, p);
      || (Adds(v, e, p) == "" && (now == was || (now == "" && Drops(v, e, p))))
      || (Adds(v, e, p) == if IsPrefix(was, now) then now[|was|..] else now)
  {
  }

  lemma AccountStep(out: string, was: string, now: string, adds: string, dropped: bool)
    requires |out| >= |was|
    requires (adds == "" && (now == was || (now == "" && dropped))) || adds == if IsPrefix(was, now) then now[|was|..]
              else now
    ensures var breaks := was != "" && (dropped || !IsPrefix(was, now));
            && |out + adds| >= |now| && (|out| > |was| ==> |out + adds| > |now|)
            && (out == was && !breaks ==> out + adds == now)
            && (breaks && (dropped ==> now == "") ==> |out + adds| > |now|)
  {
  }

  ghost predicate NeverBroken(h: seq<Event>, p: Id) {
    forall n :: 0 <= n < |h| ==> !Breaks(RunView(h[..n]), h[n], p)
  }

  lemma NeverBrokenPush(h: seq<Event>, e: Event, p: Id)
    ensures NeverBroken(h + [e], p) <==> NeverBroken(h, p) && !Breaks(RunView(h), e, p)
  {
    var t := h + [e];
    assert t[..|h|] == h && t[|h|] == e;
    assert forall n :: 0 <= n < |h| ==> t[..n] == h[..n] && t[n] == h[n];
    if NeverBroken(t, p) {
      forall n | 0 <= n < |h| ensures !Breaks(RunView(h[..n]), h[n], p) { assert !Breaks(RunView(t[..n]), t[n], p); }
      assert !Breaks(RunView(t[..|h|]), t[|h|], p);
    }
  }

  /** More is given out than is remembered, by as much as breaks have cost. */
  lemma {:induction false} GivenIsRemembered(h: seq<Event>, p: Id)
    ensures |OutOf(h, p)| >= |EmittedIn(RunView(h).parts, p)|
    ensures NeverBroken(h, p) ==> OutOf(h, p) == EmittedIn(RunView(h).parts, p)
    ensures !NeverBroken(h, p) ==> |OutOf(h, p)| > |EmittedIn(RunView(h).parts, p)|
    decreases |h|
  {
    if h != [] {
      hide Next, Adds, IsPrefix, NeverBroken, RunView, OutOf;
      var before, e := h[..|h| - 1], h[|h| - 1];
      assert h == before + [e];
      GivenIsRemembered(before, p);
      RunPush(before, e);
      NeverBrokenPush(before, e, p);
      var v := RunView(before);
      OneStep(v, e, p);
      AccountStep(OutOf(before, p), EmittedIn(v.parts, p), EmittedIn(Next(v, e).parts, p), Adds(v, e, p),
          Drops(v, e, p));
    } else {
      assert NeverBroken(h, p);
    }
  }

  /**
   * Whatever the stream, a part's chunks add up to the text remembered as given
   * out if and only if no event forgot the part, or gave out a text that did
   * not extend it, after something of it had been given out.
   */
  lemma ChunksAddUpIff(h: seq<Event>, p: Id)
    ensures OutOf(h, p) == EmittedIn(RunView(h).parts, p) <==> NeverBroken(h, p)
  {
    GivenIsRemembered(h, p);
  }

  /** A part's text is only ever replaced by one that starts with it. */
  predicate Grows(h: seq<Event>, e: Event) {
    e.PartText? && e.part != 0 ==> IsPrefix(TextOf(h, e.part), e.text)
  }

  ghost predicate GrowsOnly(h: seq<Event>) {
    forall n :: 0 <= n < |h| ==> Grows(h[..n], h[n])
  }

  lemma GrowsOnlyPush(h: seq<Event>, e: Event)
    ensures GrowsOnly(h + [e]) ==> GrowsOnly(h) && Grows(h, e)
  {
    if GrowsOnly(h + [e]) {
      forall n | 0 <= n < |h|
        ensures Grows(h[..n], h[n])
      {
        assert (h + [e])[..n] == h[..n];
      }
      assert (h + [e])[..|h|] == h;
    }
  }

  /**
   * Where texts only grow, what is held of a part is a beginning of its text,
   * all of it unless the part is filtered, and what was given out a beginning of
   * that.
   */
  predicate HeldIsBeginning(v: View, h: seq<Event>, p: Id) {
    && IsPrefix(EmittedIn(v.parts, p), TextIn(v.parts, p)) && IsPrefix(TextIn(v.parts, p), TextOf(h, p))
    && (p !in v.filtered ==> TextIn(v.parts, p) == TextOf(h, p))
  }

  lemma WrittenIsBeginning(v: View, h: seq<Event>, e: Event, p: Id)
    requires HeldIsBeginning(v, h, p) && Grows(h, e) && Written(v, e).Some? && Written(v, e).value.0 == p
    ensures var part := Written(v, e).value.1; IsPrefix(part.emitted, part.text) && part.text == TextOf(h + [e], p)
  {
    hide TextOf;
    Push(h, e);
  }

  lemma BeginningWritten(v: View, h: seq<Event>, e: Event, p: Id)
    requires HeldIsBeginning(v, h, p) && Grows(h, e) && Written(v, e).Some? && Written(v, e).value.0 == p
    ensures HeldIsBeginning(Next(v, e), h + [e], p) && (Breaks(v, e, p) ==> Drops(v, e, p))
  {
    hide TextOf, Grows;
    WrittenIsBeginning(v, h, e, p);
    var part := Written(v, e).value.1;
    assert part.emitted == EmittedIn(v.parts, p) && !e.Message?;
    hide Written;
  }

  lemma BeginningMarked(v: View, h: seq<Event>, e: Event, p: Id)
    requires HeldIsBeginning(v, h, p) && e.Message?
    ensures HeldIsBeginning(Next(v, e), h + [e], p) && (Breaks(v, e, p) ==> Drops(v, e, p))
  {
    hide TextOf;
    Push(h, e);
  }

  lemma BeginningStays(v: View, h: seq<Event>, e: Event, p: Id)
    requires HeldIsBeginning(v, h, p) && Grows(h, e)
    ensures HeldIsBeginning(Next(v, e), h + [e], p) && (Breaks(v, e, p) ==> Drops(v, e, p))
  {
    if Written(v, e).Some? && Written(v, e).value.0 == p {
      hide HeldIsBeginning, Next, Drops, Breaks;
      BeginningWritten(v, h, e, p);
    } else if e.Message? {
      hide HeldIsBeginning, Next, Drops, Breaks;
      BeginningMarked(v, h, e, p);
    } else {
      hide TextOf, Next, Grows;
      Push(h, e);
      NextElsewhere(v, e, p);
    }
  }

  lemma {:induction false} HeldAreBeginnings(h: seq<Event>, p: Id)
    requires GrowsOnly(h)
    ensures HeldIsBeginning(RunView(h), h, p)
    decreases |h|
  {
    if h != [] {
      hide Next, TextOf, Grows, HeldIsBeginning;
      var before, e := h[..|h| - 1], h[|h| - 1];
      assert h == before + [e];
      GrowsOnlyPush(before, e);
      HeldAreBeginnings(before, p);
      RunPush(before, e);
      BeginningStays(RunView(before), before, e, p);
    } else {
      assert HeldIsBeginning(START, [], p);
    }
  }

  /** Some event forgets part `p` after text of it had been given out. */
  ghost predicate DroppedAfterGiven(h: seq<Event>, p: Id) {
    exists n :: 0 <= n < |h| && EmittedIn(RunView(h[..n]).parts, p) != "" && Drops(RunView(h[..n]), h[n], p)
  }

  /**
   * Where texts only grow, a part's chunks add up to its emitted text exactly when
   * it is not dropped after it was given out.
   */
  lemma GrowingAddsUpIff(h: seq<Event>, p: Id)
    requires GrowsOnly(h)
    ensures OutOf(h, p) == EmittedIn(RunView(h).parts, p) <==> !DroppedAfterGiven(h, p)
  {
    hide Next, TextOf, Grows, Drops;
    hide RunView, OutOf, Breaks;
    ChunksAddUpIff(h, p);
    forall n | 0 <= n < |h|
      ensures Breaks(RunView(h[..n]), h[n], p) <==>
                EmittedIn(RunView(h[..n]).parts, p) != "" && Drops(RunView(h[..n]), h[n], p)
    {
      BreakIsDrop(h, n, p);
    }
  }

  lemma BreakIsDrop(h: seq<Event>, n: nat, p: Id)
    requires GrowsOnly(h) && n < |h|
    ensures Breaks(RunView(h[..n]), h[n], p) <==>
              EmittedIn(RunView(h[..n]).parts, p) != "" && Drops(RunView(h[..n]), h[n], p)
  {
    hide Next, TextOf, Grows, RunView, GrowsOnly;
    GrowsOnlyPrefix(h, n);
    HeldAreBeginnings(h[..n], p);
    BeginningStays(RunView(h[..n]), h[..n], h[n], p);
  }

  lemma GrowsOnlyPrefix(h: seq<Event>, n: nat)
    requires GrowsOnly(h) && n < |h|
    ensures GrowsOnly(h[..n]) && Grows(h[..n], h[n])
  {
    assert forall m :: 0 <= m < n ==> h[..n][..m] == h[..m];
  }

  // ----- when a listener gets its due -----

  /** A part that is not of a user message is held as the history tells it. */
  ghost predicate HeldAsTold(v: View, h: seq<Event>, p: Id) {
    && (MessageOf(h, p) !in v.users ==>
          TextIn(v.parts, p) == TextOf(h, p) && MessageIn(v.parts, p) == MessageOf(h, p) && p !in v.filtered)
    && (p in v.parts ==>
         (v.parts[p].message == 0 || v.parts[p].message == MessageOf(h, p)) && v.parts[p].message !in v.users)
    && (p in v.parts ==> EmittedIn(v.parts, p) == Due(h, p))
  }

  ghost predicate Follows(v: View, h: seq<Event>) {
    && v.users == Marked(h, User) && v.assistants == Marked(h, Assistant)
    && v.users !! v.assistants && 0 !in v.users
    && forall p :: HeldAsTold(v, h, p)
  }

  lemma DueMark(v: View, h: seq<Event>, e: Event, p: Id)
    requires Follows(v, h) && Regular(h, e) && e.Message?
    ensures HeldAsTold(Next(v, e), h + [e], p) && Due(h, p) + Adds(v, e, p) == Due(h + [e], p)
  {
    hide TextOf, MessageOf, Marked, News;
    Push(h, e);
    assert HeldAsTold(v, h, p);
    if p in v.parts { FlushGivesAll(v.parts[p], v.parts[p].text); }
  }

  /** The part as written, against the longer history. */
  ghost predicate WrittenAsTold(v: View, h: seq<Event>, e: Event, p: Id, part: Part) {
    var h' := h + [e];
    && part.emitted == EmittedIn(v.parts, p) && (part.message == 0 || part.message == MessageOf(h', p))
    && (MessageOf(h', p) !in v.users ==> part.text == TextOf(h', p) && part.message == MessageOf(h', p))
    && (MessageOf(h, p) == 0 || MessageOf(h, p) == MessageOf(h', p)) && IsPrefix(TextOf(h, p), TextOf(h', p))
    && Marked(h', User) == v.users && Marked(h', Assistant) == v.assistants
    && (Rejects(v, e, part) <==> part.message in v.users)
  }

  lemma WritesAsTold(v: View, h: seq<Event>, e: Event, p: Id)
    requires Follows(v, h) && Regular(h, e) && Written(v, e).Some? && Written(v, e).value.0 == p
    ensures WrittenAsTold(v, h, e, p, Written(v, e).value.1)
  {
    hide TextOf, MessageOf, Marked, Due;
    Push(h, e);
    assert HeldAsTold(v, h, p);
    if e.Delta? { PrefixOfSum(TextOf(h, p), e.text); }
  }

  lemma PrefixOfSum(a: string, b: string)
    ensures IsPrefix(a, a + b)
  {
  }

  lemma NewsCompletes(part: Part)
    ensures IsPrefix(part.emitted, part.text) ==> part.emitted + News(part) == part.text
  {
  }

  lemma DueText(v: View, h: seq<Event>, e: Event, p: Id)
    requires Follows(v, h) && Regular(h, e) && Written(v, e).Some? && Written(v, e).value.0 == p
    ensures HeldAsTold(Next(v, e), h + [e], p) && Due(h, p) + Adds(v, e, p) == Due(h + [e], p)
  {
    hide TextOf, MessageOf, Marked, Regular, Rejects;
    WritesAsTold(v, h, e, p);
    assert HeldAsTold(v, h, p);
    var part := Written(v, e).value.1;
    assert !e.Message?;
    hide Written;
    NewsCompletes(part);
  }

  lemma PushAt(h: seq<Event>, e: Event, p: Id)
    requires !e.Message?
    ensures TextOf(h + [e], p) ==
              (if e.Delta? && e.part == p && p != 0 then TextOf(h, p) + e.text
               else if e.PartText? && e.part == p && p != 0 then e.text
               else TextOf(h, p))
    ensures MessageOf(h + [e], p)
            == if e.PartText? && e.part == p && p != 0 && e.message != 0 then e.message else MessageOf(h, p)
    ensures forall role :: Marked(h + [e], role) == Marked(h, role)
  {
    Push(h, e);
  }

  lemma DueElse(v: View, h: seq<Event>, e: Event, p: Id)
    requires Follows(v, h) && !e.Message? && (Written(v, e).Some? ==> Written(v, e).value.0 != p)
    ensures HeldAsTold(Next(v, e), h + [e], p) && Due(h, p) + Adds(v, e, p) == Due(h + [e], p)
  {
    hide TextOf, MessageOf, Marked, Next, Adds;
    assert HeldAsTold(v, h, p) && v.users == Marked(h, User) && v.assistants == Marked(h, Assistant);
    assert v.users !! v.assistants && 0 !in v.users;
    hide Follows;
    PushAt(h, e, p);
    NextElsewhere(v, e, p);
    assert TextOf(h, p) + "" == TextOf(h, p);
  }

  /** One regular event, for one part: the listener gets what is newly due. */
  lemma DueStep(v: View, h: seq<Event>, e: Event, p: Id)
    requires Follows(v, h) && Regular(h, e)
    ensures HeldAsTold(Next(v, e), h + [e], p)
    ensures Due(h, p) + Adds(v, e, p) == Due(h + [e], p)
  {
    hide Follows, HeldAsTold, Next, Adds, Due, Regular, Written;
    if e.Message? {
      DueMark(v, h, e, p);
    } else if Written(v, e).Some? && Written(v, e).value.0 == p {
      DueText(v, h, e, p);
    } else {
      DueElse(v, h, e, p);
    }
  }

  lemma FlushGivesAll(part: Part, text: string)
    requires part.text == text && (part.emitted == "" || part.emitted == text)
    ensures part.emitted + News(part) == text
  {
  }

  lemma FollowsStep(v: View, h: seq<Event>, e: Event)
    requires Follows(v, h) && Regular(h, e)
    ensures Follows(Next(v, e), h + [e])
  {
    hide TextOf, MessageOf, Marked, HeldAsTold, Due;
    Push(h, e);
    forall p
      ensures HeldAsTold(Next(v, e), h + [e], p)
    {
      DueStep(v, h, e, p);
    }
  }

  /** In a regular stream the listener has been given exactly its due of every part. */
  lemma {:induction false} RegularGivesDue(h: seq<Event>, p: Id)
    requires AllRegular(h)
    ensures Follows(RunView(h), h) && OutOf(h, p) == Due(h, p)
    decreases |h|
  {
    if h == [] {
      assert forall q :: HeldAsTold(START, [], q);
    } else {
      hide Next, Adds, TextOf, MessageOf, Marked, Due, Follows, Regular;
      var before, e := h[..|h| - 1], h[|h| - 1];
      assert h == before + [e];
      AllRegularPush(before, e);
      RegularGivesDue(before, p);
      RunPush(before, e);
      FollowsStep(RunView(before), before, e);
      DueStep(RunView(before), before, e, p);
    }
  }

  // ----- the last text shown -----

  /** A part as it is when its text is passed on, whether or not anyone listens. */
  datatype Showing = Showing(part: Id, message: Id, text: string, final: bool, news: string)

  function AsShown(p: Id, part: Part): Showing { Showing(p, part.message, part.text, part.final, News(part)) }

  /** The parts of a message that a flush passes on, in order of arrival. */
  function Showings(parts: map<Id, Part>, order: seq<Id>, message: Id, users: set<Id>,
      assistants: set<Id>): seq<Showing> {
    if order == [] then []
    else
      Showings(parts, order[..|order| - 1], message, users, assistants)
      + ShowingsBy(parts, message, users, assistants, order[|order| - 1])
  }

  function ShowingsBy(parts: map<Id, Part>, message: Id, users: set<Id>, assistants: set<Id>, p: Id): seq<Showing> {
    if p in parts && Flushes(parts[p], message, users, assistants) then [AsShown(p, parts[p])] else []
  }

  lemma ShowingsPush(parts: map<Id, Part>, order: seq<Id>, message: Id, users: set<Id>, assistants: set<Id>, p: Id)
    ensures Showings(parts, order + [p], message, users, assistants)
            == Showings(parts, order, message, users, assistants) + ShowingsBy(parts, message, users, assistants, p)
    // Having flushed others before makes no difference.
    ensures p !in order ==>
              ShowingsBy(AllFlushed(parts, order, message, users, assistants), message, users, assistants, p)
              == ShowingsBy(parts, message, users, assistants, p)
  {
    assert (order + [p])[..|order|] == order;
  }

  /** What one event passes on. */
  function ShownBy(v: View, order: seq<Id>, e: Event): seq<Showing> {
    match e
    case Message(message, Assistant, _) => Showings(v.parts, order, message, v.users, v.assistants + {message})
    case Message(_, _, _) => []
    case _ =>
      match Written(v, e)
      case None => []
      case Some((p, part)) => if !Rejects(v, e, part) && Emits(part, v.users, v.assistants) then [AsShown(p, part)]
          else []
  }

  /** The parts in order of arrival; one that was forgotten and comes again keeps its place. */
  function Arrivals(v: View, order: seq<Id>, e: Event): seq<Id> {
    match Written(v, e)
    case Some((p, _)) => if p in order then order else order + [p]
    case None => order
  }

  function OrderOf(h: seq<Event>): seq<Id> {
    if h == [] then [] else Arrivals(RunView(h[..|h| - 1]), OrderOf(h[..|h| - 1]), h[|h| - 1])
  }

  /** The texts a listener is given of what is passed on: what is new in each part. */
  function TextsOf(shown: seq<Showing>): seq<Chunk> {
    if shown == [] then []
    else
      var s := shown[|shown| - 1];
      TextsOf(shown[..|shown| - 1]) + if s.news == "" then [] else [Text(s.part, s.message, s.news)]
  }

  /** With a separator before them after tool activity, unless they are the first. */
  function Added(chunks: seq<Chunk>, tool: bool, shown: seq<Showing>): seq<Chunk> {
    if TextsOf(shown) == [] then [] else (if tool && chunks != [] then [Separator] else []) + TextsOf(shown)
  }

  predicate StillTool(tool: bool, shown: seq<Showing>) { tool && TextsOf(shown) == [] }

  lemma {:induction false} TextsOfBoth(a: seq<Showing>, b: seq<Showing>)
    ensures TextsOf(a + b) == TextsOf(a) + TextsOf(b)
    decreases |b|
  {
    if b == [] {
      assert a + b == a;
    } else {
      assert (a + b)[..|a + b| - 1] == a + b[..|b| - 1];
      TextsOfBoth(a, b[..|b| - 1]);
    }
  }

  lemma AddedBoth(chunks: seq<Chunk>, tool: bool, a: seq<Showing>, b: seq<Showing>)
    ensures Added(chunks, tool, a + b)
            == Added(chunks, tool, a) + Added(chunks + Added(chunks, tool, a), StillTool(tool, a), b)
    ensures StillTool(StillTool(tool, a), b) == StillTool(tool, a + b)
  {
    hide TextsOf;
    TextsOfBoth(a, b);
  }

  lemma PassOne(chunks: seq<Chunk>, tool: bool, s: Showing)
    ensures Added(chunks, tool, [s])
            == if s.news == "" then []
                else (if tool && chunks != [] then [Separator] else []) + [Text(s.part, s.message, s.news)]
    ensures StillTool(tool, [s]) == (tool && s.news == "")
  {
    assert TextsOf([s]) == if s.news == "" then [] else [Text(s.part, s.message, s.news)];
  }

  lemma PassNothing()
    ensures forall finals, before :: Last([], finals, before) == before
    ensures forall chunks, tool :: Added(chunks, tool, []) == []
    ensures forall tool :: StillTool(tool, []) == tool
  {
  }

  /** All that a listener is given over a history. */
  function Woven(h: seq<Event>): seq<Chunk> {
    if h == [] then []
    else
      var before := h[..|h| - 1];
      Woven(before) + Added(Woven(before), ToolSince(before), ShownBy(RunView(before), OrderOf(before), h[|h| - 1]))
  }

  /** A step has finished since a text was last given. */
  function ToolSince(h: seq<Event>): bool {
    if h == [] then false
    else
      var before := h[..|h| - 1];
      h[|h| - 1].StepFinish? || StillTool(ToolSince(before), ShownBy(RunView(before), OrderOf(before), h[|h| - 1]))
  }

  lemma WovenPush(h: seq<Event>, e: Event)
    ensures Woven(h + [e]) == Woven(h) + Added(Woven(h), ToolSince(h), ShownBy(RunView(h), OrderOf(h), e))
    ensures ToolSince(h + [e]) == (e.StepFinish? || StillTool(ToolSince(h), ShownBy(RunView(h), OrderOf(h), e)))
  {
    assert (h + [e])[..|h|] == h;
  }

  /** What event `n` of the history gives a listener, separators aside. */
  function TextsAt(h: seq<Event>, n: nat): seq<Chunk>
    requires n < |h|
  {
    TextsOf(ShownBy(RunView(h[..n]), OrderOf(h[..n]), h[n]))
  }

  predicate Silent(h: seq<Event>, n: nat)
    requires n < |h|
  {
    TextsAt(h, n) == []
  }

  /** Some step finished, and no event after it has given a text. */
  ghost predicate FinishedSilently(h: seq<Event>) {
    exists n :: 0 <= n < |h| && h[n].StepFinish? && forall m :: n < m < |h| ==> Silent(h, m)
  }

  lemma SilentBefore(h: seq<Event>, e: Event, n: nat)
    requires n < |h|
    ensures Silent(h + [e], n) <==> Silent(h, n)
  {
    assert (h + [e])[..n] == h[..n];
  }

  lemma {:induction false} ToolSinceIff(h: seq<Event>)
    ensures ToolSince(h) <==> FinishedSilently(h)
    decreases |h|
  {
    if h != [] {
      hide TextsOf, ShownBy, RunView, OrderOf, Silent, ToolSince, StillTool;
      var before, e := h[..|h| - 1], h[|h| - 1];
      assert h == before + [e];
      ToolSinceIff(before);
      ToolSinceStep(before, e);
      forall n: nat | n < |before|
        ensures Silent(h, n) <==> Silent(before, n)
      {
        SilentBefore(before, e, n);
      }
      if FinishedSilently(before) && Silent(h, |before|) {
        var n :| 0 <= n < |before| && before[n].StepFinish? && forall m :: n < m < |before| ==> Silent(before, m);
        assert h[n].StepFinish?;
      }
      if FinishedSilently(h) && !e.StepFinish? {
        var n :| 0 <= n < |h| && h[n].StepFinish? && forall m :: n < m < |h| ==> Silent(h, m);
        assert before[n].StepFinish? && Silent(h, |before|);
      }
    }
  }

  lemma ToolSinceStep(h: seq<Event>, e: Event)
    ensures ToolSince(h + [e]) <==> e.StepFinish? || (ToolSince(h) && Silent(h + [e], |h|))
  {
    assert (h + [e])[..|h|] == h;
  }

  /** All that a history passes on. */
  function ShownIn(h: seq<Event>): seq<Showing> {
    if h == [] then []
    else ShownIn(h[..|h| - 1]) + ShownBy(RunView(h[..|h| - 1]), OrderOf(h[..|h| - 1]), h[|h| - 1])
  }

  lemma ShownPush(h: seq<Event>, e: Event)
    ensures OrderOf(h + [e]) == Arrivals(RunView(h), OrderOf(h), e)
    ensures ShownIn(h + [e]) == ShownIn(h) + ShownBy(RunView(h), OrderOf(h), e)
  {
    assert (h + [e])[..|h|] == h;
  }

  /** The last text with more than white space in it, of the final answers alone where `finals` asks for them. */
  function Last(shown: seq<Showing>, finals: bool, before: string): string {
    if shown == [] then before
    else
      var s := shown[|shown| - 1];
      if AllSpace(s.text) || (finals && !s.final) then Last(shown[..|shown| - 1], finals, before) else s.text
  }

  lemma {:induction false} LastOfBoth(a: seq<Showing>, b: seq<Showing>, finals: bool, before: string)
    ensures Last(a + b, finals, before) == Last(b, finals, Last(a, finals, before))
    decreases |b|
  {
    if b == [] {
      assert a + b == a;
    } else {
      assert (a + b)[..|a + b| - 1] == a + b[..|b| - 1];
      LastOfBoth(a, b[..|b| - 1], finals, before);
    }
  }

  /** It is one of them, or all of them are blank and it is as before. */
  lemma {:induction false} LastIsShown(shown: seq<Showing>, finals: bool, before: string)
    ensures var last := Last(shown, finals, before);
            || (!AllSpace(last) && exists k :: 0 <= k < |shown| && shown[k].text == last)
            || (last == before && forall k :: 0 <= k < |shown| ==>
                 AllSpace(shown[k].text) || (finals && !shown[k].final))
    decreases |shown|
  {
    if shown != [] {
      var s := shown[|shown| - 1];
      if AllSpace(s.text) || (finals && !s.final) {
        LastIsShown(shown[..|shown| - 1], finals, before);
      } else {
        assert shown[|shown| - 1].text == Last(shown, finals, before);
      }
    }
  }

  lemma {:induction false} ShowingsAre(parts: map<Id, Part>, order: seq<Id>, message: Id, users: set<Id>,
      assistants: set<Id>)
    ensures forall s :: s in Showings(parts, order, message, users, assistants) ==>
              exists p :: p in parts && Flushes(parts[p], message, users, assistants) && s == AsShown(p, parts[p])
    ensures forall p :: p in order && p in parts && Flushes(parts[p], message, users, assistants) ==>
              AsShown(p, parts[p]) in Showings(parts, order, message, users, assistants)
    decreases |order|
  {
    if order != [] {
      var before, p := order[..|order| - 1], order[|order| - 1];
      ShowingsAre(parts, before, message, users, assistants);
      forall q | q in order && q in parts && Flushes(parts[q], message, users, assistants)
        ensures AsShown(q, parts[q]) in Showings(parts, order, message, users, assistants)
      {
        if q !in before { assert q == p && ShowingsBy(parts, message, users, assistants, p) == [AsShown(p, parts[p])]; }
      }
    }
  }

  /**
   * What an event passes on is what it then remembers as given of some part, and
   * what it adds to a part it passes on.
   */
  lemma ShownIsRemembered(v: View, order: seq<Id>, e: Event)
    requires forall p :: p in v.parts ==> p in order
    ensures forall s :: s in ShownBy(v, order, e) ==>
              exists p :: p in Next(v, e).parts && s.text == Next(v, e).parts[p].emitted
    ensures forall q :: Adds(v, e, q) != "" ==>
              q in Next(v, e).parts && exists s :: s in ShownBy(v, order, e) && s.text == Next(v, e).parts[q].emitted
    ensures forall p :: p in Next(v, e).parts ==> p in Arrivals(v, order, e)
  {
    hide News;
    if e.Message? && e.role == Assistant {
      var assistants := v.assistants + {e.message};
      ShowingsAre(v.parts, order, e.message, v.users, assistants);
      hide Showings;
      forall s | s in ShownBy(v, order, e)
        ensures exists p :: p in Next(v, e).parts && s.text == Next(v, e).parts[p].emitted
      {
        var p :| p in v.parts && Flushes(v.parts[p], e.message, v.users, assistants) && s == AsShown(p, v.parts[p]);
        assert p in Next(v, e).parts && Next(v, e).parts[p].emitted == v.parts[p].text;
      }
      forall q | Adds(v, e, q) != ""
        ensures q in Next(v, e).parts && exists s :: s in ShownBy(v, order, e) && s.text == Next(v, e).parts[q].emitted
      {
        assert AsShown(q, v.parts[q]) in ShownBy(v, order, e);
      }
    } else if Written(v, e).Some? {
      var (p, part) := Written(v, e).value;
      if !Rejects(v, e, part) && Emits(part, v.users, v.assistants) {
        assert ShownBy(v, order, e) == [AsShown(p, part)] && Next(v, e).parts[p].emitted == part.text;
        assert AsShown(p, part) in ShownBy(v, order, e);
      }
    }
  }

  /** The last text is some part's due and not blank, or empty with every due blank. */
  ghost predicate LastIsDue(h: seq<Event>, last: string) {
    if AllSpace(last) then last == "" && forall p :: AllSpace(Due(h, p)) else exists p :: Due(h, p) == last
  }

  /** The last final answer is how some part's due begins, or empty. */
  ghost predicate FinalBeginsDue(h: seq<Event>, final: string) {
    final == "" || (!AllSpace(final) && exists p :: IsPrefix(final, Due(h, p)))
  }

  /** What a regular event passes on is due afterwards, and a due it changes is passed on. */
  ghost predicate Passes(h: seq<Event>, e: Event, shown: seq<Showing>) {
    && (forall s :: s in shown ==> exists p :: Due(h + [e], p) == s.text)
    && (forall p :: Due(h + [e], p) == Due(h, p) || exists s :: s in shown && s.text == Due(h + [e], p))
    && (forall p :: IsPrefix(Due(h, p), Due(h + [e], p)))
  }

  lemma RegularPasses(h: seq<Event>, e: Event)
    requires Follows(RunView(h), h) && Regular(h, e) && forall p :: p in RunView(h).parts ==> p in OrderOf(h)
    ensures Passes(h, e, ShownBy(RunView(h), OrderOf(h), e))
    ensures forall p :: p in RunView(h + [e]).parts ==> p in OrderOf(h + [e])
  {
    hide Due, Regular, Adds, Next, ShownBy, Arrivals, RunView, OrderOf, IsPrefix, Follows, TextOf, MessageOf;
    var v, order := RunView(h), OrderOf(h);
    RunPush(h, e);
    ShownPush(h, e);
    ShownIsRemembered(v, order, e);
    forall p
      ensures HeldAsTold(Next(v, e), h + [e], p)
      ensures Due(h + [e], p) == Due(h, p) + Adds(v, e, p) && IsPrefix(Due(h, p), Due(h + [e], p))
    {
      DueStep(v, h, e, p);
      PrefixOfSum(Due(h, p), Adds(v, e, p));
    }
    forall s | s in ShownBy(v, order, e)
      ensures exists p :: Due(h + [e], p) == s.text
    {
      var p :| p in Next(v, e).parts && s.text == Next(v, e).parts[p].emitted;
      assert Due(h + [e], p) == s.text;
    }
    forall p
      ensures Due(h + [e], p) == Due(h, p) || exists s :: s in ShownBy(v, order, e) && s.text == Due(h + [e], p)
    {
      if Adds(v, e, p) == "" { assert Due(h, p) + "" == Due(h, p); }
    }
  }

  lemma BlankPrefix(a: string, b: string)
    ensures IsPrefix(a, b) && AllSpace(b) ==> AllSpace(a)
  {
    if IsPrefix(a, b) && AllSpace(b) {
      forall k | 0 <= k < |a| ensures IsSpace(a[k]) { assert a[k] == b[..|a|][k]; }
    }
  }

  lemma LastStep(h: seq<Event>, e: Event, shown: seq<Showing>, last: string)
    requires Passes(h, e, shown) && LastIsDue(h, last)
    ensures LastIsDue(h + [e], Last(shown, false, last))
  {
    hide Due, Last, AllSpace, IsPrefix;
    LastIsShown(shown, false, last);
    forall p
      ensures AllSpace(Due(h + [e], p)) ==> AllSpace(Due(h, p))
    {
      BlankPrefix(Due(h, p), Due(h + [e], p));
    }
    var now := Last(shown, false, last);
    if k :| 0 <= k < |shown| && shown[k].text == now && !AllSpace(now) {
      assert shown[k] in shown;
    } else if !AllSpace(now) {
      var p :| Due(h, p) == last;
      assert Due(h + [e], p) == last;
    }
  }

  lemma FinalStep(h: seq<Event>, e: Event, shown: seq<Showing>, final: string)
    requires Passes(h, e, shown) && FinalBeginsDue(h, final)
    ensures FinalBeginsDue(h + [e], Last(shown, true, final))
  {
    hide Due, Last, AllSpace;
    LastIsShown(shown, true, final);
    var now := Last(shown, true, final);
    if now == final && final != "" {
      var p :| IsPrefix(final, Due(h, p));
      PrefixesChain(final, Due(h, p), Due(h + [e], p));
    } else if now != final {
      var k :| 0 <= k < |shown| && shown[k].text == now;
      assert shown[k] in shown;
      var p :| Due(h + [e], p) == now;
      assert IsPrefix(now, Due(h + [e], p));
    }
  }

  lemma PrefixesChain(a: string, b: string, c: string)
    requires IsPrefix(a, b) && IsPrefix(b, c)
    ensures IsPrefix(a, c)
  {
    assert c[..|b|][..|a|] == c[..|a|];
  }

  /**
   * In a regular stream the text the caller parses is all or the beginning of what
   * some part's listener is due, and empty only if all dues are blank.
   */
  lemma {:induction false} RegularLastIsDue(h: seq<Event>)
    requires AllRegular(h)
    ensures LastIsDue(h, Last(ShownIn(h), false, "")) && FinalBeginsDue(h, Last(ShownIn(h), true, ""))
    ensures forall p :: p in RunView(h).parts ==> p in OrderOf(h)
    decreases |h|
  {
    if h == [] {
      assert forall p :: Due([], p) == "";
    } else {
      hide Next, Due, Follows, Regular, Last, LastIsDue, FinalBeginsDue, Passes, ShownBy, RunView, OrderOf;
      var before, e := h[..|h| - 1], h[|h| - 1];
      assert h == before + [e];
      AllRegularPush(before, e);
      RegularLastIsDue(before);
      RegularGivesDue(before, 0);
      RegularPasses(before, e);
      ShownPush(before, e);
      var shown := ShownBy(RunView(before), OrderOf(before), e);
      LastStep(before, e, shown, Last(ShownIn(before), false, ""));
      FinalStep(before, e, shown, Last(ShownIn(before), true, ""));
      LastOfBoth(ShownIn(before), shown, false, "");
      LastOfBoth(ShownIn(before), shown, true, "");
    }
  }

  /** The text parsed is how some part's due begins and not blank, or empty with every due blank. */
  ghost predicate OutputBeginsDue(h: seq<Event>, text: string) {
    if AllSpace(text) then text == "" && forall p :: AllSpace(Due(h, p)) else exists p :: IsPrefix(text, Due(h, p))
  }

  lemma OutputIsDue(h: seq<Event>, last: string, final: string)
    requires LastIsDue(h, last) && FinalBeginsDue(h, final)
    ensures OutputBeginsDue(h, if final == "" then last else final)
  {
    hide Due, AllSpace;
    if final == "" && !AllSpace(last) {
      var p :| Due(h, p) == last;
      assert IsPrefix(last, Due(h, p));
    }
  }

  /** At most one part's due is more than white space. */
  ghost predicate OneDue(h: seq<Event>) {
    forall p, q :: p == q || AllSpace(Due(h, p)) || AllSpace(Due(h, q))
  }

  lemma OneDueIsLast(g: seq<Event>, h: seq<Event>, x: string, y: string)
    requires LastIsDue(g, x) && LastIsDue(h, y) && OneDue(g) && forall p :: Due(g, p) == Due(h, p)
    ensures x == y
  {
    hide Due, AllSpace;
  }

  /** The whole state at one moment, and what the listener has. */
  datatype Snapshot = Snapshot(listening: bool, view: View, order: seq<Id>, usage: map<Id, Usage>, last: string,
      final: string,
      chunks: seq<Chunk>, tool: bool)

  /** One event takes the state from `a` to `b`, but for the usage. */
  ghost predicate Takes(a: Snapshot, e: Event, b: Snapshot) {
    var shown := ShownBy(a.view, a.order, e);
    && b.listening == a.listening && b.view == Next(a.view, e) && b.order == Arrivals(a.view, a.order, e)
    && b.last == Last(shown, false, a.last) && b.final == Last(shown, true, a.final)
    && (forall q :: Output(b.chunks, q) == Output(a.chunks, q) + if a.listening then Adds(a.view, e, q) else "")
    && NewFrom(a.chunks, b.chunks, b.view.users, b.view.assistants)
    && (a.listening ==>
          && b.chunks == a.chunks + Added(a.chunks, a.tool, shown)
          && b.tool == (e.StepFinish? || StillTool(a.tool, shown)))
  }

  /** A text event, once the part's new state is known. */
  lemma TakesText(a: Snapshot, e: Event, b: Snapshot, p: Id, part: Part)
    requires !e.Message? && !e.StepFinish? && Written(a.view, e) == Some((p, part))
    requires b.listening == a.listening && b.order == if p in a.order then a.order else a.order + [p]
    requires b.view.users == a.view.users && b.view.assistants == a.view.assistants
              && b.view.parts - {p} == a.view.parts - {p}
    requires b.view.filtered == if Rejects(a.view, e, part) then a.view.filtered + {p} else a.view.filtered
    requires if Rejects(a.view, e, part) then p !in b.view.parts
             else p in b.view.parts && b.view.parts[p] == Flushed(part, part.message, a.view.users, a.view.assistants)
    requires Shows(a, b, if Emits(part, a.view.users, a.view.assistants) then [AsShown(p, part)] else [])
    requires forall q :: Output(b.chunks, q) == Output(a.chunks, q)
               + if a.listening && q == p && Emits(part, a.view.users, a.view.assistants) then News(part) else ""
    requires NewFrom(a.chunks, b.chunks, b.view.users, b.view.assistants)
    ensures Takes(a, e, b)
  {
    hide Output, Last, Added, StillTool, News, NewFrom;
    var n := Next(a.view, e).parts;
    forall q
      ensures q in b.view.parts <==> q in n
      ensures q in b.view.parts ==> b.view.parts[q] == n[q]
    {
      if q != p { assert q in b.view.parts - {p} <==> q in a.view.parts - {p}; }
    }
    assert b.view.parts == n;
  }

  /** A text event that concerns no part. */
  lemma TakesNone(a: Snapshot, e: Event)
    requires !e.Message? && !e.StepFinish? && Written(a.view, e).None?
    ensures Takes(a, e, a)
  {
    hide Output, Last, Added, StillTool, News;
    PassNothing();
    NewFromNothing(a.chunks, a.view.users, a.view.assistants);
  }

  lemma TakesNoPart(a: Snapshot, message: Id, text: string, final: bool)
    ensures Takes(a, PartText(0, message, text, final), a)
  {
    hide Takes;
    TakesNone(a, PartText(0, message, text, final));
  }

  lemma TakesNoDelta(a: Snapshot, p: Id, text: string)
    requires p == 0 || text == "" || p in a.view.filtered
    ensures Takes(a, Delta(p, text), a)
  {
    hide Takes;
    TakesNone(a, Delta(p, text));
  }

  /** What was passed on is the last text, the last final answer, and with the listener. */
  predicate Shows(a: Snapshot, b: Snapshot, shown: seq<Showing>) {
    && b.last == Last(shown, false, a.last) && b.final == Last(shown, true, a.final)
    && (a.listening ==> b.chunks == a.chunks + Added(a.chunks, a.tool, shown) && b.tool == StillTool(a.tool, shown))
  }

  ghost predicate Tells(h: seq<Event>, s: Snapshot) {
    && s.view == RunView(h) && s.order == OrderOf(h) && s.usage == Reports(h)
    && s.last == Last(ShownIn(h), false, "") && s.final == Last(ShownIn(h), true, "")
    && (forall p :: Output(s.chunks, p) == if s.listening then OutOf(h, p) else "")
    && (s.listening ==> s.chunks == Woven(h) && s.tool == ToolSince(h))
  }

  /** What the state and the listener amount to after a history. */
  ghost predicate Amounts(h: seq<Event>, s: Snapshot) {
    // In any stream a part's chunks add up exactly when nothing given out of it was dropped or replaced.
    && (s.listening ==> forall p :: Output(s.chunks, p) == EmittedIn(s.view.parts, p) <==> NeverBroken(h, p))
    && (s.listening && GrowsOnly(h) ==>
          forall p :: Output(s.chunks, p) == EmittedIn(s.view.parts, p) <==> !DroppedAfterGiven(h, p))
    // In a regular one the listener got its due, and the last texts are of it.
    && (s.listening && AllRegular(h) ==> forall p :: Output(s.chunks, p) == Due(h, p))
    && (AllRegular(h) ==>
          && LastIsDue(h, s.last) && FinalBeginsDue(h, s.final)
          && OutputBeginsDue(h, if s.final == "" then s.last else s.final))
  }

  lemma TellsOn(h: seq<Event>, a: Snapshot, e: Event, b: Snapshot)
    requires Tells(h, a) && Takes(a, e, b) && (a.usage == Reports(h) ==> b.usage == Reports(h + [e]))
    ensures Tells(h + [e], b)
  {
    hide Output, Reports, Next, Adds, Last, ShownBy, RunView, OutOf, OrderOf, ShownIn, Arrivals, Added, StillTool,
         Woven,
         ToolSince, NewFrom;
    RunPush(h, e);
    ShownPush(h, e);
    WovenPush(h, e);
    var shown := ShownBy(RunView(h), OrderOf(h), e);
    LastOfBoth(ShownIn(h), shown, false, "");
    LastOfBoth(ShownIn(h), shown, true, "");
  }

  class StreamState {
    const listening: bool
    var textParts: map<Id, Part>
    var textPartOrder: seq<Id>
    var usageByMsg: map<Id, Usage>
    var usage: Usage
    var lastText: string
    var lastFinalText: string
    var userMsgIds: set<Id>
    var assistantMsgIds: set<Id>
    var filteredPartIds: set<Id>
    var hadToolActivity: bool
    var chunks: seq<Chunk>         // given to the listener

    ghost predicate Valid()
      reads this
    {
      && (forall p :: p in textParts ==> p in textPartOrder)
      && usage == Sum(usageByMsg)
      && SeparatorsSeparate(chunks)
      && (!listening ==> chunks == [])
      && NoneTwice(textPartOrder)
    }

    constructor (listening: bool)
      ensures Valid() && this.listening == listening && chunks == [] && usageByMsg == map[]
      ensures Held() == START && textPartOrder == [] && lastText == "" && lastFinalText == "" && !hadToolActivity
    {
      this.listening := listening;
      textParts, textPartOrder, usageByMsg, usage := map[], [], map[], NOTHING;
      lastText, lastFinalText := "", "";
      userMsgIds, assistantMsgIds, filteredPartIds := {}, {}, {};
      hadToolActivity, chunks := false, [];
    }

    predicate ShouldEmit(part: Part)
      reads this
    {
      part.message != 0 && part.message !in userMsgIds && part.message in assistantMsgIds
    }

    method UpdateText(text: string, final: bool, ghost s: Showing)
      requires s.text == text && s.final == final
      modifies this`lastText, this`lastFinalText
      ensures Showed([s])
    {
      PassNothing();
      if AllSpace(text) { return; }
      lastText := text;
      if final { lastFinalText := text; }
    }

    /** Gives the listener what is new in a part, if its message is the assistant's. */
    method EmitTextPartChunk(p: Id)
      requires Valid() && p in textParts
      modifies this`lastText, this`lastFinalText, this`hadToolActivity, this`chunks, this`textParts
      ensures Valid()
      ensures !ShouldEmit(old(textParts)[p]) ==>
                textParts == old(textParts) && chunks == old(chunks) && lastText == old(lastText)
                && lastFinalText == old(lastFinalText)
      ensures Passed(if ShouldEmit(old(textParts)[p]) then [AsShown(p, old(textParts)[p])] else [])
      ensures ShouldEmit(old(textParts)[p]) ==>
                textParts == old(textParts)[p := old(textParts)[p].(emitted := old(textParts)[p].text)]
      ensures forall q :: Output(chunks, q) == Output(old(chunks), q) + if listening && q == p
                && ShouldEmit(old(textParts)[p]) then News(old(textParts)[p]) else ""
      ensures NewFrom(old(chunks), chunks, userMsgIds, assistantMsgIds)
    {
      hide Output, NewFrom, SeparatorsSeparate, NoneTwice, Added, StillTool, IsPrefix, Sum;
      var part := textParts[p];
      NewFromNothing(chunks, userMsgIds, assistantMsgIds);
      PassNothing();
      PassOne(chunks, hadToolActivity, AsShown(p, part));
      if !ShouldEmit(part) { return; }
      var chunk := News(part);
      UpdateText(part.text, part.final, AsShown(p, part));
      if listening && chunk != "" {
        GivenAddsPiece(chunks, hadToolActivity, Text(p, part.message, chunk), userMsgIds, assistantMsgIds);
        if hadToolActivity {
          if chunks != [] { chunks := chunks + [Separator]; }
          hadToolActivity := false;
        }
        chunks := chunks + [Text(p, part.message, chunk)];
      }
      textParts := textParts[p := part.(emitted := part.text)];
    }

    method TrackTextPart(p: Id)
      modifies this`textPartOrder
      ensures textPartOrder == if p in old(textPartOrder) then old(textPartOrder) else old(textPartOrder) + [p]
      ensures NoneTwice(old(textPartOrder)) ==> NoneTwice(textPartOrder)
    {
      for i := 0 to |textPartOrder|
        invariant p !in textPartOrder[..i] && textPartOrder == old(textPartOrder)
      {
        if textPartOrder[i] == p { return; }
      }
      textPartOrder := textPartOrder + [p];
    }

    /** `dropMessageParts`: the parts of a user message are gone and their deltas ignored from now on. */
    method DropMessageParts(message: Id)
      requires Valid()
      modifies this`textParts, this`filteredPartIds
      ensures Valid()
      ensures textParts == map p | p in old(textParts) && old(textParts)[p].message != message :: old(textParts)[p]
      ensures filteredPartIds == old(filteredPartIds) + set p | p in old(textParts)
                && old(textParts)[p].message == message
    {
      hide Sum, SeparatorsSeparate, NoneTwice;
      var todo := textParts.Keys;
      while todo != {}
        invariant todo <= textParts.Keys <= old(textParts).Keys
        invariant forall p :: p in textParts ==> textParts[p] == old(textParts)[p]
        invariant forall p :: p in old(textParts) && p !in todo ==>
                  (p in textParts <==> old(textParts)[p].message != message)
        invariant forall p :: p in filteredPartIds <==>
                  p in old(filteredPartIds) || (p in old(textParts) && p !in textParts)
        decreases |todo|
      {
        var p :| p in todo;
        if textParts[p].message == message {
          filteredPartIds := filteredPartIds + {p};
          textParts := textParts - {p};
        }
        todo := todo - {p};
      }
    }

    /** `emitBufferedMessageParts`: what the message's parts hold back is given out, in order of arrival. */
    method EmitBufferedMessageParts(message: Id)
      requires Valid()
      modifies this`lastText, this`lastFinalText, this`hadToolActivity, this`chunks, this`textParts
      ensures Valid()
      ensures textParts == AllFlushed(old(textParts), textPartOrder, message, userMsgIds, assistantMsgIds)
      ensures forall q :: Output(chunks, q) == Output(old(chunks), q) +
                            Released(listening, old(textParts), textPartOrder, message, userMsgIds, assistantMsgIds, q)
      ensures Passed(Showings(old(textParts), textPartOrder, message, userMsgIds, assistantMsgIds))
      ensures NewFrom(old(chunks), chunks, userMsgIds, assistantMsgIds)
    {
      hide Output, NewFrom, News, Sum, SeparatorsSeparate, NoneTwice, Added, StillTool, Released, AllFlushed, Flushed,
           Flushes, Last, ShowingsBy,
           AllSpace;
      ghost var parts, before := textParts, chunks;
      NewFromNothing(chunks, userMsgIds, assistantMsgIds);
      NothingFlushed(listening, parts, message, userMsgIds, assistantMsgIds);
      PassNothing();
      for i := 0 to |textPartOrder|
        invariant Valid()
        invariant textParts == AllFlushed(parts, textPartOrder[..i], message, userMsgIds, assistantMsgIds)
        invariant forall q ::
                  Output(chunks, q) == Output(before, q)
                  + Released(listening, parts, textPartOrder[..i], message, userMsgIds, assistantMsgIds, q)
        invariant NewFrom(before, chunks, userMsgIds, assistantMsgIds)
        invariant Passed(Showings(parts, textPartOrder[..i], message, userMsgIds, assistantMsgIds))
      {
        ghost var middle := chunks;
        ghost var shown := Showings(parts, textPartOrder[..i], message, userMsgIds, assistantMsgIds);
        ghost var now := ShowingsBy(parts, message, userMsgIds, assistantMsgIds, textPartOrder[i]);
        LastOfBoth(shown, now, false, old(lastText));
        LastOfBoth(shown, now, true, old(lastFinalText));
        AddedBoth(old(chunks), old(hadToolActivity), shown, now);
        NotBefore(textPartOrder, i);
        ShowingsPush(parts, textPartOrder[..i], message, userMsgIds, assistantMsgIds, textPartOrder[i]);
        FlushStep(listening, parts, textPartOrder[..i], message, userMsgIds, assistantMsgIds, textPartOrder[i]);
        FlushPart(textPartOrder[i], message);
        NewFromTransitive(before, middle, chunks, userMsgIds, assistantMsgIds);
        assert textPartOrder[..i + 1] == textPartOrder[..i] + [textPartOrder[i]];
      }
      assert textPartOrder[..|textPartOrder|] == textPartOrder;
    }

    method FlushPart(p: Id, message: Id)
      requires Valid()
      modifies this`lastText, this`lastFinalText, this`hadToolActivity, this`chunks, this`textParts
      ensures Valid()
      ensures textParts == if p in old(textParts)
                then old(textParts)[p := Flushed(old(textParts)[p], message, userMsgIds, assistantMsgIds)]
                else old(textParts)
      ensures forall q ::
                Output(chunks, q) == Output(old(chunks), q)
                + ReleasedBy(listening, old(textParts), message, userMsgIds, assistantMsgIds, p, q)
      ensures Passed(ShowingsBy(old(textParts), message, userMsgIds, assistantMsgIds, p))
      ensures NewFrom(old(chunks), chunks, userMsgIds, assistantMsgIds)
    {
      NewFromNothing(chunks, userMsgIds, assistantMsgIds);
      PassNothing();
      hide Output, NewFrom, News, Sum, SeparatorsSeparate, NoneTwice, Added, StillTool, Last;
      if p in textParts && textParts[p].message == message {
        EmitTextPartChunk(p);
      }
    }

    /** The part is there, empty when new. */
    method EnsurePart(p: Id)
      requires Valid()
      modifies this`textParts, this`textPartOrder
      ensures Valid()
      ensures p in textParts && textParts[p] == PartIn(old(Held()), p) && textParts - {p} == old(textParts) - {p}
      ensures textPartOrder == if p in old(textPartOrder) then old(textPartOrder) else old(textPartOrder) + [p]
    {
      hide Sum, SeparatorsSeparate, NoneTwice, Added, StillTool;
      if p !in textParts {
        textParts := textParts[p := Part("", false, 0, "")];
        TrackTextPart(p);
      }
    }

    /** The last text passed on, and the last final answer, after these showings. */
    twostate predicate Showed(shown: seq<Showing>)
      reads this
    {
      && lastText == Last(shown, false, old(lastText))
      && lastFinalText == Last(shown, true, old(lastFinalText))
    }

    /** And the listener has been given their texts. */
    twostate predicate Passed(shown: seq<Showing>)
      reads this
    {
      && Showed(shown)
      && (listening ==>
            && chunks == old(chunks) + Added(old(chunks), old(hadToolActivity), shown)
            && hadToolActivity == StillTool(old(hadToolActivity), shown))
    }

    /** The text the caller parses for the answer. */
    function OutputText(): string
      reads this
    {
      if lastFinalText == "" then lastText else lastFinalText
    }

    /** What is held between events. */
    ghost function Held(): View
      reads this
    {
      View(textParts, filteredPartIds, userMsgIds, assistantMsgIds)
    }

    ghost function Now(): Snapshot
      reads this
    {
      Snapshot(listening, Held(), textPartOrder, usageByMsg, lastText, lastFinalText, chunks, hadToolActivity)
    }

    /** The state and the listener are now as one event `e` makes them. */
    twostate predicate Took(e: Event)
      reads this
    {
      Takes(old(Now()), e, Now())
    }

    /** The part is there, and `part` is what the delta makes of it. */
    method PrepareDelta(p: Id, text: string) returns (part: Part)
      requires Valid() && p != 0 && text != "" && p !in filteredPartIds
      modifies this`textParts, this`textPartOrder
      ensures Valid() && p in textParts && textParts - {p} == old(textParts) - {p}
      ensures textPartOrder == if p in old(textPartOrder) then old(textPartOrder) else old(textPartOrder) + [p]
      ensures Written(old(Held()), Delta(p, text)) == Some((p, part)) && !Rejects(old(Held()), Delta(p, text), part)
    {
      hide SeparatorsSeparate, NoneTwice, Sum;
      EnsurePart(p);
      part := textParts[p].(text := textParts[p].text + text);
    }

    method StepDelta(p: Id, text: string)
      requires Valid()
      modifies this
      ensures Valid() && usageByMsg == old(usageByMsg) && Took(Delta(p, text))
    {
      hide Output, SeparatorsSeparate, NoneTwice, Added, StillTool, Sum, News, NewFrom, IsPrefix, Last, Takes, Next,
           Adds,
           Flushed, Flushes, Written, Rejects;
      ghost var before := Now();
      if p == 0 || text == "" || p in filteredPartIds {
        TakesNoDelta(before, p, text);
        return;
      }
      var part := PrepareDelta(p, text);
      KeepPart(p, part);
      TakesText(before, Delta(p, text), Now(), p, part);
    }

    /** Keeps the part's new state and gives out what is new. */
    method KeepPart(p: Id, part: Part)
      requires Valid() && p in textParts
      modifies this`lastText, this`lastFinalText, this`hadToolActivity, this`chunks, this`textParts
      ensures Valid()
      ensures textParts - {p} == old(textParts) - {p}
      ensures p in textParts && textParts[p] == Flushed(part, part.message, userMsgIds, assistantMsgIds)
      ensures forall q :: Output(chunks, q) == Output(old(chunks), q) +
                            if listening && q == p && Emits(part, userMsgIds, assistantMsgIds) then News(part) else ""
      ensures Passed(if Emits(part, userMsgIds, assistantMsgIds) then [AsShown(p, part)] else [])
      ensures NewFrom(old(chunks), chunks, userMsgIds, assistantMsgIds)
    {
      hide Output, SeparatorsSeparate, NoneTwice, Added, StillTool, Sum, News, NewFrom, Last;
      textParts := textParts[p := part];
      EmitTextPartChunk(p);
    }

    /** Keeps the part's new state and gives out what is new, or forgets the part if its message is the user's. */
    method StorePart(p: Id, part: Part)
      requires Valid() && p in textParts
      modifies this`lastText, this`lastFinalText, this`hadToolActivity, this`chunks, this`textParts,
          this`filteredPartIds
      ensures Valid()
      ensures textParts - {p} == old(textParts) - {p}
      ensures if part.message != 0 && part.message in userMsgIds
              then p !in textParts && filteredPartIds == old(filteredPartIds) + {p}
              else
                && p in textParts && textParts[p] == Flushed(part, part.message, userMsgIds, assistantMsgIds)
                && filteredPartIds == old(filteredPartIds)
      ensures forall q :: Output(chunks, q) == Output(old(chunks), q) +
                            if listening && q == p && Emits(part, userMsgIds, assistantMsgIds) then News(part) else ""
      ensures Passed(if Emits(part, userMsgIds, assistantMsgIds) then [AsShown(p, part)] else [])
      ensures NewFrom(old(chunks), chunks, userMsgIds, assistantMsgIds)
    {
      hide Output, SeparatorsSeparate, NoneTwice, Added, StillTool, Sum, News, NewFrom, Last;
      PassNothing();
      NewFromNothing(chunks, userMsgIds, assistantMsgIds);
      textParts := textParts[p := part];
      if part.message != 0 && part.message in userMsgIds {
        filteredPartIds := filteredPartIds + {p};
        textParts := textParts - {p};
      } else {
        KeepPart(p, part);
      }
    }

    /** The part is there, and `part` is what the event makes of it. */
    method PreparePart(p: Id, message: Id, text: string, final: bool) returns (part: Part)
      requires Valid() && p != 0
      modifies this`textParts, this`textPartOrder
      ensures Valid() && p in textParts && textParts - {p} == old(textParts) - {p}
      ensures textPartOrder == if p in old(textPartOrder) then old(textPartOrder) else old(textPartOrder) + [p]
      ensures Written(old(Held()), PartText(p, message, text, final)) == Some((p, part))
      ensures Rejects(old(Held()), PartText(p, message, text, final), part) == (part.message != 0
                && part.message in userMsgIds)
    {
      hide SeparatorsSeparate, NoneTwice, Sum;
      EnsurePart(p);
      part := textParts[p].(text := text, final := final);
      if message != 0 { part := part.(message := message); }
    }

    method StepPart(p: Id, message: Id, text: string, final: bool)
      requires Valid()
      modifies this
      ensures Valid() && usageByMsg == old(usageByMsg) && Took(PartText(p, message, text, final))
    {
      hide Output, SeparatorsSeparate, NoneTwice, Added, StillTool, Sum, News, NewFrom, IsPrefix, Last, Takes, Next,
           Adds,
           Flushed, Flushes, Written, Rejects;
      ghost var before := Now();
      if p == 0 {
        TakesNoPart(before, message, text, final);
        return;
      }
      var part := PreparePart(p, message, text, final);
      StorePart(p, part);
      TakesText(before, PartText(p, message, text, final), Now(), p, part);
    }

    method MarkUser(message: Id, ghost tokens: Option<Usage>)
      requires Valid()
      modifies this`userMsgIds, this`textParts, this`filteredPartIds
      ensures Valid() && Took(Message(message, User, tokens))
    {
      hide SeparatorsSeparate, NoneTwice, Added, StillTool, Sum, News, IsPrefix, Last;
      PassNothing();
      userMsgIds := userMsgIds + {message};
      DropMessageParts(message);
    }

    method MarkAssistant(message: Id, ghost tokens: Option<Usage>)
      requires Valid()
      modifies this`assistantMsgIds, this`lastText, this`lastFinalText, this`hadToolActivity, this`chunks,
          this`textParts
      ensures Valid() && Took(Message(message, Assistant, tokens))
    {
      hide Output, SeparatorsSeparate, NoneTwice, Added, StillTool, Sum, News, IsPrefix, NewFrom, Flushes, Last;
      PassNothing();
      assistantMsgIds := assistantMsgIds + {message};
      EmitBufferedMessageParts(message);
    }

    method StepMessage(message: Id, role: Role, tokens: Option<Usage>)
      requires Valid()
      modifies this
      ensures Valid() && Took(Message(message, role, tokens))
      ensures usageByMsg == if role == Assistant && tokens.Some? then old(usageByMsg)[message := tokens.value]
                else old(usageByMsg)
    {
      hide Output, SeparatorsSeparate, NoneTwice, Added, StillTool, Sum, NewFrom, Next, Adds;
      if role == User { MarkUser(message, tokens); }
      if role == Assistant { MarkAssistant(message, tokens); }
      if role == OtherRole { TookNothing(Message(message, role, tokens)); }
      if role == Assistant && tokens.Some? {
        usageByMsg := usageByMsg[message := tokens.value];
        usage := Accumulate(usageByMsg);
      }
    }

    /** One event before the session goes idle. */
    method Step(e: Event)
      requires Valid() && !e.Idle?
      modifies this
      ensures Valid() && Took(e)
      ensures forall h :: old(Told(h)) ==> Told(h + [e])
    {
      hide Output, SeparatorsSeparate, NoneTwice, Added, StillTool, Sum, Reports, TextOf, MessageOf, Marked, Takes,
           Tells;
      ghost var before := Now();
      match e {
        case Foreign =>
        case Delta(p, text) => StepDelta(p, text);
        case PartText(p, message, text, final) => StepPart(p, message, text, final);
        case StepFinish(message, tokens) =>
          hadToolActivity := true;
          if message != 0 && tokens.Some? {
            usageByMsg := usageByMsg[message := tokens.value];
            usage := Accumulate(usageByMsg);
          }
        case Message(message, role, tokens) => StepMessage(message, role, tokens);
      }
      if e.Foreign? || e.StepFinish? { TookNothing(e); }
      forall h | old(Told(h))
        ensures Told(h + [e])
      {
        Push(h, e);
        TellsOn(h, before, e, Now());
      }
    }

    twostate lemma TookNothing(e: Event)
      requires hadToolActivity == (e.StepFinish? || old(hadToolActivity))
      requires (e.Foreign? || e.StepFinish? || (e.Message? && e.role == OtherRole)) && Held() == old(Held())
                && chunks == old(chunks)
      requires lastText == old(lastText) && lastFinalText == old(lastFinalText) && textPartOrder == old(textPartOrder)
      ensures Took(e)
    {
      NewFromNothing(chunks, userMsgIds, assistantMsgIds);
    }

    /** The state and the listener are what the history makes them. */
    ghost predicate Told(h: seq<Event>)
      reads this
    {
      Tells(h, Now())
    }

    /**
     * The whole stream, up to the session going idle: what is held and what the
     * listener got are what the history makes them, and usage is the sum of each
     * message's latest report.
     */
    method Parse(events: seq<Event>) returns (sawIdle: bool, ghost h: seq<Event>)
      requires Valid() && Held() == START && chunks == [] && usageByMsg == Reports([])
      requires textPartOrder == [] && lastText == "" && lastFinalText == "" && !hadToolActivity
      modifies this
      ensures Valid()
      ensures h == UpToIdle(events) && sawIdle == (|h| < |events|)
      ensures usage == Sum(Reports(h)) && Told(h) && Amounts(h, Now())
    {
      hide Output, SeparatorsSeparate, NoneTwice, Sum, UpToIdle, AllRegular, GrowsOnly, NeverBroken, DroppedAfterGiven,
           Due,
           EmittedIn, LastIsDue, FinalBeginsDue, OutputBeginsDue, Tells, Takes, Amounts;
      h := [];
      BeginsTold();
      for i := 0 to |events|
        invariant Valid() && Told(h)
        invariant h == events[..i] && UpToIdle(events) == h + UpToIdle(events[i..])
      {
        var e := events[i];
        UpToIdleStep(events[i..]);
        assert events[i..][1..] == events[i + 1..];
        if e.Idle? {
          ToldAmounts(h);
          return true, h;
        }
        Step(e);
        h := h + [e];
      }
      UpToIdleStep(events[|events|..]);
      sawIdle := false;
      ToldAmounts(h);
    }

    lemma BeginsTold()
      requires Held() == START && chunks == [] && usageByMsg == Reports([])
      requires textPartOrder == [] && lastText == "" && lastFinalText == "" && !hadToolActivity
      ensures Told([])
    {
      RunOfNothing();
      PassNothing();
    }

    lemma ToldAmounts(h: seq<Event>)
      requires Told(h)
      ensures usageByMsg == Reports(h) && Amounts(h, Now())
    {
      hide Output, Reports, RunView, OutOf, AllRegular, GrowsOnly, NeverBroken, DroppedAfterGiven, Due, EmittedIn, Last,
           ShownIn,
           OrderOf, LastIsDue, FinalBeginsDue, OutputBeginsDue, Woven, ToolSince;
      Accounts(h);
    }
  }

  lemma RunOfNothing()
    ensures OrderOf([]) == [] && ShownIn([]) == [] && forall finals :: Last([], finals, "") == ""
    ensures RunView([]) == START && forall p :: OutOf([], p) == "" && Output([], p) == ""
  {
  }

  lemma Accounts(h: seq<Event>)
    ensures forall p :: OutOf(h, p) == EmittedIn(RunView(h).parts, p) <==> NeverBroken(h, p)
    ensures GrowsOnly(h) ==> forall p :: OutOf(h, p) == EmittedIn(RunView(h).parts, p) <==> !DroppedAfterGiven(h, p)
    ensures AllRegular(h) ==> forall p :: OutOf(h, p) == Due(h, p)
    ensures AllRegular(h) ==> LastIsDue(h, Last(ShownIn(h), false, "")) && FinalBeginsDue(h, Last(ShownIn(h), true, ""))
    ensures var last, final := Last(ShownIn(h), false, ""), Last(ShownIn(h), true, "");
            AllRegular(h) ==> OutputBeginsDue(h, if final == "" then last else final)
  {
    if AllRegular(h) {
      RegularLastIsDue(h);
      OutputIsDue(h, Last(ShownIn(h), false, ""), Last(ShownIn(h), true, ""));
    }
    forall p
      ensures OutOf(h, p) == EmittedIn(RunView(h).parts, p) <==> NeverBroken(h, p)
      ensures GrowsOnly(h) ==> (OutOf(h, p) == EmittedIn(RunView(h).parts, p) <==> !DroppedAfterGiven(h, p))
      ensures AllRegular(h) ==> OutOf(h, p) == Due(h, p)
    {
      ChunksAddUpIff(h, p);
      if GrowsOnly(h) { GrowingAddsUpIff(h, p); }
      if AllRegular(h) { RegularGivesDue(h, p); }
    }
  }

  function UpToIdle(events: seq<Event>): seq<Event> {
    if events == [] || events[0].Idle? then [] else [events[0]] + UpToIdle(events[1..])
  }

  lemma UpToIdleStep(events: seq<Event>)
    ensures UpToIdle(events) == if events == [] || events[0].Idle? then [] else [events[0]] + UpToIdle(events[1..])
  {
  }

  lemma AllRegularPush(h: seq<Event>, e: Event)
    ensures AllRegular(h + [e]) ==> AllRegular(h) && Regular(h, e)
  {
    if AllRegular(h + [e]) {
      forall n | 0 <= n < |h|
        ensures Regular(h[..n], h[n])
      {
        assert (h + [e])[..n] == h[..n];
      }
      assert (h + [e])[..|h|] == h;
    }
  }

  /** The history without its message markers. */
  function Unmarked(h: seq<Event>): seq<Event> {
    if h == [] then [] else Unmarked(h[..|h| - 1]) + if h[|h| - 1].Message? then [] else [h[|h| - 1]]
  }

  lemma {:induction false} MarkersDoNotWrite(h: seq<Event>, p: Id)
    ensures TextOf(h, p) == TextOf(Unmarked(h), p) && MessageOf(h, p) == MessageOf(Unmarked(h), p)
    decreases |h|
  {
    if h != [] {
      var before, e := h[..|h| - 1], h[|h| - 1];
      MarkersDoNotWrite(before, p);
      Push(before, e);
      assert h == before + [e];
      if e.Message? {
        assert Unmarked(h) == Unmarked(before);
      } else {
        Push(Unmarked(before), e);
      }
    }
  }

  /** Where the markers stand among the other events makes no difference to what a part's listener is due. */
  lemma MarkersMayMove(a: seq<Event>, b: seq<Event>, p: Id)
    requires Unmarked(a) == Unmarked(b) && Marked(a, Assistant) == Marked(b, Assistant)
    ensures Due(a, p) == Due(b, p)
  {
    MarkersDoNotWrite(a, p);
    MarkersDoNotWrite(b, p);
  }

  /**
   * Two streams that differ only in where their markers stand give a listener
   * the same text of every part, and leave the same last text unless more than
   * one part has text to give.
   */
  method ParseBoth(a: seq<Event>, b: seq<Event>) returns (x: StreamState, y: StreamState)
    ensures fresh(x) && fresh(y)
    ensures var (g, h) := (UpToIdle(a), UpToIdle(b));
            AllRegular(g) && AllRegular(h) && Unmarked(g) == Unmarked(h)
                && Marked(g, Assistant) == Marked(h, Assistant) ==>
              && (forall p :: Output(x.chunks, p) == Output(y.chunks, p))
              && (OneDue(g) ==> x.lastText == y.lastText)
  {
    hide LastIsDue, FinalBeginsDue, OutputBeginsDue, OneDue, StreamState.Told, AllRegular, Output, Due, Unmarked,
         UpToIdle,
         RunView, NeverBroken, DroppedAfterGiven, GrowsOnly;
    x := new StreamState(true);
    y := new StreamState(true);
    var _, g := x.Parse(a);
    var _, h := y.Parse(b);
    if AllRegular(g) && AllRegular(h) && Unmarked(g) == Unmarked(h) && Marked(g, Assistant) == Marked(h, Assistant) {
      forall p ensures Due(g, p) == Due(h, p) { MarkersMayMove(g, h, p); }
      if OneDue(g) { OneDueIsLast(g, h, x.lastText, y.lastText); }
    }
  }

  /** The texts of two assistant messages, and then their markers. */
  function TwoTexts(first: Id, second: Id): seq<Event> {
    [PartText(7, 1, "a", false), PartText(8, 2, "b", false), Message(first, Assistant, None),
        Message(second, Assistant, None)]
  }

  predicate Hears(h: seq<Event>, v: View, order: seq<Id>, last: string) {
    RunView(h) == v && OrderOf(h) == order && Last(ShownIn(h), false, "") == last
  }

  lemma HearsAfter(h: seq<Event>, e: Event, v: View, order: seq<Id>, last: string)
    requires Hears(h, v, order, last)
    ensures Hears(h + [e], Next(v, e), Arrivals(v, order, e), Last(ShownBy(v, order, e), false, last))
  {
    hide Next, Arrivals, ShownBy, Last;
    RunPush(h, e);
    ShownPush(h, e);
    LastOfBoth(ShownIn(h), ShownBy(v, order, e), false, "");
  }

  /** Where two parts have text, the part whose message is marked last is the last text. */
  lemma LastFollowsMarkers(first: Id, second: Id)
    requires (first, second) in {(1, 2), (2, 1)}
    ensures AllRegular(TwoTexts(first, second)) && Marked(TwoTexts(first, second), Assistant) == {1, 2}
    ensures Unmarked(TwoTexts(first, second)) == Unmarked(TwoTexts(second, first))
    ensures Last(ShownIn(TwoTexts(first, second)), false, "") == if second == 2 then "b" else "a"
  {
    TwoTextsAreRegular(first, second);
    TwoTextsUnmarked(first, second);
    TwoTextsUnmarked(second, first);
    TwoTextsHeard(first, second);
  }

  lemma TwoTextsUnmarked(first: Id, second: Id)
    ensures Unmarked(TwoTexts(first, second)) == [PartText(7, 1, "a", false), PartText(8, 2, "b", false)]
  {
    var h := TwoTexts(first, second);
    assert h[..3][..2] == h[..2] && h[..2][..1] == h[..1] && h[..1][..0] == [];
    assert Unmarked(h[..1]) == [h[0]];
    assert Unmarked(h[..2]) == [h[0], h[1]];
    assert Unmarked(h[..3]) == [h[0], h[1]];
  }

  lemma AllRegularGrows(h: seq<Event>, e: Event)
    requires AllRegular(h) && Regular(h, e)
    ensures AllRegular(h + [e])
  {
    hide Regular;
    var t := h + [e];
    forall n | 0 <= n < |t|
      ensures Regular(t[..n], t[n])
    {
      assert n < |h| ==> t[..n] == h[..n];
      assert n == |h| ==> t[..n] == h;
    }
  }

  lemma TwoTextsAreRegular(first: Id, second: Id)
    requires (first, second) in {(1, 2), (2, 1)}
    ensures AllRegular(TwoTexts(first, second)) && Marked(TwoTexts(first, second), Assistant) == {1, 2}
  {
    hide TextOf, MessageOf, Marked, AllRegular;
    var h := TwoTexts(first, second);
    NothingSaid();
    assert [] + [h[0]] == h[..1] && h[..1] + [h[1]] == h[..2] && h[..2] + [h[2]] == h[..3] && h[..3] + [h[3]] == h;
    Push([], h[0]);
    AllRegularGrows([], h[0]);
    Push(h[..1], h[1]);
    AllRegularGrows(h[..1], h[1]);
    Push(h[..2], h[2]);
    AllRegularGrows(h[..2], h[2]);
    Push(h[..3], h[3]);
    AllRegularGrows(h[..3], h[3]);
  }

  lemma NothingSaid()
    ensures (forall p :: TextOf([], p) == "" && MessageOf([], p) == 0) && forall role :: Marked([], role) == {}
    ensures AllRegular([])
  {
  }

  lemma TextHeard(h: seq<Event>, p: Id, message: Id, text: string, v: View, order: seq<Id>, last: string)
    requires Hears(h, v, order, last) && p != 0 && p !in v.parts && p !in order
    requires message != 0 && message !in v.users && message !in v.assistants
    ensures Hears(h + [PartText(p, message, text, false)], v.(parts := v.parts[p := Part(text, false, message, "")]),
              order + [p], last)
  {
    hide RunView, OrderOf, ShownIn;
    HearsAfter(h, PartText(p, message, text, false), v, order, last);
  }

  lemma MarkHeard(h: seq<Event>, message: Id, p: Id, v: View, last: string)
    requires Hears(h, v, [7, 8], last) && v.users == {} && v.parts.Keys == {7, 8} && message != 0 && p in v.parts
    requires (v.parts[7].message == message <==> p == 7) && (v.parts[8].message == message <==> p == 8)
              && !AllSpace(v.parts[p].text)
    ensures Hears(h + [Message(message, Assistant, None)],
                  v.(assistants := v.assistants + {message},
                      parts := v.parts[p := v.parts[p].(emitted := v.parts[p].text)]), [7, 8], v.parts[p].text)
  {
    hide RunView, OrderOf, ShownIn, AllSpace;
    HearsAfter(h, Message(message, Assistant, None), v, [7, 8], last);
    var parts, assistants := v.parts, v.assistants + {message};
    ShowingsPush(parts, [], message, {}, assistants, 7);
    ShowingsPush(parts, [7], message, {}, assistants, 8);
    assert [] + [7] == [7] && [7] + [8] == [7, 8];
    assert Showings(parts, [7, 8], message, {}, assistants) == [AsShown(p, parts[p])];
    assert Next(v, Message(message, Assistant, None)).parts == parts[p := parts[p].(emitted := parts[p].text)];
  }

  lemma TwoTextsHeard(first: Id, second: Id)
    requires (first, second) in {(1, 2), (2, 1)}
    ensures Last(ShownIn(TwoTexts(first, second)), false, "") == if second == 2 then "b" else "a"
  {
    hide RunView, OrderOf, ShownIn, Last;
    var h := TwoTexts(first, second);
    assert [] + [h[0]] == h[..1] && h[..1] + [h[1]] == h[..2] && h[..2] + [h[2]] == h[..3] && h[..3] + [h[3]] == h;
    assert Hears([], START, [], "") by { RunOfNothing(); }
    TextHeard([], 7, 1, "a", START, [], "");
    var v1 := START.(parts := START.parts[7 := Part("a", false, 1, "")]);
    assert [] + [7] == [7] && [7] + [8] == [7, 8];
    TextHeard(h[..1], 8, 2, "b", v1, [7], "");
    var v2 := v1.(parts := v1.parts[8 := Part("b", false, 2, "")]);
    assert "a"[0] == 'a' && "b"[0] == 'b';
    var p := if first == 1 then 7 else 8;
    MarkHeard(h[..2], first, p, v2, "");
    var v3 := v2.(assistants := v2.assistants + {first},
        parts := v2.parts[p := v2.parts[p].(emitted := v2.parts[p].text)]);
    MarkHeard(h[..3], second, 15 - p, v3, v2.parts[p].text);
  }

  // ----- streams in which a listener does not get its due -----

  /** What a part was given, is due, and is remembered as given. */
  predicate Account(h: seq<Event>, p: Id, given: string, due: string, remembered: string) {
    OutOf(h, p) == given && Due(h, p) == due && EmittedIn(RunView(h).parts, p) == remembered
  }

  /** What a history amounts to for one part. */
  predicate Comes(h: seq<Event>, p: Id, v: View, given: string, text: string, message: Id, assistants: set<Id>) {
    RunView(h) == v && OutOf(h, p) == given && TextOf(h, p) == text && MessageOf(h, p) == message
        && Marked(h, Assistant) == assistants
  }

  lemma ComesAfter(h: seq<Event>, e: Event, p: Id, v: View, given: string, text: string, message: Id,
      assistants: set<Id>)
    requires p != 0 && Comes(h, p, v, given, text, message, assistants)
    ensures
      var text' := if e.Delta? && e.part == p then text + e.text else if e.PartText? && e.part == p then e.text
          else text;
      var message' := if e.PartText? && e.part == p && e.message != 0 then e.message else message;
      var assistants' := if e.Message? && e.role == Assistant then assistants + {e.message} else assistants;
      Comes(h + [e], p, Next(v, e), given + Adds(v, e, p), text', message', assistants')
  {
    hide Next, Adds;
    RunPush(h, e);
    Push(h, e);
  }

  /** A part goes over to a user's message: what was given of it is dropped. */
  lemma PartChangesMessage()
    ensures Account([Message(1, Assistant, None), Message(2, User, None), PartText(7, 1, "a", false),
              PartText(7, 2, "a", false)], 7, "a", "", "")
  {
    hide RunView, OutOf, TextOf, MessageOf, Marked, Comes;
    assert Comes([], 7, START, "", "", 0, {}) by { ComesFromNothing(); }
    var h1 := [Message(1, Assistant, None)];
    var v1 := View(map[], {}, {}, {1});
    ComesAfter([], Message(1, Assistant, None), 7, START, "", "", 0, {});
    assert [] + [Message(1, Assistant, None)] == h1 && "" + Adds(START, Message(1, Assistant, None), 7) == "";
    assert Next(START, Message(1, Assistant, None)) == v1;
    var h2 := [Message(1, Assistant, None), Message(2, User, None)];
    var v2 := View(map[], {}, {2}, {1});
    ComesAfter(h1, Message(2, User, None), 7, v1, "", "", 0, {1});
    assert h1 + [Message(2, User, None)] == h2 && "" + Adds(v1, Message(2, User, None), 7) == "";
    assert Next(v1, Message(2, User, None)) == v2;
    var h3 := [Message(1, Assistant, None), Message(2, User, None), PartText(7, 1, "a", false)];
    var v3 := View(map[7 := Part("a", false, 1, "a")], {}, {2}, {1});
    ComesAfter(h2, PartText(7, 1, "a", false), 7, v2, "", "", 0, {1});
    assert h2 + [PartText(7, 1, "a", false)] == h3 && "" + Adds(v2, PartText(7, 1, "a", false), 7) == "a";
    assert Next(v2, PartText(7, 1, "a", false)) == v3;
    var h4 := [Message(1, Assistant, None), Message(2, User, None), PartText(7, 1, "a", false),
        PartText(7, 2, "a", false)];
    var v4 := View(map[], {7}, {2}, {1});
    ComesAfter(h3, PartText(7, 2, "a", false), 7, v3, "a", "a", 1, {1});
    assert h3 + [PartText(7, 2, "a", false)] == h4 && "a" + Adds(v3, PartText(7, 2, "a", false), 7) == "a";
    assert Next(v3, PartText(7, 2, "a", false)) == v4;
    ComesToAccount(h4, 7, v4, "a", "a", 2, {1});
  }

  /** A message marked as both: its later text is never given out. */
  lemma MessageChangesRole()
    ensures Account([Message(1, Assistant, None), PartText(7, 1, "a", false), Message(1, User, None),
              PartText(7, 1, "ab", false)], 7, "a", "ab", "")
  {
    hide RunView, OutOf, TextOf, MessageOf, Marked, Comes;
    assert Comes([], 7, START, "", "", 0, {}) by { ComesFromNothing(); }
    var h1 := [Message(1, Assistant, None)];
    var v1 := View(map[], {}, {}, {1});
    ComesAfter([], Message(1, Assistant, None), 7, START, "", "", 0, {});
    assert [] + [Message(1, Assistant, None)] == h1 && "" + Adds(START, Message(1, Assistant, None), 7) == "";
    assert Next(START, Message(1, Assistant, None)) == v1;
    var h2 := [Message(1, Assistant, None), PartText(7, 1, "a", false)];
    var v2 := View(map[7 := Part("a", false, 1, "a")], {}, {}, {1});
    ComesAfter(h1, PartText(7, 1, "a", false), 7, v1, "", "", 0, {1});
    assert h1 + [PartText(7, 1, "a", false)] == h2 && "" + Adds(v1, PartText(7, 1, "a", false), 7) == "a";
    assert Next(v1, PartText(7, 1, "a", false)) == v2;
    var h3 := [Message(1, Assistant, None), PartText(7, 1, "a", false), Message(1, User, None)];
    var v3 := View(map[], {7}, {1}, {1});
    ComesAfter(h2, Message(1, User, None), 7, v2, "a", "a", 1, {1});
    assert h2 + [Message(1, User, None)] == h3 && "a" + Adds(v2, Message(1, User, None), 7) == "a";
    assert Next(v2, Message(1, User, None)) == v3;
    var h4 := [Message(1, Assistant, None), PartText(7, 1, "a", false), Message(1, User, None),
        PartText(7, 1, "ab", false)];
    var v4 := View(map[], {7}, {1}, {1});
    ComesAfter(h3, PartText(7, 1, "ab", false), 7, v3, "a", "a", 1, {1});
    assert h3 + [PartText(7, 1, "ab", false)] == h4 && "a" + Adds(v3, PartText(7, 1, "ab", false), 7) == "a";
    assert Next(v3, PartText(7, 1, "ab", false)) == v4;
    ComesToAccount(h4, 7, v4, "a", "ab", 1, {1});
  }

  /** A user message without an id filters the parts whose message is not known yet: their later deltas are lost. */
  lemma UserMessageHasNoId()
    ensures Account([Message(1, Assistant, None), Delta(7, "a"), Message(0, User, None), PartText(7, 1, "a", false),
              Delta(7, "b")], 7, "a", "ab", "a")
  {
    hide RunView, OutOf, TextOf, MessageOf, Marked, Comes;
    assert Comes([], 7, START, "", "", 0, {}) by { ComesFromNothing(); }
    var h1 := [Message(1, Assistant, None)];
    var v1 := View(map[], {}, {}, {1});
    ComesAfter([], Message(1, Assistant, None), 7, START, "", "", 0, {});
    assert [] + [Message(1, Assistant, None)] == h1 && "" + Adds(START, Message(1, Assistant, None), 7) == "";
    assert Next(START, Message(1, Assistant, None)) == v1;
    var h2 := [Message(1, Assistant, None), Delta(7, "a")];
    var v2 := View(map[7 := Part("a", false, 0, "")], {}, {}, {1});
    ComesAfter(h1, Delta(7, "a"), 7, v1, "", "", 0, {1});
    assert h1 + [Delta(7, "a")] == h2 && "" + Adds(v1, Delta(7, "a"), 7) == "";
    assert "" + "a" == "a";
    assert Next(v1, Delta(7, "a")) == v2;
    var h3 := [Message(1, Assistant, None), Delta(7, "a"), Message(0, User, None)];
    var v3 := View(map[], {7}, {0}, {1});
    ComesAfter(h2, Message(0, User, None), 7, v2, "", "a", 0, {1});
    assert h2 + [Message(0, User, None)] == h3 && "" + Adds(v2, Message(0, User, None), 7) == "";
    assert Next(v2, Message(0, User, None)) == v3;
    var h4 := [Message(1, Assistant, None), Delta(7, "a"), Message(0, User, None), PartText(7, 1, "a", false)];
    var v4 := View(map[7 := Part("a", false, 1, "a")], {7}, {0}, {1});
    ComesAfter(h3, PartText(7, 1, "a", false), 7, v3, "", "a", 0, {1});
    assert h3 + [PartText(7, 1, "a", false)] == h4 && "" + Adds(v3, PartText(7, 1, "a", false), 7) == "a";
    assert Next(v3, PartText(7, 1, "a", false)) == v4;
    var h5 := [Message(1, Assistant, None), Delta(7, "a"), Message(0, User, None), PartText(7, 1, "a", false),
        Delta(7, "b")];
    var v5 := View(map[7 := Part("a", false, 1, "a")], {7}, {0}, {1});
    ComesAfter(h4, Delta(7, "b"), 7, v4, "a", "a", 1, {1});
    assert h4 + [Delta(7, "b")] == h5 && "a" + Adds(v4, Delta(7, "b"), 7) == "a";
    assert "a" + "b" == "ab";
    assert Next(v4, Delta(7, "b")) == v5;
    ComesToAccount(h5, 7, v5, "a", "ab", 1, {1});
  }

  /** A text that is replaced by one that does not extend it: both are given out. */
  lemma TextIsReplaced()
    ensures Account([Message(1, Assistant, None), PartText(7, 1, "a", false), PartText(7, 1, "b", false)], 7, "ab", "b",
              "b")
  {
    hide RunView, OutOf, TextOf, MessageOf, Marked, Comes;
    assert Comes([], 7, START, "", "", 0, {}) by { ComesFromNothing(); }
    var h1 := [Message(1, Assistant, None)];
    var v1 := View(map[], {}, {}, {1});
    ComesAfter([], Message(1, Assistant, None), 7, START, "", "", 0, {});
    assert [] + [Message(1, Assistant, None)] == h1 && "" + Adds(START, Message(1, Assistant, None), 7) == "";
    assert Next(START, Message(1, Assistant, None)) == v1;
    var h2 := [Message(1, Assistant, None), PartText(7, 1, "a", false)];
    var v2 := View(map[7 := Part("a", false, 1, "a")], {}, {}, {1});
    ComesAfter(h1, PartText(7, 1, "a", false), 7, v1, "", "", 0, {1});
    assert h1 + [PartText(7, 1, "a", false)] == h2 && "" + Adds(v1, PartText(7, 1, "a", false), 7) == "a";
    assert Next(v1, PartText(7, 1, "a", false)) == v2;
    var h3 := [Message(1, Assistant, None), PartText(7, 1, "a", false), PartText(7, 1, "b", false)];
    var v3 := View(map[7 := Part("b", false, 1, "b")], {}, {}, {1});
    ComesAfter(h2, PartText(7, 1, "b", false), 7, v2, "a", "a", 1, {1});
    assert !IsPrefix("a", "b") by { assert "b"[..1][0] != "a"[0]; }
    assert h2 + [PartText(7, 1, "b", false)] == h3 && "a" + Adds(v2, PartText(7, 1, "b", false), 7) == "ab";
    assert Next(v2, PartText(7, 1, "b", false)) == v3;
    ComesToAccount(h3, 7, v3, "ab", "b", 1, {1});
  }

  lemma ComesToAccount(h: seq<Event>, p: Id, v: View, given: string, text: string, message: Id, assistants: set<Id>)
    requires Comes(h, p, v, given, text, message, assistants)
    ensures Account(h, p, given, if message != 0 && message in assistants then text else "", EmittedIn(v.parts, p))
  {
  }

  lemma ComesFromNothing()
    ensures Comes([], 7, START, "", "", 0, {})
  {
  }
}
