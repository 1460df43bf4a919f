/** Activity counts taken from an agent's event stream. */
module Metrics {
  import opened Options
  import Shell

  datatype Category = Wait | TestLint | Edit | Read | Git | Other

  datatype Counts = Counts(wait: nat, testLint: nat, edit: nat, reading: nat, git: nat, other: nat) {
    function Add(c: Category): Counts {
      match c
      case Wait => this.(wait := wait + 1)
      case TestLint => this.(testLint := testLint + 1)
      case Edit => this.(edit := edit + 1)
      case Read => this.(reading := reading + 1)
      case Git => this.(git := git + 1)
      case Other => this.(other := other + 1)
    }

    function Of(c: Category): nat {
      match c
      case Wait => wait
      case TestLint => testLint
      case Edit => edit
      case Read => reading
      case Git => git
      case Other => other
    }

    function Total(): nat { wait + testLint + edit + reading + git + other }
  }

  /**
   * What kind of item it is: a shell command, another tool with its category, the
   * agent's message, or nothing counted.
   */
  datatype Item = Command(id: nat, command: string) | Tool(id: nat, category: Category) | AgentMessage | OtherItem

  datatype Event = Started(item: Item, at: int) | Completed(item: Item, at: int) | Ignored

  predicate IsTool(i: Item) { i.Command? || i.Tool? }

  /** `unwrap` takes a shell wrapper off a command; `classify` is the leading-verb heuristic. */
  datatype Heuristics = Heuristics(unwrap: string -> string, classify: string -> Category)

  // ----- what a stream amounts to -----

  /** A finished command, other tool or message of the agent is one round-trip of the model. */
  predicate CountsRoundtrip(e: Event) { e.Completed? && !e.item.OtherItem? }
  predicate CountsToolCall(e: Event) { e.Completed? && (e.item.Command? || e.item.Tool?) }
  predicate StartsTool(e: Event) { e.Started? && (e.item.Command? || e.item.Tool?) }

  /** What a tool call counts as: each chained command by its leading verb, and one `Other` where there is none. */
  function CategoriesOf(hs: Heuristics, e: Event): seq<Category> {
    if !CountsToolCall(e) then []
    else if e.item.Tool? then [e.item.category]
    else
      var verbs := Classified(hs, e.item.command);
      if verbs == [] then [Other] else verbs
  }

  function Classified(hs: Heuristics, command: string): seq<Category> {
    var subs := Shell.Commands("", hs.unwrap(command), Shell.OUTSIDE);
    seq(|subs|, k requires 0 <= k < |subs| => hs.classify(subs[k]))
  }

  /** All the categories a stream counts. */
  function Tallied(hs: Heuristics, es: seq<Event>): seq<Category> {
    if es == [] then [] else Tallied(hs, es[..|es| - 1]) + CategoriesOf(hs, es[|es| - 1])
  }

  /** Each counter is how often its category came up. */
  ghost predicate Counted(c: Counts, tallied: seq<Category>) {
    c.Total() == |tallied| && forall k: Category :: c.Of(k) == multiset(tallied)[k]
  }

  lemma CountedAdds(c: Counts, tallied: seq<Category>, k: Category)
    requires Counted(c, tallied)
    ensures Counted(c.Add(k), tallied + [k])
  {
    assert multiset(tallied + [k]) == multiset(tallied) + multiset{k};
  }

  function Roundtrips(es: seq<Event>): nat {
    if es == [] then 0 else Roundtrips(es[..|es| - 1]) + if CountsRoundtrip(es[|es| - 1]) then 1 else 0
  }

  function ToolCalls(es: seq<Event>): nat {
    if es == [] then 0 else ToolCalls(es[..|es| - 1]) + if CountsToolCall(es[|es| - 1]) then 1 else 0
  }

  /** When each tool still running was last started. */
  function RunningSince(es: seq<Event>): map<nat, int> {
    if es == [] then map[]
    else
      var before, e := RunningSince(es[..|es| - 1]), es[|es| - 1];
      if StartsTool(e) then before[e.item.id := e.at]
      else if CountsToolCall(e) then before - {e.item.id}
      else before
  }

  /** The tools' running times, from last start to completion, added up. */
  function WaitedMs(es: seq<Event>): nat {
    if es == [] then 0
    else
      var init, e := es[..|es| - 1], es[|es| - 1];
      var since := RunningSince(init);
      WaitedMs(init) + if CountsToolCall(e) && e.item.id in since && e.at > since[e.item.id]
          then e.at - since[e.item.id] else 0
  }

  lemma Push(hs: Heuristics, es: seq<Event>, e: Event)
    ensures Roundtrips(es + [e]) == Roundtrips(es) + if CountsRoundtrip(e) then 1 else 0
    ensures ToolCalls(es + [e]) == ToolCalls(es) + if CountsToolCall(e) then 1 else 0
    ensures Tallied(hs, es + [e]) == if CountsToolCall(e) then Tallied(hs, es) + CategoriesOf(hs, e)
              else Tallied(hs, es)
    ensures RunningSince(es + [e]) ==
            if StartsTool(e) then RunningSince(es)[e.item.id := e.at]
            else if CountsToolCall(e) then RunningSince(es) - {e.item.id}
            else RunningSince(es)
    ensures WaitedMs(es + [e]) ==
            WaitedMs(es) + if CountsToolCall(e) && e.item.id in RunningSince(es) && e.at > RunningSince(es)[e.item.id]
                then e.at - RunningSince(es)[e.item.id] else 0
  {
    assert (es + [e])[..|es|] == es;
  }

  class Accumulator {
    const hs: Heuristics
    var modelRoundtrips: nat
    var toolCalls: nat
    var categories: Counts
    var subprocessWaitMs: nat
    var starts: map<nat, int>

    constructor (hs: Heuristics)
      ensures Measures([]) && this.hs == hs
    {
      this.hs := hs;
      modelRoundtrips, toolCalls, subprocessWaitMs := 0, 0, 0;
      categories, starts := Counts(0, 0, 0, 0, 0, 0), map[];
    }

    /** The fields are exactly what the events so far amount to. */
    ghost predicate Measures(es: seq<Event>)
      reads this
    {
      && modelRoundtrips == Roundtrips(es) && toolCalls == ToolCalls(es)
      && Counted(categories, Tallied(hs, es))
      && starts == RunningSince(es) && subprocessWaitMs == WaitedMs(es)
    }

    method ClassifyToolCommand(command: string) returns (categories: seq<Category>)
      ensures categories == Classified(hs, command)
    {
      var subs := Shell.SplitCompoundCommand(hs.unwrap(command));
      categories := [];
      for k := 0 to |subs|
        invariant categories == Classified(hs, command)[..k]
      {
        categories := categories + [hs.classify(subs[k])];
      }
    }

    method CountCategories(e: Event, ghost before: seq<Category>)
      requires CountsToolCall(e) && Counted(categories, before)
      modifies this`categories
      ensures Counted(categories, before + CategoriesOf(hs, e))
    {
      hide Counted;
      if e.item.Command? {
        var cats := ClassifyToolCommand(e.item.command);
        if cats == [] { cats := [Other]; }
        assert before + cats[..0] == before;
        for k := 0 to |cats|
          invariant Counted(categories, before + cats[..k])
        {
          CountedAdds(categories, before + cats[..k], cats[k]);
          assert before + cats[..k + 1] == before + cats[..k] + [cats[k]];
          categories := categories.Add(cats[k]);
        }
        assert cats[..|cats|] == cats;
      } else {
        CountedAdds(categories, before, e.item.category);
        categories := categories.Add(e.item.category);
      }
    }

    /** `onItem`: tool calls never exceed the model's round-trips nor the classified commands. */
    method OnItem(e: Event, ghost es: seq<Event>)
      requires Measures(es)
      modifies this
      ensures Measures(es + [e])
      ensures toolCalls <= modelRoundtrips && toolCalls <= categories.Total()
    {
      hide Roundtrips, ToolCalls, Tallied, CategoriesOf, RunningSince, WaitedMs, Shell.Commands;
      Push(hs, es, e);
      CallsAreBounded(hs, es + [e]);
      if e.Started? && IsTool(e.item) {
        starts := starts[e.item.id := e.at];
      }
      if e.Completed? && (IsTool(e.item) || e.item.AgentMessage?) {
        modelRoundtrips := modelRoundtrips + 1;
        if !IsTool(e.item) { return; }
        toolCalls := toolCalls + 1;
        CountCategories(e, Tallied(hs, es));
        assert e.item.id !in starts ==> starts - {e.item.id} == starts;
        if e.item.id in starts {
          var d := e.at - starts[e.item.id];
          if d > 0 { subprocessWaitMs := subprocessWaitMs + d; }
          starts := starts - {e.item.id};
        }
      }
    }
  }

  lemma {:induction false} CallsAreBounded(hs: Heuristics, es: seq<Event>)
    ensures ToolCalls(es) <= Roundtrips(es) && ToolCalls(es) <= |Tallied(hs, es)|
    decreases |es|
  {
    if es != [] { CallsAreBounded(hs, es[..|es| - 1]); }
  }

  // ----- per-round tokens -----

  /** `PerRoundTokens` */
  function PerRoundTokens(current: int, prior: int, cumulative: bool): int {
    if !cumulative || prior <= 0 || current < prior then current else current - prior
  }

  /** The counter before round `k`; nothing was reported before the first. */
  function Prior(counters: seq<int>, k: nat): int
    requires k <= |counters|
  {
    if k == 0 then 0 else counters[k - 1]
  }

  /** What the rounds before `k` are reported to have cost. */
  function SumOfRounds(counters: seq<int>, k: nat, cumulative: bool): int
    requires k <= |counters|
  {
    if k == 0 then 0
    else SumOfRounds(counters, k - 1, cumulative) +
         PerRoundTokens(counters[k - 1], Prior(counters, k - 1), cumulative)
  }

  /** Before round `k` the counter started again. */
  predicate StartsAgain(counters: seq<int>, k: nat)
    requires k < |counters|
  {
    Prior(counters, k) < 0 || counters[k] < Prior(counters, k)
  }

  /** What the counter stood at each time before it started again. */
  function LeftBehind(counters: seq<int>, k: nat): int
    requires k <= |counters|
  {
    if k == 0 then 0
    else LeftBehind(counters, k - 1) + if StartsAgain(counters, k - 1) then Prior(counters, k - 1) else 0
  }

  function SumOf(counters: seq<int>): int {
    if counters == [] then 0 else SumOf(counters[..|counters| - 1]) + counters[|counters| - 1]
  }

  /**
   * Over any session the rounds add up to the counter and what it stood at before each new start,
   * so to the counter alone when it never shrinks; counters of single rounds just add up.
   */
  lemma {:induction false} RoundsAddUp(counters: seq<int>, k: nat)
    requires k <= |counters|
    ensures SumOfRounds(counters, k, true) == Prior(counters, k) + LeftBehind(counters, k)
    ensures (forall i :: 0 <= i < k ==> !StartsAgain(counters, i)) ==> LeftBehind(counters, k) == 0
    ensures SumOfRounds(counters, k, false) == SumOf(counters[..k])
  {
    if k > 0 {
      RoundsAddUp(counters, k - 1);
      assert counters[..k][..k - 1] == counters[..k - 1];
    }
  }
}
