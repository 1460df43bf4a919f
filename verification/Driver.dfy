/** The loop that answers a run's approval gates on the operator's behalf. */
module Driver {
  import opened Options

  const MAX_FIX_ROUNDS: nat := 3

  /** `id` 0 is the empty id. */
  datatype Finding = Finding(id: nat, actionable: bool)

  datatype Status = Running | ParkedForApproval | ParkedAfterFix | Other(nat)

  /** `findings` is None when the stored findings do not parse; `tripped` is the convergence guard's verdict. */
  datatype Step = Step(name: nat, status: Status, findings: Option<seq<Finding>>, tripped: bool, rounds: nat,
      fixRounds: nat) {
    predicate Actionable() {
      findings.Some? && exists f :: f in findings.value && f.actionable
    }

    function Key(): GateKey { GateKey(name, status, fixRounds) }
  }

  datatype GateKey = GateKey(name: nat, status: Status, fixRounds: nat)

  /** Two gates are the same exactly when step, status and fix round are. */
  lemma KeyTells(a: Step, b: Step)
    ensures a.Key() == b.Key() <==> a.name == b.name && a.status == b.status && a.fixRounds == b.fixRounds
  {
  }

  datatype Run = Run(terminal: bool, noFix: bool, ciReady: bool, steps: seq<Step>)

  /** `awaitingStep`: the first parked step. */
  function Awaiting(steps: seq<Step>): Option<Step> {
    if steps == [] then None
    else if Parked(steps[0]) then Some(steps[0])
    else Awaiting(steps[1..])
  }

  /** It is the first that waits for an answer. */
  lemma {:induction false} AwaitingIsFirst(steps: seq<Step>)
    ensures match Awaiting(steps)
            case None => forall i :: 0 <= i < |steps| ==> steps[i].status !in {ParkedForApproval, ParkedAfterFix}
            case Some(gate) =>
              && gate.status in {ParkedForApproval, ParkedAfterFix}
              && exists i :: 0 <= i < |steps| && steps[i] == gate
                       && forall j :: 0 <= j < i ==> steps[j].status !in {ParkedForApproval, ParkedAfterFix}
  {
    if steps != [] && !Parked(steps[0]) {
      AwaitingIsFirst(steps[1..]);
      match Awaiting(steps[1..])
      case None =>
        forall i | 0 <= i < |steps| ensures steps[i].status !in {ParkedForApproval, ParkedAfterFix} {
          if i > 0 { assert steps[i] == steps[1..][i - 1]; }
        }
      case Some(gate) =>
        var i :| 0 <= i < |steps[1..]| && steps[1..][i] == gate
          && forall j :: 0 <= j < i ==> steps[1..][j].status !in {ParkedForApproval, ParkedAfterFix};
        assert steps[i + 1] == gate;
        forall j | 0 <= j < i + 1 ensures steps[j].status !in {ParkedForApproval, ParkedAfterFix} {
          if j > 0 { assert steps[j] == steps[1..][j - 1]; }
        }
    }
  }

  lemma {:induction false} AwaitingIsAStep(steps: seq<Step>)
    ensures Awaiting(steps).Some? ==> Awaiting(steps).value in steps
  {
    if steps != [] { AwaitingIsAStep(steps[1..]); }
  }

  datatype Action = Approve | Fix(ids: seq<nat>)

  /** Ids of all findings that have one. */
  function Ids(fs: seq<Finding>): seq<nat> {
    if fs == [] then []
    else if fs[0].id != 0 then [fs[0].id] + Ids(fs[1..])
    else Ids(fs[1..])
  }

  /** How many of the first `n` findings have an id. */
  function IdsBefore(fs: seq<Finding>, n: nat): nat
    requires n <= |fs|
  {
    if n == 0 then 0 else IdsBefore(fs, n - 1) + if fs[n - 1].id != 0 then 1 else 0
  }

  /**
   * As many ids as findings that have one, and each such finding's id in the place
   * that leaves room for just those before it: all of them, in order.
   */
  ghost predicate Selects(fs: seq<Finding>, ids: seq<nat>) {
    |ids| == IdsBefore(fs, |fs|) && forall i: nat :: i < |fs| ==> Placed(fs, ids, i)
  }

  predicate Placed(fs: seq<Finding>, ids: seq<nat>, i: nat)
    requires i < |fs|
  {
    fs[i].id != 0 ==> IdsBefore(fs, i) < |ids| && ids[IdsBefore(fs, i)] == fs[i].id
  }

  lemma {:induction false} IdsBeforeTail(fs: seq<Finding>, n: nat)
    requires n < |fs|
    ensures IdsBefore(fs, n + 1) == IdsBefore(fs[1..], n) + if fs[0].id != 0 then 1 else 0
  {
    if n > 0 { IdsBeforeTail(fs, n - 1); }
  }

  lemma {:induction false} IdsEmpty(fs: seq<Finding>)
    ensures Ids(fs) == [] <==> forall i :: 0 <= i < |fs| ==> fs[i].id == 0
  {
    if fs != [] {
      IdsEmpty(fs[1..]);
      if fs[0].id == 0 {
        assert forall i :: 1 <= i < |fs| ==> fs[i] == fs[1..][i - 1];
        assert forall i :: 0 <= i < |fs[1..]| ==> fs[1..][i] == fs[i + 1];
      }
    }
  }

  lemma SelectsCons(f: Finding, fs: seq<Finding>, ids: seq<nat>)
    requires Selects(fs, ids)
    ensures Selects([f] + fs, if f.id != 0 then [f.id] + ids else ids)
  {
    var longer, more := [f] + fs, if f.id != 0 then [f.id] + ids else ids;
    assert longer[1..] == fs && IdsBefore(longer, 0) == 0;
    hide IdsBefore;
    IdsBeforeTail(longer, |fs|);
    forall i: nat | i < |longer|
      ensures Placed(longer, more, i)
    {
      if i > 0 {
        IdsBeforeTail(longer, i - 1);
        assert Placed(fs, ids, i - 1);
      }
    }
  }

  /** The findings selected are all that have an id. */
  lemma {:induction false} IdsSelect(fs: seq<Finding>)
    ensures Selects(fs, Ids(fs))
  {
    if fs != [] {
      IdsSelect(fs[1..]);
      SelectsCons(fs[0], fs[1..], Ids(fs[1..]));
      assert [fs[0]] + fs[1..] == fs;
    }
  }

  /** `gateResolution`: None hands the gate back. */
  function GateResolution(gate: Step, used: nat): Option<Action> {
    if !gate.Actionable() then Some(Approve)
    else if gate.tripped || used >= MAX_FIX_ROUNDS || Ids(gate.findings.value) == [] then None
    else Some(Fix(Ids(gate.findings.value)))
  }

  // ----- the conversation with the daemon -----

  datatype Reply = Accepted | AcceptedUnheard | Lost

  /** What the daemon says next, and what becomes of an answer given to it; `run` None is "not found". */
  datatype Turn = NextFails | Shows(run: Option<Run>, reply: Reply)

  datatype Entry =
    | Seen(run: Run)
    | Answer(gate: Step, noFix: bool, action: Action, accepted: bool)

  datatype Result = Ended(run: Run) | HandedBack(run: Run) | CiReady(run: Run) | Failed

  /** Fix answers for a step that the daemon accepted. */
  function AcceptedFixes(trace: seq<Entry>, step: nat): nat {
    if trace == [] then 0
    else AcceptedFixes(trace[..|trace| - 1], step) + FixOf(trace[|trace| - 1], step)
  }

  function FixOf(e: Entry, step: nat): nat {
    if e.Answer? && e.accepted && e.action.Fix? && e.gate.name == step then 1 else 0
  }

  lemma AcceptedFixesPush(trace: seq<Entry>, e: Entry, step: nat)
    ensures AcceptedFixes(trace + [e], step) == AcceptedFixes(trace, step) + FixOf(e, step)
  {
    assert (trace + [e])[..|trace|] == trace;
  }

  /** No step was ever granted more than three fix rounds. */
  ghost predicate Budgeted(trace: seq<Entry>) {
    forall step :: AcceptedFixes(trace, step) <= 3
  }

  /** Every snapshot counts at least the fixes accepted in `trace`. */
  ghost predicate Counts(feed: seq<Turn>, trace: seq<Entry>) {
    forall t, s :: t in feed && t.Shows? && t.run.Some? && s in t.run.value.steps ==>
        s.fixRounds >= AcceptedFixes(trace, s.name)
  }

  /** The snapshot shows another gate than `key`, or none. */
  predicate Leaves(e: Entry, key: GateKey) {
    e.Seen? && match Awaiting(e.run.steps) { case Some(g) => g.Key() != key case None => true }
  }

  ghost predicate Left(trace: seq<Entry>, i: nat, stop: nat)
    requires i < stop <= |trace|
  {
    trace[i].Answer? && exists k :: i < k < stop && Leaves(trace[k], trace[i].gate.Key())
  }

  predicate SameGate(a: Entry, b: Entry) {
    a.Answer? && b.Answer? && a.gate.Key() == b.gate.Key()
  }

  /** From `from` on, two answers to one gate have a snapshot between them that shows another gate or none. */
  ghost predicate NeverTwice(trace: seq<Entry>, from: nat) {
    forall i: nat, j: nat :: from <= i < j < |trace| && SameGate(trace[i], trace[j]) ==> Left(trace, i, j)
  }

  /**
   * An answer follows the snapshot that shows its gate, in a run not over; approving
   * needs a clean gate or a no-fix run; fixing selects every identified finding of
   * an actionable gate that the guard did not trip.
   */
  ghost predicate Justified(trace: seq<Entry>, i: nat)
    requires i < |trace|
  {
    trace[i].Answer? ==>
      var a := trace[i];
      && i > 0 && trace[i - 1].Seen?
      && !trace[i - 1].run.terminal && trace[i - 1].run.noFix == a.noFix
           && Awaiting(trace[i - 1].run.steps) == Some(a.gate)
      && (a.action.Approve? ==> a.noFix || !HasActionable(a.gate.findings))
      && (a.action.Fix? ==>
            && !a.noFix && HasActionable(a.gate.findings) && !a.gate.tripped && a.gate.fixRounds < 3
            && a.action.ids != [] && Selects(a.gate.findings.value, a.action.ids))
  }

  predicate HasActionable(findings: Option<seq<Finding>>) {
    findings != None && exists i :: 0 <= i < |findings.value| && findings.value[i].actionable
  }

  ghost predicate AllJustified(trace: seq<Entry>, from: nat) {
    forall i: nat :: from <= i < |trace| ==> Justified(trace, i)
  }

  predicate FixAnswer(e: Entry, step: nat) {
    e.Answer? && e.action.Fix? && e.gate.name == step
  }

  /** How often the step was told to be fixed from `i` on. */
  function Fixes(trace: seq<Entry>, i: nat, step: nat): nat {
    if |trace| <= i then 0
    else Fixes(trace[..|trace| - 1], i, step) + if FixAnswer(trace[|trace| - 1], step) then 1 else 0
  }

  /** At some fix since `from` the gate stood at so many rounds that they make `n` with that fix and those after it. */
  ghost predicate Spent(trace: seq<Entry>, from: nat, step: nat, n: nat) {
    exists i: nat ::
      from <= i < |trace| && FixAnswer(trace[i], step) && trace[i].gate.fixRounds + Fixes(trace, i, step) >= n
  }

  /**
   * An actionable gate nothing more may be done about: guarded, nothing to select,
   * or its three fix rounds are spent.
   */
  ghost predicate Stuck(gate: Step, trace: seq<Entry>, from: nat) {
    && HasActionable(gate.findings)
    && (|| gate.tripped || (forall i :: 0 <= i < |gate.findings.value| ==> gate.findings.value[i].id == 0)
        || gate.fixRounds >= 3 || Spent(trace, from, gate.name, 3))
  }

  lemma SpentGrows(trace: seq<Entry>, e: Entry, from: nat)
    requires from <= |trace|
    ensures forall step, n: nat ::
              Spent(trace, from, step, n) ==> Spent(trace + [e], from, step, n + if FixAnswer(e, step) then 1 else 0)
    ensures forall step :: FixAnswer(e, step) ==> Spent(trace + [e], from, step, e.gate.fixRounds + 1)
  {
    var t := trace + [e];
    assert t[|trace|] == e && t[..|trace|] == trace;
    forall step, n: nat | Spent(trace, from, step, n)
      ensures Spent(t, from, step, n + if FixAnswer(e, step) then 1 else 0)
    {
      var i: nat :|
        from <= i < |trace| && FixAnswer(trace[i], step) && trace[i].gate.fixRounds + Fixes(trace, i, step) >= n;
      assert FixAnswer(t[i], step);
    }
    forall step | FixAnswer(e, step)
      ensures Spent(t, from, step, e.gate.fixRounds + 1)
    {
      assert FixAnswer(t[|trace|], step) && Fixes(t, |trace|, step) == 1;
    }
  }

  // ----- nothing is passed over -----

  /** The runs shown, in order. */
  function SeenRuns(trace: seq<Entry>): seq<Run> {
    if trace == [] then []
    else SeenRuns(trace[..|trace| - 1]) + match trace[|trace| - 1] { case Seen(run) => [run] case _ => [] }
  }

  function ShownRuns(feed: seq<Turn>): seq<Run> {
    if feed == [] then []
    else ShownRuns(feed[..|feed| - 1])
         + match feed[|feed| - 1] { case Shows(Some(run), _) => [run] case _ => [] }
  }

  lemma RunsPush(trace: seq<Entry>, e: Entry)
    ensures SeenRuns(trace + [e]) == SeenRuns(trace) + if e.Seen? then [e.run] else []
  {
    assert (trace + [e])[..|trace|] == trace;
  }

  lemma ShownPush(feed: seq<Turn>, k: nat)
    requires k < |feed|
    ensures ShownRuns(feed[..k + 1]) == ShownRuns(feed[..k]) + match feed[k] {
              case Shows(Some(run), _) => [run] case _ => [] }
  {
    assert feed[..k + 1][..k] == feed[..k];
  }

  /** An answer of this loop to the gate that every snapshot since has shown again. */
  ghost predicate Awaited(trace: seq<Entry>, start: nat, i: nat, key: GateKey)
    requires i <= |trace|
  {
    exists j: nat :: start <= j < i && AnswerTo(trace[j], key) && forall k :: j < k < i ==> !Leaves(trace[k], key)
  }

  /** Snapshot `i` calls for nothing: the run is not over, and it shows no gate and no readiness, or an awaited gate. */
  ghost predicate WaitsOn(trace: seq<Entry>, start: nat, i: nat)
    requires i < |trace| && trace[i].Seen?
  {
    && !trace[i].run.terminal
    && match Awaiting(trace[i].run.steps)
       case None => !trace[i].run.ciReady
       case Some(gate) => Awaited(trace, start, i, gate.Key())
  }

  /** Snapshot `i` is followed by an answer to its gate, or by the next snapshot where it calls for none. */
  ghost predicate Met(trace: seq<Entry>, start: nat, i: nat)
    requires i < |trace|
  {
    trace[i].Seen? && i + 1 < |trace| ==>
      || (&& trace[i + 1].Answer? && Awaiting(trace[i].run.steps).Some?
          && trace[i + 1].gate.Key() == Awaiting(trace[i].run.steps).value.Key())
      || (trace[i + 1].Seen? && WaitsOn(trace, start, i))
  }

  ghost predicate AllMet(trace: seq<Entry>, start: nat) {
    forall i: nat :: start <= i < |trace| ==> Met(trace, start, i)
  }

  /** What the loop last did leaves nothing unmet: the last snapshot shows no gate, or one that is awaited. */
  ghost predicate Poised(trace: seq<Entry>, start: nat, pending: Option<GateKey>) {
    && (pending.Some? ==> Awaited(trace, start, |trace|, pending.value))
    && (|trace| > start && trace[|trace| - 1].Seen? ==>
          && !trace[|trace| - 1].run.terminal
          && match Awaiting(trace[|trace| - 1].run.steps)
             case None => !trace[|trace| - 1].run.ciReady
             case Some(gate) => pending == Some(gate.Key()))
  }

  lemma AwaitedStays(trace: seq<Entry>, e: Entry, start: nat, i: nat, key: GateKey)
    requires i <= |trace|
    ensures Awaited(trace + [e], start, i, key) <==> Awaited(trace, start, i, key)
  {
    var t := trace + [e];
    assert forall k :: 0 <= k < |trace| ==> t[k] == trace[k];
    if Awaited(trace, start, i, key) {
      var j: nat :| start <= j < i && AnswerTo(trace[j], key) && forall k :: j < k < i ==> !Leaves(trace[k], key);
      assert AnswerTo(t[j], key);
    }
    if Awaited(t, start, i, key) {
      var j: nat :| start <= j < i && AnswerTo(t[j], key) && forall k :: j < k < i ==> !Leaves(t[k], key);
      assert AnswerTo(trace[j], key);
      forall k | j < k < i ensures !Leaves(trace[k], key) { assert !Leaves(t[k], key); }
    }
  }

  lemma AwaitedLonger(trace: seq<Entry>, start: nat, i: nat, key: GateKey)
    requires i < |trace| && trace[i].Seen?
    ensures Awaited(trace, start, i + 1, key) <==> Awaited(trace, start, i, key) && !Leaves(trace[i], key)
  {
    if Awaited(trace, start, i, key) && !Leaves(trace[i], key) {
      var j: nat :| start <= j < i && AnswerTo(trace[j], key) && forall k :: j < k < i ==> !Leaves(trace[k], key);
      assert AnswerTo(trace[j], key);
    }
    if Awaited(trace, start, i + 1, key) {
      var j: nat :| start <= j < i + 1 && AnswerTo(trace[j], key) && forall k :: j < k < i + 1 ==>
          !Leaves(trace[k], key);
      assert j != i && AnswerTo(trace[j], key);
    }
  }

  lemma MetStays(trace: seq<Entry>, e: Entry, start: nat)
    requires AllMet(trace, start) && (|trace| > start ==> Met(trace + [e], start, |trace| - 1))
    ensures AllMet(trace + [e], start)
  {
    hide Awaited, Awaiting;
    var t := trace + [e];
    forall i: nat | start <= i < |t|
      ensures Met(t, start, i)
    {
      if i + 1 < |trace| {
        assert Met(trace, start, i) && t[i] == trace[i] && t[i + 1] == trace[i + 1];
        if trace[i].Seen? && Awaiting(trace[i].run.steps).Some? {
          AwaitedStays(trace, e, start, i, Awaiting(trace[i].run.steps).value.Key());
        }
      }
    }
  }

  /** The next snapshot comes; an awaited gate it does not show is awaited no more. */
  lemma SeenMeets(trace: seq<Entry>, run: Run, start: nat, pending: Option<GateKey>)
    requires AllMet(trace, start) && Poised(trace, start, pending)
    ensures AllMet(trace + [Seen(run)], start)
    ensures !run.terminal && pending.Some? && Awaiting(run.steps).Some?
              && Awaiting(run.steps).value.Key() == pending.value ==>
              Poised(trace + [Seen(run)], start, pending)
    ensures !run.terminal && Awaiting(run.steps).None? && !run.ciReady ==> Poised(trace + [Seen(run)], start, None)
  {
    hide Awaited, Awaiting;
    var e := Seen(run);
    var t := trace + [e];
    var n := |trace|;
    if n > start && trace[n - 1].Seen? && Awaiting(trace[n - 1].run.steps).Some? {
      AwaitedLonger(trace, start, n - 1, pending.value);
      AwaitedStays(trace, e, start, n - 1, pending.value);
    }
    assert n > start ==> t[n - 1] == trace[n - 1];
    MetStays(trace, e, start);
    if pending.Some? {
      AwaitedStays(trace, e, start, n, pending.value);
      AwaitedLonger(t, start, n, pending.value);
    }
  }

  lemma AnswerMeets(trace: seq<Entry>, run: Run, e: Entry, start: nat)
    requires AllMet(trace, start) && |trace| > start && trace[|trace| - 1] == Seen(run)
    requires Awaiting(run.steps).Some? && AnswerTo(e, Awaiting(run.steps).value.Key())
    ensures AllMet(trace + [e], start) && Poised(trace + [e], start, Some(e.gate.Key()))
  {
    var t := trace + [e];
    assert t[|trace| - 1] == trace[|trace| - 1];
    MetStays(trace, e, start);
    assert AnswerTo(t[|trace|], e.gate.Key());
  }

  /**
   * The snapshots taken so far are the feed's first `n`, all of them; a loop that
   * failed did so at the next or at its last answer.
   */
  ghost predicate Took(before: seq<Entry>, trace: seq<Entry>, feed: seq<Turn>, n: nat) {
    n <= |feed| && SeenRuns(trace) == SeenRuns(before) + ShownRuns(feed[..n])
  }

  lemma TookNext(before: seq<Entry>, trace: seq<Entry>, run: Run, feed: seq<Turn>, k: nat)
    requires Took(before, trace, feed, k) && k < |feed| && feed[k].Shows? && feed[k].run == Some(run)
    ensures Took(before, trace + [Seen(run)], feed, k + 1)
  {
    RunsPush(trace, Seen(run));
    ShownPush(feed, k);
  }

  lemma TookAnswer(before: seq<Entry>, trace: seq<Entry>, e: Entry, feed: seq<Turn>, k: nat)
    requires Took(before, trace, feed, k) && e.Answer?
    ensures Took(before, trace + [e], feed, k)
  {
    RunsPush(trace, e);
  }

  ghost predicate FailsAt(trace: seq<Entry>, feed: seq<Turn>, n: nat) {
    || n >= |feed| || feed[n].NextFails? || feed[n].run.None?
    || (trace != [] && trace[|trace| - 1].Answer? && n > 0 && feed[n - 1].Shows? && feed[n - 1].reply != Accepted)
  }

  predicate IsPrefix(a: seq<Entry>, b: seq<Entry>) {
    |a| <= |b| && b[..|a|] == a
  }

  // ----- how a loop opens -----

  /** The gate a loop answers at its first snapshot, if it answers any there. */
  function OpeningAnswer(feed: seq<Turn>, autoApprove: bool): Option<GateKey> {
    if !autoApprove || feed == [] || feed[0].NextFails? || feed[0].run.None? || feed[0].run.value.terminal then None
    else
      match Awaiting(feed[0].run.value.steps)
      case None => None
      case Some(gate) =>
        if feed[0].run.value.noFix || GateResolution(gate, gate.fixRounds).Some? then Some(gate.Key()) else None
  }

  /** An answer to that gate that no later snapshot of `trace` leaves behind. */
  ghost predicate Pending(trace: seq<Entry>, key: GateKey) {
    exists i: nat :: i < |trace| && AnswerTo(trace[i], key) && !Left(trace, i, |trace|)
  }

  predicate AnswerTo(e: Entry, key: GateKey) {
    e.Answer? && e.gate.Key() == key
  }

  /** A loop that began at `start` opened by answering a gate whose answer was still pending then. */
  ghost predicate Reanswers(trace: seq<Entry>, start: nat) {
    && |trace| > start + 1 && trace[start + 1].Answer?
    && Pending(trace[..start], trace[start + 1].gate.Key())
  }

  /** The first snapshot comes first; its gate is answered at once or the loop ends there. */
  predicate Opened(trace: seq<Entry>, start: nat, feed: seq<Turn>, autoApprove: bool) {
    && (|trace| > start ==>
         feed != [] && feed[0].Shows? && feed[0].run.Some? && trace[start] == Seen(feed[0].run.value))
    && match OpeningAnswer(feed, autoApprove)
       case Some(key) => |trace| > start + 1 && AnswerTo(trace[start + 1], key)
       case None => |trace| > start + 1 ==> !trace[start + 1].Answer? && Awaiting(feed[0].run.value.steps).None?
  }

  /** Every snapshot of the loop came from its feed. */
  ghost predicate FromFeed(trace: seq<Entry>, start: nat, feed: seq<Turn>) {
    forall i: nat :: start <= i < |trace| && trace[i].Seen? ==> Shown(feed, trace[i].run)
  }

  ghost predicate Shown(feed: seq<Turn>, run: Run) {
    exists k :: 0 <= k < |feed| && feed[k].Shows? && feed[k].run == Some(run)
  }

  /**
   * The joined trace separates answers exactly when the earlier one did and the loop
   * did not open with a pending gate.
   */
  lemma JoinedSeparates(before: seq<Entry>, trace: seq<Entry>, feed: seq<Turn>, autoApprove: bool)
    requires IsPrefix(before, trace) && NeverTwice(trace, |before|) && Opened(trace, |before|, feed, autoApprove)
    ensures NeverTwice(trace, 0) <==> NeverTwice(before, 0) && !Reanswers(trace, |before|)
    ensures Reanswers(trace, |before|) <==>
            OpeningAnswer(feed, autoApprove).Some? && Pending(before, OpeningAnswer(feed, autoApprove).value)
  {
    hide Left;
    var start := |before|;
    assert trace[..start] == before;
    if NeverTwice(trace, 0) {
      forall i: nat, j: nat | i < j < start && SameGate(before[i], before[j])
        ensures Left(before, i, j)
      {
        assert before[i] == trace[i] && before[j] == trace[j];
        LeftWithin(before, trace, i, j);
      }
      if Reanswers(trace, start) { ReanswerIsTwice(before, trace, feed, autoApprove); }
    }
    if NeverTwice(before, 0) && !Reanswers(trace, start) {
      forall i: nat, j: nat | i < j < |trace| && SameGate(trace[i], trace[j])
        ensures Left(trace, i, j)
      {
        if j < start {
          assert before[i] == trace[i] && before[j] == trace[j];
          LeftWithin(before, trace, i, j);
        } else if i < start {
          LeftAcross(before, trace, feed, autoApprove, i, j);
        }
      }
    }
  }

  lemma LeftWithin(before: seq<Entry>, trace: seq<Entry>, i: nat, stop: nat)
    requires IsPrefix(before, trace) && i < stop <= |before|
    ensures Left(before, i, stop) <==> Left(trace, i, stop)
  {
    assert forall k :: 0 <= k < |before| ==> before[k] == trace[k];
  }

  lemma ReanswerIsTwice(before: seq<Entry>, trace: seq<Entry>, feed: seq<Turn>, autoApprove: bool)
    requires IsPrefix(before, trace) && Opened(trace, |before|, feed, autoApprove) && Reanswers(trace, |before|)
    ensures !NeverTwice(trace, 0)
  {
    var start := |before|;
    assert trace[..start] == before;
    var key := trace[start + 1].gate.Key();
    var i: nat :| i < start && AnswerTo(before[i], key) && !Left(before, i, start);
    assert before[i] == trace[i];
    LeftWithin(before, trace, i, start);
    assert SameGate(trace[i], trace[start + 1]) && !Left(trace, i, start + 1);
  }

  lemma LeftAcross(before: seq<Entry>, trace: seq<Entry>, feed: seq<Turn>, autoApprove: bool, i: nat, j: nat)
    requires IsPrefix(before, trace) && Opened(trace, |before|, feed, autoApprove) && !Reanswers(trace, |before|)
    requires i < |before| <= j < |trace| && SameGate(trace[i], trace[j])
    ensures Left(trace, i, j)
  {
    var start := |before|;
    assert trace[..start] == before && before[i] == trace[i];
    var key := trace[i].gate.Key();
    LeftWithin(before, trace, i, start);
    if Left(before, i, start) {
      var k :| i < k < start && Leaves(trace[k], key);
    } else {
      assert Pending(before, key);
      assert j > start && Leaves(trace[start], key);
    }
  }

  class RunDriver {
    var trace: seq<Entry>

    constructor ()
      ensures trace == []
    {
      trace := [];
    }

    /** One drive loop over whatever the daemon says; it fails when the feed ends. */
    method Drive(feed: seq<Turn>, autoApprove: bool) returns (result: Result, ghost taken: nat)
      requires Budgeted(trace) && Counts(feed, trace)
      modifies this
      ensures IsPrefix(old(trace), trace)
      ensures Budgeted(trace)
      ensures NeverTwice(trace, |old(trace)|)
      // Over the joined trace: only the answer a loop opens with can repeat an earlier one.
      ensures Opened(trace, |old(trace)|, feed, autoApprove)
      ensures NeverTwice(trace, 0) <==> NeverTwice(old(trace), 0) && !Reanswers(trace, |old(trace)|)
      ensures Reanswers(trace, |old(trace)|) <==>
              OpeningAnswer(feed, autoApprove).Some? && Pending(old(trace), OpeningAnswer(feed, autoApprove).value)
      ensures AllJustified(trace, |old(trace)|) && FromFeed(trace, |old(trace)|, feed)
                && |trace| <= |old(trace)| + 2 * |feed|
      // Every snapshot is taken in turn, and its gate answered unless that is awaited.
      ensures AllMet(trace, |old(trace)|)
      ensures Took(old(trace), trace, feed, taken)
      ensures result.Failed? ==>
                && FailsAt(trace, feed, taken)
                && (|trace| > |old(trace)| && trace[|trace| - 1].Seen? ==> WaitsOn(trace, |old(trace)|, |trace| - 1))
      ensures !autoApprove ==> forall i :: |old(trace)| <= i < |trace| ==> trace[i].Seen?
      // Each way out is the one its last snapshot calls for.
      ensures !result.Failed? ==> |trace| > |old(trace)| && trace[|trace| - 1] == Seen(result.run)
      ensures result.Ended? ==> result.run.terminal
      ensures result.CiReady? ==> !result.run.terminal && result.run.ciReady && Awaiting(result.run.steps).None?
      ensures result.HandedBack? ==>
                && !result.run.terminal && Awaiting(result.run.steps).Some?
                && (autoApprove ==> !result.run.noFix && Stuck(Awaiting(result.run.steps).value, trace, |old(trace)|))
    {
      hide Opened;
      result, taken := Loop(feed, autoApprove);
      JoinedSeparates(old(trace), trace, feed, autoApprove);
    }

    method Loop(feed: seq<Turn>, autoApprove: bool) returns (result: Result, ghost taken: nat)
      requires Budgeted(trace) && Counts(feed, trace)
      modifies this
      ensures Goes(old(trace), trace, feed, taken, autoApprove)
      ensures Budgeted(trace) && NeverTwice(trace, |old(trace)|) && AllJustified(trace, |old(trace)|)
      // Every snapshot is taken in turn, and its gate answered unless that is awaited.
      ensures AllMet(trace, |old(trace)|)
      ensures result.Failed? ==>
                && FailsAt(trace, feed, taken)
                && (|trace| > |old(trace)| && trace[|trace| - 1].Seen? ==> WaitsOn(trace, |old(trace)|, |trace| - 1))
      ensures !autoApprove ==> forall i :: |old(trace)| <= i < |trace| ==> trace[i].Seen?
      ensures !result.Failed? ==> |trace| > |old(trace)| && trace[|trace| - 1] == Seen(result.run)
      ensures result.Ended? ==> result.run.terminal
      ensures result.CiReady? ==> !result.run.terminal && result.run.ciReady && Awaiting(result.run.steps).None?
      ensures result.HandedBack? ==>
                && !result.run.terminal && Awaiting(result.run.steps).Some?
                && (autoApprove ==> !result.run.noFix && Stuck(Awaiting(result.run.steps).value, trace, |old(trace)|))
    {
      hide Budgeted, AllJustified, AcceptedFixes, NeverTwice, Opened, FromFeed, AllMet, Took, Sound, Keeps, AllLeft,
           Stuck,
           GateResolution, Awaiting, WaitsOn, GoesOn, FailsAt;
      var fixedSteps: map<nat, nat> := map[];
      var pendingGate: Option<GateKey> := None;
      ghost var before := trace;
      NothingKept(trace);
      BeginsToGo(trace, feed, autoApprove);
      for k := 0 to |feed|
        invariant Keeps(before, trace, fixedSteps, pendingGate) && GoesOn(before, trace, feed, k, autoApprove)
        invariant k == 0 ==> fixedSteps == map[] && pendingGate.None?
        invariant !autoApprove ==> forall i :: |before| <= i < |trace| ==> trace[i].Seen?
      {
        GoesLonger(before, trace, feed, k, autoApprove);
        KeepsSound(before, trace, fixedSteps, pendingGate);
        PoisedWaits(before, trace, fixedSteps, pendingGate);
        var turn := feed[k];
        if turn.NextFails? || turn.run.None? {
          GoesToEnd(before, trace, feed, k, autoApprove);
          return Failed, k;
        }
        var run := turn.run.value;
        ghost var held := trace;
        trace := trace + [Seen(run)];
        LoopSees(before, held, run, fixedSteps, pendingGate);
        SoundMeans(before, trace, fixedSteps);
        SeesNext(before, held, run, feed, k, autoApprove);
        if run.terminal { return Ended(run), k + 1; }
        var awaiting := Awaiting(run.steps);
        if awaiting.Some? {
          if !autoApprove { return HandedBack(run), k + 1; }
          var gate := awaiting.value;
          if pendingGate == Some(gate.Key()) { continue; }
          var used := gate.fixRounds;
          if gate.name in fixedSteps && fixedSteps[gate.name] > used { used := fixedSteps[gate.name]; }
          var action := GateResolution(gate, used);
          if run.noFix { action := Some(Approve); }
          if action.None? {
            HandedBackIsStuck(before, trace, fixedSteps, gate);
            return HandedBack(run), k + 1;
          }
          AwaitingIsAStep(run.steps);
          assert turn in feed;
          ghost var answer := Answer(gate, run.noFix, action.value, !turn.reply.Lost?);
          LoopAnswers(before, trace, run, gate, action.value, !turn.reply.Lost?, fixedSteps);
          AnswersNext(before, held, run, answer, feed, k, autoApprove);
          if action.value.Fix? { fixedSteps := fixedSteps[gate.name := used + 1]; }
          trace := trace + [Answer(gate, run.noFix, action.value, !turn.reply.Lost?)];
          KeepsSound(before, trace, fixedSteps, Some(gate.Key()));
          if !turn.reply.Accepted? { return Failed, k + 1; }
          pendingGate := Some(gate.Key());
          continue;
        }
        pendingGate := None;
        if run.ciReady { return CiReady(run), k + 1; }
      }
      KeepsSound(before, trace, fixedSteps, pendingGate);
      PoisedWaits(before, trace, fixedSteps, pendingGate);
      GoesToEnd(before, trace, feed, |feed|, autoApprove);
      return Failed, |feed|;
    }

    /**
     * Any number of drive loops, one after the other, each against a daemon whose
     * snapshots count the fixes accepted before the loop started. `starts` are
     * where the loops began.
     */
    method Reattach(feeds: seq<seq<Turn>>, autoApprove: bool) returns (ghost starts: seq<nat>)
      requires trace == []
      modifies this
      ensures Budgeted(trace) && AllJustified(trace, 0) && |starts| == |feeds|
      ensures NeverTwice(trace, 0) <==> forall start :: start in starts ==> !Reanswers(trace, start)
    {
      hide Budgeted, Justified, AllJustified, NeverTwice, Opened, Reanswers, Stuck, FromFeed, Pending, Counts, Counted;
      BudgetedNothing();
      NothingKept(trace);
      KeepsSound(trace, trace, map[], None);
      starts := [];
      for k := 0 to |feeds|
        invariant Budgeted(trace) && AllJustified(trace, 0) && |starts| == k
        invariant forall start :: start in starts ==> start <= |trace|
        invariant NeverTwice(trace, 0) <==> forall start :: start in starts ==> !Reanswers(trace, start)
      {
        ghost var before := trace;
        var feed := Counted(feeds[k], trace);
        CountedCounts(feeds[k], trace);
        var _, _ := Drive(feed, autoApprove);
        JustifiedJoins(before, trace);
        forall start | start in starts
          ensures Reanswers(trace, start) <==>
                    Reanswers(before, start) || (start == |before| && Reanswers(trace, start))
        {
          ReanswersStays(before, trace, feed, autoApprove, start);
        }
        starts := starts + [|before|];
      }
    }

    /**
     * An answer of the operator's was accepted in `acceptedRound`: wait for the step
     * to leave that round, then drive.
     */
    method WaitThenDrive(waited: seq<Turn>, feed: seq<Turn>, autoApprove: bool, name: nat, acceptedRound: nat)
        returns (result: Result)
      requires Budgeted(trace) && Counts(feed, trace)
      modifies this
      ensures IsPrefix(old(trace), trace) && Budgeted(trace)
      ensures (forall j :: 0 <= j < |waited| ==> waited[j].Shows? && !HasLeft(waited[j].run, name, acceptedRound)) ==>
                result == Failed && trace == old(trace)
      // When a step that left its round stays out of it, the loop answers it in later rounds only.
      ensures StaysLeft(waited + feed, name, acceptedRound) && DistinctSteps(feed) ==>
                forall i: nat :: |old(trace)| <= i < |trace| && trace[i].Answer? && trace[i].gate.name == name ==>
                    trace[i].gate.rounds > acceptedRound
    {
      hide Budgeted, Counts, NeverTwice, Opened, Reanswers, HasLeft, Stuck;
      var at := WaitLeaves(waited, name, acceptedRound);
      if at.None? { return Failed; }
      ghost var before := trace;
      ghost var taken;
      result, taken := Drive(feed, autoApprove);
      if StaysLeft(waited + feed, name, acceptedRound) && DistinctSteps(feed) {
        forall i: nat | |before| <= i < |trace| && trace[i].Answer? && trace[i].gate.name == name
          ensures trace[i].gate.rounds > acceptedRound
        {
          OpensWithSeen(trace, |before|, feed, autoApprove);
          AnsweredLater(waited, feed, at.value, trace, |before|, i, name, acceptedRound);
        }
      }
    }
  }

  lemma OpensWithSeen(trace: seq<Entry>, start: nat, feed: seq<Turn>, autoApprove: bool)
    requires Opened(trace, start, feed, autoApprove)
    ensures |trace| > start ==> trace[start].Seen?
  {
  }

  lemma JustifiedJoins(before: seq<Entry>, trace: seq<Entry>)
    requires IsPrefix(before, trace) && AllJustified(before, 0) && AllJustified(trace, |before|)
    ensures AllJustified(trace, 0)
  {
    forall i: nat | i < |before|
      ensures Justified(trace, i)
    {
      assert Justified(before, i);
      assert trace[..|before|][i] == trace[i] && (i > 0 ==> trace[..|before|][i - 1] == trace[i - 1]);
    }
  }

  lemma ReanswersStays(before: seq<Entry>, trace: seq<Entry>, feed: seq<Turn>, autoApprove: bool, start: nat)
    requires IsPrefix(before, trace) && start <= |before| && Opened(trace, |before|, feed, autoApprove)
    ensures Reanswers(trace, start) <==> Reanswers(before, start) || (start == |before| && Reanswers(trace, start))
  {
    assert forall k :: 0 <= k < |before| ==> before[k] == trace[k];
    assert before[..start] == trace[..start];
  }

  // ----- waiting for an answered gate to be left -----

  /** The first step of that name. */
  function Named(steps: seq<Step>, name: nat): Option<Step> {
    if steps == [] then None else if steps[0].name == name then Some(steps[0]) else Named(steps[1..], name)
  }

  predicate Parked(s: Step) { s.status == ParkedForApproval || s.status == ParkedAfterFix }

  /** The run is over or gone, or the step is gone, no longer parked, or parked in a later round. */
  predicate HasLeft(run: Option<Run>, name: nat, acceptedRound: nat) {
    run.None? || run.value.terminal ||
    match Named(run.value.steps, name) { case None => true case Some(s) => !Parked(s) || s.rounds > acceptedRound }
  }

  predicate StaysUntil(feed: seq<Turn>, n: nat, name: nat, acceptedRound: nat)
    requires n <= |feed|
  {
    forall j :: 0 <= j < n ==> feed[j].Shows? && !HasLeft(feed[j].run, name, acceptedRound)
  }

  /** `waitStepLeavesAcceptedGate`: returns at the first snapshot in which the step has left the answered round. */
  method WaitLeaves(feed: seq<Turn>, name: nat, acceptedRound: nat) returns (at: Option<nat>)
    ensures at.Some? ==>
              at.value < |feed| && feed[at.value].Shows? && HasLeft(feed[at.value].run, name, acceptedRound)
              && StaysUntil(feed, at.value, name, acceptedRound)
    ensures at.None? ==>
              exists n :: 0 <= n <= |feed| && (n == |feed| || feed[n].NextFails?)
                          && StaysUntil(feed, n, name, acceptedRound)
  {
    for k := 0 to |feed|
      invariant StaysUntil(feed, k, name, acceptedRound)
    {
      if feed[k].NextFails? { return None; }
      var run := feed[k].run;
      if run.None? || run.value.terminal { return Some(k); }
      var step := Named(run.value.steps, name);
      if step.None? || !Parked(step.value) || step.value.rounds > acceptedRound { return Some(k); }
    }
    at := None;
  }

  /**
   * A drive loop whose first gate comes from where that wait ended meets no gate of
   * the answered round: whatever it answers there is another gate.
   */
  lemma {:induction false} LeftGateIsNotMet(run: Run, gate: Step, name: nat, acceptedRound: nat)
    requires HasLeft(Some(run), name, acceptedRound) && !run.terminal
    requires Awaiting(run.steps) == Some(gate) && gate.name == name
    requires DistinctNames(run.steps)
    ensures gate.rounds > acceptedRound
  {
    NamedIsIt(run.steps, gate);
  }

  lemma {:induction false} NamedIsIt(steps: seq<Step>, gate: Step)
    requires Awaiting(steps) == Some(gate)
    requires DistinctNames(steps)
    ensures Named(steps, gate.name) == Some(gate) && Parked(gate)
  {
    if !Parked(steps[0]) {
      AwaitingIsAStep(steps[1..]);
      var k :| 0 <= k < |steps[1..]| && steps[1..][k] == gate;
      assert steps[k + 1] == gate;
      NamedIsIt(steps[1..], gate);
    }
  }

  /** A step that has left its round is not shown in it again. */
  ghost predicate StaysLeft(feed: seq<Turn>, name: nat, acceptedRound: nat) {
    forall i, j ::
      0 <= i < j < |feed| && feed[i].Shows? && feed[j].Shows? && HasLeft(feed[i].run, name, acceptedRound) ==>
        HasLeft(feed[j].run, name, acceptedRound)
  }

  predicate DistinctNames(steps: seq<Step>) {
    forall i, j :: 0 <= i < j < |steps| ==> steps[i].name != steps[j].name
  }

  ghost predicate DistinctSteps(feed: seq<Turn>) {
    forall k :: 0 <= k < |feed| && feed[k].Shows? && feed[k].run.Some? ==> DistinctNames(feed[k].run.value.steps)
  }

  lemma AnsweredLater(waited: seq<Turn>, feed: seq<Turn>, at: nat, trace: seq<Entry>, start: nat, i: nat, name: nat,
      acceptedRound: nat)
    requires StaysLeft(waited + feed, name, acceptedRound) && DistinctSteps(feed)
    requires at < |waited| && waited[at].Shows? && HasLeft(waited[at].run, name, acceptedRound)
    requires FromFeed(trace, start, feed) && AllJustified(trace, start)
    requires start < |trace| && trace[start].Seen? && start <= i < |trace| && trace[i].Answer?
              && trace[i].gate.name == name
    ensures trace[i].gate.rounds > acceptedRound
  {
    hide HasLeft;
    assert Justified(trace, i) && i - 1 >= start;
    var run := trace[i - 1].run;
    assert Shown(feed, run);
    var k :| 0 <= k < |feed| && feed[k].Shows? && feed[k].run == Some(run);
    assert (waited + feed)[at] == waited[at] && (waited + feed)[|waited| + k] == feed[k];
    LeftGateIsNotMet(run, trace[i].gate, name, acceptedRound);
  }

  // ----- daemons that count -----

  function CountedStep(s: Step, trace: seq<Entry>): Step {
    s.(fixRounds := if s.fixRounds >= AcceptedFixes(trace, s.name) then s.fixRounds else AcceptedFixes(trace, s.name))
  }

  function CountedTurn(t: Turn, trace: seq<Entry>): Turn {
    if t.Shows? && t.run.Some? then
      t.(run := Some(t.run.value.(steps := seq(|t.run.value.steps|,
          i requires 0 <= i < |t.run.value.steps| => CountedStep(t.run.value.steps[i], trace)))))
    else t
  }

  /** Any feed, with fix rounds raised to what the daemon accepted; a feed that counts is left as it is. */
  function Counted(feed: seq<Turn>, trace: seq<Entry>): seq<Turn> {
    seq(|feed|, k requires 0 <= k < |feed| => CountedTurn(feed[k], trace))
  }

  lemma CountedCounts(feed: seq<Turn>, trace: seq<Entry>)
    ensures Counts(Counted(feed, trace), trace)
    ensures Counts(feed, trace) ==> Counted(feed, trace) == feed
  {
    if Counts(feed, trace) {
      forall k | 0 <= k < |feed|
        ensures CountedTurn(feed[k], trace) == feed[k]
      {
        var t := feed[k];
        if t.Shows? && t.run.Some? {
          var steps := t.run.value.steps;
          forall i | 0 <= i < |steps|
            ensures CountedStep(steps[i], trace) == steps[i]
          {
            assert t in feed && steps[i] in steps;
          }
          assert CountedTurn(t, trace).run.value.steps == steps;
        }
      }
    }
  }

  // ----- what the loop keeps -----

  /** What the loop keeps of its trace, whatever it is about to do. */
  ghost predicate Sound(before: seq<Entry>, trace: seq<Entry>, fixedSteps: map<nat, nat>) {
    && Budgeted(trace) && NeverTwice(trace, |before|) && AllJustified(trace, |before|)
    && Funded(before, trace, fixedSteps) && AllMet(trace, |before|)
    && forall step :: step in fixedSteps ==> Spent(trace, |before|, step, fixedSteps[step])
  }

  /** And what it keeps between two snapshots. */
  ghost predicate Keeps(before: seq<Entry>, trace: seq<Entry>, fixedSteps: map<nat, nat>, pending: Option<GateKey>) {
    Sound(before, trace, fixedSteps) && Waits(trace, |before|, pending) && Poised(trace, |before|, pending)
  }

  ghost predicate AllLeft(trace: seq<Entry>, start: nat) {
    forall i: nat :: start <= i < |trace| && trace[i].Answer? ==> Left(trace, i, |trace|)
  }

  lemma LoopSees(before: seq<Entry>, trace: seq<Entry>, run: Run, fixedSteps: map<nat, nat>, pending: Option<GateKey>)
    requires Keeps(before, trace, fixedSteps, pending) && |before| <= |trace|
    ensures
      var t := trace + [Seen(run)];
      && Sound(before, t, fixedSteps)
      && match Awaiting(run.steps)
         case None => !run.terminal && !run.ciReady ==> Keeps(before, t, fixedSteps, None)
         case Some(gate) =>
           if pending == Some(gate.Key()) then !run.terminal ==> Keeps(before, t, fixedSteps, pending)
           else AllLeft(t, |before|)
  {
    hide Budgeted, NeverTwice, AllJustified, Funded, AllMet, Spent, Waits, Poised, Left, Awaiting;
    SeenKeeps(before, trace, run, fixedSteps, |before|, pending);
    SpentGrows(trace, Seen(run), |before|);
    SeenMeets(trace, run, |before|, pending);
  }

  /** The rounds a gate has used, by the daemon's count or the loop's own. */
  function Used(gate: Step, fixedSteps: map<nat, nat>): nat {
    if gate.name in fixedSteps && fixedSteps[gate.name] > gate.fixRounds then fixedSteps[gate.name] else gate.fixRounds
  }

  lemma LoopAnswers(before: seq<Entry>, trace: seq<Entry>, run: Run, gate: Step, action: Action, accepted: bool,
      fixedSteps: map<nat, nat>)
    requires Sound(before, trace, fixedSteps) && AllLeft(trace, |before|) && |trace| > |before|
    requires trace[|trace| - 1] == Seen(run) && !run.terminal && Awaiting(run.steps) == Some(gate)
    requires gate.fixRounds >= AcceptedFixes(before, gate.name)
    requires if run.noFix then action == Approve else GateResolution(gate, Used(gate, fixedSteps)) == Some(action)
    ensures
      var t := trace + [Answer(gate, run.noFix, action, accepted)];
      var fixed := if action.Fix? then fixedSteps[gate.name := Used(gate, fixedSteps) + 1] else fixedSteps;
      Keeps(before, t, fixed, Some(gate.Key()))
  {
    hide Budgeted, NeverTwice, AllJustified, AllMet, Spent, Waits, Poised, Left, Funded, GateResolution;
    var e := Answer(gate, run.noFix, action, accepted);
    AnswerKeeps(before, trace, run, gate, action, accepted, Used(gate, fixedSteps), fixedSteps, |before|);
    SpentGrows(trace, e, |before|);
    AnswerMeets(trace, run, e, |before|);
    var fixed := if action.Fix? then fixedSteps[gate.name := Used(gate, fixedSteps) + 1] else fixedSteps;
    forall step | step in fixed
      ensures Spent(trace + [e], |before|, step, fixed[step])
    {
      if step in fixedSteps { assert Spent(trace, |before|, step, fixedSteps[step]); }
      assert FixAnswer(e, step) <==> action.Fix? && step == gate.name;
    }
  }

  lemma HandedBackIsStuck(before: seq<Entry>, trace: seq<Entry>, fixedSteps: map<nat, nat>, gate: Step)
    requires Sound(before, trace, fixedSteps) && GateResolution(gate, Used(gate, fixedSteps)).None?
    ensures Stuck(gate, trace, |before|)
  {
    hide Budgeted, NeverTwice, AllJustified, Funded, AllMet;
    IdsEmpty(gate.findings.value);
    var f :| f in gate.findings.value && f.actionable;
    if Used(gate, fixedSteps) >= 3 && gate.fixRounds < 3 {
      assert Spent(trace, |before|, gate.name, fixedSteps[gate.name]);
      var i: nat :|
        && |before| <= i < |trace| && FixAnswer(trace[i], gate.name)
        && trace[i].gate.fixRounds + Fixes(trace, i, gate.name) >= fixedSteps[gate.name];
    }
  }

  lemma KeepsSound(before: seq<Entry>, trace: seq<Entry>, fixedSteps: map<nat, nat>, pending: Option<GateKey>)
    requires Keeps(before, trace, fixedSteps, pending)
    ensures Sound(before, trace, fixedSteps)
    ensures Budgeted(trace) && NeverTwice(trace, |before|) && AllJustified(trace, |before|) && AllMet(trace, |before|)
  {
  }

  lemma PoisedWaits(before: seq<Entry>, trace: seq<Entry>, fixedSteps: map<nat, nat>, pending: Option<GateKey>)
    requires Keeps(before, trace, fixedSteps, pending)
    ensures |trace| > |before| && trace[|trace| - 1].Seen? ==> WaitsOn(trace, |before|, |trace| - 1)
  {
    hide Sound, Waits, Awaiting, Awaited;
    if |trace| > |before| && trace[|trace| - 1].Seen? && pending.Some? {
      AwaitedLonger(trace, |before|, |trace| - 1, pending.value);
    }
  }

  lemma SoundMeans(before: seq<Entry>, trace: seq<Entry>, fixedSteps: map<nat, nat>)
    requires Sound(before, trace, fixedSteps)
    ensures Budgeted(trace) && NeverTwice(trace, |before|) && AllJustified(trace, |before|) && AllMet(trace, |before|)
  {
  }

  lemma LoopBegins(trace: seq<Entry>, feed: seq<Turn>)
    ensures FromFeed(trace, |trace|, feed) && Took(trace, trace, feed, 0)
  {
  }

  lemma NothingKept(trace: seq<Entry>)
    requires Budgeted(trace)
    ensures Keeps(trace, trace, map[], None)
  {
  }

  lemma FromFeedPush(trace: seq<Entry>, e: Entry, start: nat, feed: seq<Turn>)
    requires FromFeed(trace, start, feed) && (e.Seen? ==> Shown(feed, e.run))
    ensures FromFeed(trace + [e], start, feed)
  {
    hide Shown;
  }

  /** The first snapshot shows no gate. */
  predicate OpenedIdle(feed: seq<Turn>) {
    feed != [] && feed[0].Shows? && feed[0].run.Some? && Awaiting(feed[0].run.value.steps).None?
  }

  /** The trace since `before` is the loop's own, after `n` turns of its feed. */
  ghost predicate Goes(before: seq<Entry>, trace: seq<Entry>, feed: seq<Turn>, n: nat, autoApprove: bool) {
    && IsPrefix(before, trace) && Opened(trace, |before|, feed, autoApprove) && FromFeed(trace, |before|, feed)
    && |trace| <= |before| + 2 * n && Took(before, trace, feed, n)
  }

  /** And the next snapshot may come. */
  ghost predicate GoesOn(before: seq<Entry>, trace: seq<Entry>, feed: seq<Turn>, n: nat, autoApprove: bool) {
    if n == 0 then trace == before
    else
      && |trace| > |before| && Goes(before, trace, feed, n, autoApprove)
      && (|trace| == |before| + 1 ==> OpenedIdle(feed))
  }

  lemma GoesToEnd(before: seq<Entry>, trace: seq<Entry>, feed: seq<Turn>, n: nat, autoApprove: bool)
    requires GoesOn(before, trace, feed, n, autoApprove) && n <= |feed|
    requires n == |feed| || feed[n].NextFails? || feed[n].run.None?
    ensures Goes(before, trace, feed, n, autoApprove) && FailsAt(trace, feed, n)
  {
    if n == 0 {
      OpensNot(trace, feed, autoApprove);
      LoopBegins(trace, feed);
    }
  }

  lemma GoesLonger(before: seq<Entry>, trace: seq<Entry>, feed: seq<Turn>, n: nat, autoApprove: bool)
    requires GoesOn(before, trace, feed, n, autoApprove)
    ensures IsPrefix(before, trace)
  {
  }

  lemma SeesNext(before: seq<Entry>, trace: seq<Entry>, run: Run, feed: seq<Turn>, k: nat, autoApprove: bool)
    requires GoesOn(before, trace, feed, k, autoApprove)
    requires k < |feed| && feed[k].Shows? && feed[k].run == Some(run)
    ensures
      var t := trace + [Seen(run)];
      && (k > 0 || OpeningAnswer(feed, autoApprove).None? ==> Goes(before, t, feed, k + 1, autoApprove))
      && (k > 0 || Awaiting(run.steps).None? ==> GoesOn(before, t, feed, k + 1, autoApprove))
  {
    hide Opened, FromFeed, Took, OpeningAnswer;
    var t := trace + [Seen(run)];
    LoopBegins(before, feed);
    TookNext(before, trace, run, feed, k);
    assert Shown(feed, run);
    FromFeedPush(trace, Seen(run), |before|, feed);
    if k > 0 {
      OpenedPush(trace, Seen(run), |before|, feed, autoApprove);
    } else if OpeningAnswer(feed, autoApprove).None? {
      OpensBare(before, run, feed, autoApprove);
    }
    IdleOpensBare(feed, autoApprove);
  }

  lemma IdleOpensBare(feed: seq<Turn>, autoApprove: bool)
    ensures OpenedIdle(feed) ==> OpeningAnswer(feed, autoApprove).None?
  {
  }

  lemma AnswersNext(before: seq<Entry>, held: seq<Entry>, run: Run, e: Entry, feed: seq<Turn>, k: nat,
      autoApprove: bool)
    requires GoesOn(before, held, feed, k, autoApprove)
    requires k < |feed| && feed[k].Shows? && feed[k].run == Some(run) && e.Answer?
    requires k == 0 ==>
               && OpeningAnswer(feed, autoApprove).Some? && AnswerTo(e, OpeningAnswer(feed, autoApprove).value)
    ensures var t := held + [Seen(run)] + [e];
            GoesOn(before, t, feed, k + 1, autoApprove) && Goes(before, t, feed, k + 1, autoApprove)
    ensures feed[k].reply != Accepted ==> FailsAt(held + [Seen(run)] + [e], feed, k + 1)
  {
    hide Opened, FromFeed, Took, OpeningAnswer;
    var asked := held + [Seen(run)];
    LoopBegins(before, feed);
    TookNext(before, held, run, feed, k);
    TookAnswer(before, asked, e, feed, k + 1);
    assert Shown(feed, run);
    FromFeedPush(held, Seen(run), |before|, feed);
    FromFeedPush(asked, e, |before|, feed);
    if k > 0 {
      OpenedPush(held, Seen(run), |before|, feed, autoApprove);
      OpenedPush(asked, e, |before|, feed, autoApprove);
    } else {
      OpensAnswering(before, run, e, feed, autoApprove);
    }
  }

  lemma BeginsToGo(trace: seq<Entry>, feed: seq<Turn>, autoApprove: bool)
    ensures GoesOn(trace, trace, feed, 0, autoApprove)
  {
  }

  lemma OpensNot(trace: seq<Entry>, feed: seq<Turn>, autoApprove: bool)
    requires feed == [] || feed[0].NextFails? || feed[0].run.None?
    ensures Opened(trace, |trace|, feed, autoApprove)
  {
  }

  lemma OpensBare(before: seq<Entry>, run: Run, feed: seq<Turn>, autoApprove: bool)
    requires feed != [] && feed[0].Shows? && feed[0].run == Some(run) && OpeningAnswer(feed, autoApprove).None?
    ensures Opened(before + [Seen(run)], |before|, feed, autoApprove)
  {
  }

  lemma OpensAnswering(before: seq<Entry>, run: Run, e: Entry, feed: seq<Turn>, autoApprove: bool)
    requires feed != [] && feed[0].Shows? && feed[0].run == Some(run) && OpeningAnswer(feed, autoApprove).Some?
    requires AnswerTo(e, OpeningAnswer(feed, autoApprove).value)
    ensures Opened(before + [Seen(run)] + [e], |before|, feed, autoApprove)
  {
  }

  lemma OpenedPush(trace: seq<Entry>, e: Entry, start: nat, feed: seq<Turn>, autoApprove: bool)
    requires |trace| > start && Opened(trace, start, feed, autoApprove)
    requires |trace| == start + 1 ==> e.Seen? && OpenedIdle(feed)
    ensures Opened(trace + [e], start, feed, autoApprove)
  {
  }

  /** Once a loop has fixed a step, its own count covers every fix accepted for it. */
  ghost predicate Funded(before: seq<Entry>, trace: seq<Entry>, fixedSteps: map<nat, nat>) {
    forall step :: AcceptedFixes(trace, step) <= if step in fixedSteps then fixedSteps[step]
        else AcceptedFixes(before, step)
  }

  /** Every answer of this loop has been left behind, except one that is still pending. */
  ghost predicate Waits(trace: seq<Entry>, start: nat, pending: Option<GateKey>) {
    forall i: nat :: start <= i < |trace| && trace[i].Answer? ==>
        Left(trace, i, |trace|) || pending == Some(trace[i].gate.Key())
  }

  lemma LeftGrows(trace: seq<Entry>, e: Entry, i: nat, stop: nat)
    requires i < stop <= |trace| && Left(trace, i, stop)
    ensures Left(trace + [e], i, stop) && Left(trace + [e], i, |trace| + 1)
  {
    var k :| i < k < stop && Leaves(trace[k], trace[i].gate.Key());
    assert Leaves((trace + [e])[k], (trace + [e])[i].gate.Key());
  }

  lemma NeverTwiceGrows(trace: seq<Entry>, e: Entry, start: nat)
    requires NeverTwice(trace, start)
    requires forall i: nat :: start <= i < |trace| && SameGate(trace[i], e) ==> Left(trace, i, |trace|)
    ensures NeverTwice(trace + [e], start)
  {
    hide Left;
    var t := trace + [e];
    forall i: nat, j: nat | start <= i < j < |t| && SameGate(t[i], t[j])
      ensures Left(t, i, j)
    {
      if j < |trace| {
        assert SameGate(trace[i], trace[j]);
        LeftGrows(trace, e, i, j);
      } else {
        assert SameGate(trace[i], e);
        LeftGrows(trace, e, i, |trace|);
      }
    }
  }

  lemma JustifiedGrows(trace: seq<Entry>, e: Entry, start: nat)
    requires AllJustified(trace, start) && Justified(trace + [e], |trace|)
    ensures AllJustified(trace + [e], start)
  {
    var t := trace + [e];
    forall i: nat | start <= i < |t|
      ensures Justified(t, i)
    {
      if i < |trace| {
        assert Justified(trace, i);
      }
    }
  }

  lemma SeenKeeps(before: seq<Entry>, trace: seq<Entry>, run: Run, fixedSteps: map<nat, nat>, start: nat,
      pending: Option<GateKey>)
    requires Budgeted(trace) && NeverTwice(trace, start) && AllJustified(trace, start)
    requires Funded(before, trace, fixedSteps) && Waits(trace, start, pending)
    ensures
      var t := trace + [Seen(run)];
      && Budgeted(t) && NeverTwice(t, start) && AllJustified(t, start) && Funded(before, t, fixedSteps)
           && Waits(t, start, pending)
      && (Awaiting(run.steps).None? ==> Waits(t, start, None))
      && (Awaiting(run.steps).Some? && pending != Some(Awaiting(run.steps).value.Key()) ==>
            forall i: nat :: start <= i < |t| && t[i].Answer? ==> Left(t, i, |t|))
  {
    var e := Seen(run);
    var t := trace + [e];
    forall step
      ensures AcceptedFixes(t, step) == AcceptedFixes(trace, step)
    {
      AcceptedFixesPush(trace, e, step);
    }
    NeverTwiceGrows(trace, e, start);
    JustifiedGrows(trace, e, start);
    forall i: nat | start <= i < |t| && t[i].Answer?
      ensures Left(t, i, |t|) || (pending == Some(t[i].gate.Key()) && !Leaves(e, t[i].gate.Key()))
    {
      assert trace[i] == t[i];
      if Leaves(e, t[i].gate.Key()) {
        assert Leaves(t[|trace|], t[i].gate.Key());
      } else if Left(trace, i, |trace|) {
        LeftGrows(trace, e, i, |trace|);
      }
    }
  }

  lemma AnswerKeeps(before: seq<Entry>, trace: seq<Entry>, run: Run, gate: Step, action: Action, accepted: bool,
      used: nat, fixedSteps: map<nat, nat>, start: nat)
    requires Budgeted(trace) && NeverTwice(trace, start) && AllJustified(trace, start)
              && Funded(before, trace, fixedSteps)
    requires |trace| > 0 && trace[|trace| - 1] == Seen(run) && !run.terminal && Awaiting(run.steps) == Some(gate)
    requires forall i: nat :: start <= i < |trace| && trace[i].Answer? ==> Left(trace, i, |trace|)
    requires gate.fixRounds >= AcceptedFixes(before, gate.name)
    requires used == Used(gate, fixedSteps)
    requires if run.noFix then action == Approve else GateResolution(gate, used) == Some(action)
    ensures
      var t := trace + [Answer(gate, run.noFix, action, accepted)];
      var fixed := if action.Fix? then fixedSteps[gate.name := used + 1] else fixedSteps;
      && Budgeted(t) && NeverTwice(t, start) && AllJustified(t, start) && Funded(before, t, fixed)
           && Waits(t, start, Some(gate.Key()))
  {
    var e := Answer(gate, run.noFix, action, accepted);
    var t := trace + [e];
    if gate.findings.Some? { IdsSelect(gate.findings.value); }
    assert AcceptedFixes(trace, gate.name) <= used;
    forall step
      ensures AcceptedFixes(t, step) == AcceptedFixes(trace, step) + FixOf(e, step)
    {
      AcceptedFixesPush(trace, e, step);
    }
    NeverTwiceGrows(trace, e, start);
    JustifiedGrows(trace, e, start);
    forall i: nat | start <= i < |trace| && t[i].Answer?
      ensures Left(t, i, |t|)
    {
      assert trace[i] == t[i];
      LeftGrows(trace, e, i, |trace|);
    }
  }

  // ----- across loops an answer can be repeated -----

  /**
   * The daemon takes an approval but the loop does not hear of it and fails; the
   * next loop is shown the same gate first and approves it again.
   */
  method AnsweredTwice() returns (d: RunDriver)
    ensures fresh(d) && Budgeted(d.trace) && !NeverTwice(d.trace, 0)
  {
    hide Budgeted, Justified, NeverTwice, Stuck;
    var gate := Step(7, ParkedForApproval, Some([]), false, 1, MAX_FIX_ROUNDS);
    var run := Run(false, false, false, [gate]);
    d := new RunDriver();
    BudgetedNothing();
    FullRoundsCount(gate, run, AcceptedUnheard, d.trace);
    var _, _ := d.Drive([Shows(Some(run), AcceptedUnheard)], true);
    ghost var once := d.trace;
    assert AnswerTo(once[1], gate.Key()) && !Left(once, 1, |once|);
    FullRoundsCount(gate, run, Accepted, d.trace);
    var _, _ := d.Drive([Shows(Some(run), Accepted)], true);
  }

  lemma BudgetedNothing()
    ensures Budgeted([])
  {
  }

  lemma FullRoundsCount(gate: Step, run: Run, reply: Reply, trace: seq<Entry>)
    requires gate.fixRounds == MAX_FIX_ROUNDS && run.steps == [gate] && Budgeted(trace)
    ensures Counts([Shows(Some(run), reply)], trace)
  {
  }
}
