/** Run records and the choice of the run that speaks for a branch. */
module Runs {
  import opened Options
  import opened Objects

  datatype Status = Active | Terminal | Unrecognised

  datatype Run = Run(
    id: nat,
    branch: nat,
    head: Sha,
    base: Sha,
    submitted: Option<Sha>,
    status: Status,
    lastPushed: Option<Sha>,
    pushKind: Option<nat>,
    pushFingerprint: Option<nat>,
    pushRef: Option<nat>,
    pushGeneration: Option<nat>,
    pushActive: bool,
    pushStepRunning: bool,
    verified: bool,
    returned: bool)

  /** The configured push target of the repository. */
  datatype Target = Target(kind: nat, fingerprint: nat)

  predicate Unpublished(r: Run) {
    && r.submitted.Some?
    && !r.returned
    && if r.lastPushed.None?
       then r.head != r.submitted.value || (r.status.Terminal? && !r.verified)
       else r.head != r.lastPushed.value
  }

  predicate ExactBinding(t: Target, r: Run, branch: nat) {
    && r.branch == branch
    && !r.pushActive
    && r.head != NO_SHA
    && r.lastPushed == Some(r.head)
    && r.pushKind == Some(t.kind)
    && r.pushFingerprint == Some(t.fingerprint)
    && r.pushRef == Some(branch)
    && r.pushGeneration.Some?
  }

  predicate HeadUnmoved(r: Run) {
    r.submitted.Some? && r.submitted.value != NO_SHA && r.head == r.submitted.value
  }

  predicate Released(r: Run) {
    r.status.Terminal? && !r.returned && r.lastPushed.None? && r.verified && HeadUnmoved(r)
  }

  predicate SameTarget(a: Run, b: Run) {
    && a.pushKind.Some? && a.pushKind == b.pushKind
    && a.pushFingerprint.Some? && a.pushFingerprint == b.pushFingerprint
    && a.pushRef.Some? && a.pushRef == b.pushRef
  }

  /** What selection may consult besides the records: the target and the gate's branch head. */
  datatype Evidence = Evidence(dag: Dag, target: Target, branch: nat, gateHead: Option<Sha>)

  predicate SupersededBy(e: Evidence, older: Run, newer: Option<Run>) {
    && newer.Some?
    && older.status.Terminal?
    && Unpublished(older)
    && SameTarget(older, newer.value)
    && older.head != NO_SHA
    && newer.value.lastPushed.Some?
    && e.gateHead == newer.value.lastPushed
    && e.dag.Contains(e.gateHead.value, older.head)
  }

  /** `j` is the newest exact push binding among the first `n` records. */
  ghost predicate NewestBinding(e: Evidence, runs: seq<Run>, n: nat, j: nat)
    requires n <= |runs|
  {
    && j < n
    && ExactBinding(e.target, runs[j], e.branch)
    && forall k :: 0 <= k < j ==> !ExactBinding(e.target, runs[k], e.branch)
  }

  /** Run `i` is unpublished, but the newest binding above it provably contains its head. */
  ghost predicate Superseded(e: Evidence, runs: seq<Run>, i: nat)
    requires i < |runs|
  {
    exists j: nat :: NewestBinding(e, runs, i, j) && SupersededBy(e, runs[i], Some(runs[j]))
  }

  ghost predicate Outstanding(e: Evidence, runs: seq<Run>, i: nat)
    requires i < |runs|
  {
    && runs[i].branch == e.branch
    && (runs[i].status.Active? || (Unpublished(runs[i]) && !Superseded(e, runs, i)))
  }

  /** Bound, returned or released: speaks for the branch when nothing is outstanding. */
  predicate Settled(branch: nat, r: Run) {
    && r.branch == branch
    && !r.status.Active?
    && !Unpublished(r)
    && (r.lastPushed.Some? || r.returned || Released(r))
  }

  /** The records selection may answer with. */
  predicate Selectable(branch: nat, r: Run) {
    r.status.Active? || Unpublished(r) || Settled(branch, r)
  }

  /** The specification of selection over records in newest-first order. */
  ghost predicate Chosen(e: Evidence, runs: seq<Run>, choice: Option<nat>) {
    match choice
    case Some(i) =>
      && i < |runs|
      && (|| (Outstanding(e, runs, i) && forall k: nat :: k < i ==> !Outstanding(e, runs, k))
          || (&& Settled(e.branch, runs[i])
              && (forall k: nat :: k < i ==> !Settled(e.branch, runs[k]))
              && (forall k: nat :: k < |runs| ==> !Outstanding(e, runs, k))))
    case None =>
      && (forall k: nat :: k < |runs| ==> !Outstanding(e, runs, k))
      && (forall k: nat :: k < |runs| ==> !Settled(e.branch, runs[k]))
  }

  /** Some commit of the run is neither pushed nor handed back. */
  predicate Owes(r: Run) {
    && !r.returned
    && match (r.lastPushed, r.submitted)
       case (_, None) => false
       case (Some(pushed), Some(_)) => pushed != r.head
       case (None, Some(submitted)) => submitted != r.head || (r.status == Terminal && !r.verified)
  }

  /**
   * The newer record was pushed whole to the configured target as the gate holds it,
   * and with it all of the older, terminal one.
   */
  predicate Covers(e: Evidence, newer: Run, older: Run) {
    && older.status == Terminal && older.head != NO_SHA && newer.head != NO_SHA && !newer.pushActive
    && e.gateHead == Some(newer.head) == newer.lastPushed && e.dag.Contains(newer.head, older.head)
    && older.pushKind == newer.pushKind == Some(e.target.kind)
    && older.pushFingerprint == newer.pushFingerprint == Some(e.target.fingerprint)
    && older.pushRef == newer.pushRef == Some(e.branch) && newer.pushGeneration != None
  }

  /**
   * Selection went past record `k`: it lies before the choice, or the choice is
   * neither active nor owes anything, or is none.
   */
  predicate PassedOver(e: Evidence, runs: seq<Run>, choice: Option<nat>, k: nat) {
    && k < |runs| && runs[k].branch == e.branch
    && (choice.Some? ==>
          && choice.value < |runs|
          && (k < choice.value || !(runs[choice.value].status == Active || Owes(runs[choice.value]))))
  }

  /** No active run is passed over, and one that owes commits only for a newer run on the branch that covers them. */
  ghost predicate SkippedAreCovered(e: Evidence, runs: seq<Run>, choice: Option<nat>) {
    forall k: nat :: PassedOver(e, runs, choice, k) ==>
      && runs[k].status != Active
      && (Owes(runs[k]) ==> exists j: nat :: j < k && runs[j].branch == e.branch && Covers(e, runs[j], runs[k]))
  }

  lemma SkippedIsCovered(e: Evidence, runs: seq<Run>, choice: Option<nat>)
    requires Chosen(e, runs, choice)
    ensures SkippedAreCovered(e, runs, choice)
  {
    forall k: nat | PassedOver(e, runs, choice, k)
      ensures runs[k].status != Active
      ensures Owes(runs[k]) ==> exists j: nat :: j < k && runs[j].branch == e.branch && Covers(e, runs[j], runs[k])
    {
      assert !Outstanding(e, runs, k);
      if Owes(runs[k]) {
        var j: nat :| NewestBinding(e, runs, k, j) && SupersededBy(e, runs[k], Some(runs[j]));
        assert Covers(e, runs[j], runs[k]);
      }
    }
  }

  /** The selection loop of `inspect`. */
  method Select(e: Evidence, runs: seq<Run>) returns (choice: Option<nat>)
    ensures Chosen(e, runs, choice) && SkippedAreCovered(e, runs, choice)
    ensures choice.Some? ==>
              choice.value < |runs| && runs[choice.value].branch == e.branch && Selectable(e.branch, runs[choice.value])
  {
    choice := None;
    var newer: Option<Run> := None;
    for i := 0 to |runs|
      invariant newer.None? ==> forall k: nat :: k < i ==> !ExactBinding(e.target, runs[k], e.branch)
      invariant newer.Some? ==> exists j: nat :: NewestBinding(e, runs, i, j) && newer.value == runs[j]
      invariant forall k: nat :: k < i ==> !Outstanding(e, runs, k)
      invariant choice.None? ==> forall k: nat :: k < i ==> !Settled(e.branch, runs[k])
      invariant choice.Some? ==> choice.value < i && Settled(e.branch, runs[choice.value])
      invariant choice.Some? ==> forall k: nat :: k < choice.value ==> !Settled(e.branch, runs[k])
    {
      var r := runs[i];
      if r.branch == e.branch {
        if r.status.Active? || Unpublished(r) {
          if Unpublished(r) && SupersededBy(e, r, newer) {
            assert Superseded(e, runs, i);
          } else {
            choice := Some(i);
            SkippedIsCovered(e, runs, choice);
            return;
          }
        } else {
          if newer.None? && ExactBinding(e.target, r, e.branch) {
            newer := Some(r);
            assert NewestBinding(e, runs, i + 1, i);
          }
          if choice.None? && (r.lastPushed.Some? || r.returned || Released(r)) {
            choice := Some(i);
          }
        }
      }
    }
    SkippedIsCovered(e, runs, choice);
  }

  // ----- which records are selected, by their fields -----

  /**
   * A record alone on its branch is selected unless it was never submitted or
   * pushed, or stands where it was submitted.
   */
  lemma SoleIsSelectedIff(e: Evidence, runs: seq<Run>, i: nat)
    requires i < |runs| && forall k :: 0 <= k < |runs| ==> (runs[k].branch == e.branch <==> k == i)
    ensures
      var r := runs[i];
      var selected :=
        || r.status == Active || r.returned || r.lastPushed != None
        || (r.submitted != None && r.head != r.submitted.value)
        || (r.submitted != None && r.status == Terminal && (!r.verified || r.head != NO_SHA));
      Chosen(e, runs, if selected then Some(i) else None)
  {
    assert !Superseded(e, runs, i) by {
      forall j: nat | j < i ensures !ExactBinding(e.target, runs[j], e.branch) { assert runs[j].branch != e.branch; }
    }
  }

  /**
   * Of two records on a branch, the newer pushed whole: the older one is
   * selected exactly when it is active, or owes commits that the newer one
   * does not cover.
   */
  lemma OlderIsSelectedIff(e: Evidence, runs: seq<Run>, j: nat, i: nat)
    requires j < i < |runs| && forall k :: 0 <= k < |runs| ==> (runs[k].branch == e.branch <==> k == i || k == j)
    requires runs[j].status != Active && runs[j].lastPushed == Some(runs[j].head)
    ensures Chosen(e, runs, Some(if runs[i].status == Active || (Owes(runs[i]) && !Covers(e, runs[j], runs[i])) then i
              else j))
  {
    assert !Outstanding(e, runs, j);
    forall k: nat | k < i
        && k != j ensures !ExactBinding(e.target, runs[k], e.branch) { assert runs[k].branch != e.branch; }
    if Owes(runs[i]) {
      if Covers(e, runs[j], runs[i]) { assert NewestBinding(e, runs, i, j); }
      assert Superseded(e, runs, i) <==> Covers(e, runs[j], runs[i]);
    }
  }

  /** Selection is a function: the specification admits one answer. */
  lemma ChosenIsUnique(e: Evidence, runs: seq<Run>, a: Option<nat>, b: Option<nat>)
    requires Chosen(e, runs, a) && Chosen(e, runs, b)
    ensures a == b
  {
  }

  /** The stamp: every other record stays as it was. */
  function Stamped(runs: seq<Run>, id: nat): (r: seq<Run>)
    ensures |r| == |runs|
    ensures forall i :: 0 <= i < |runs| ==> r[i] == if runs[i].id == id then runs[i].(returned := true) else runs[i]
  {
    seq(|runs|, i requires 0 <= i < |runs| => if runs[i].id == id then runs[i].(returned := true) else runs[i])
  }

  /** Recording a new pipeline head withdraws the terminal verification. */
  function Promoted(runs: seq<Run>, id: nat, c: Sha): (r: seq<Run>)
    ensures |r| == |runs|
    ensures forall i :: 0 <= i < |runs| ==>
              r[i] == if runs[i].id == id && runs[i].head != c then runs[i].(head := c, verified := false) else runs[i]
  {
    seq(|runs|, i requires 0 <= i < |runs| =>
      if runs[i].id == id && runs[i].head != c then runs[i].(head := c, verified := false) else runs[i])
  }

  /** How many runs on the branch still hold commits nobody has been handed. */
  function UnpublishedCount(runs: seq<Run>, branch: nat): nat {
    if runs == [] then 0
    else (if runs[0].branch == branch && Unpublished(runs[0]) then 1 else 0) + UnpublishedCount(runs[1..], branch)
  }

  lemma {:induction false} SettlingOneLowersCount(a: seq<Run>, b: seq<Run>, i: nat, branch: nat)
    requires |a| == |b| && i < |a|
    requires forall k :: 0 <= k < |a| && k != i ==> b[k] == a[k]
    requires a[i].branch == branch && Unpublished(a[i]) && !Unpublished(b[i])
    ensures UnpublishedCount(b, branch) == UnpublishedCount(a, branch) - 1
  {
    if i == 0 {
      assert a[1..] == b[1..];
    } else {
      SettlingOneLowersCount(a[1..], b[1..], i - 1, branch);
    }
  }

  predicate DistinctIds(runs: seq<Run>) {
    forall i, j :: 0 <= i < j < |runs| ==> runs[i].id != runs[j].id
  }

  /** Nothing on the branch but run `i` claims it: no newer record speaks for it, no other is outstanding. */
  ghost predicate Unrivalled(e: Evidence, runs: seq<Run>, i: nat)
    requires i < |runs|
  {
    && (forall k: nat :: k < i ==> !Settled(e.branch, runs[k]))
    && (forall k: nat :: k < |runs| && k != i ==> !Outstanding(e, runs, k))
  }

  lemma StampKeepsOthers(e: Evidence, runs: seq<Run>, i: nat, k: nat)
    requires i < |runs| && k < |runs| && k != i && DistinctIds(runs)
    ensures Outstanding(e, Stamped(runs, runs[i].id), k) <==> Outstanding(e, runs, k)
    ensures Settled(e.branch, Stamped(runs, runs[i].id)[k]) <==> Settled(e.branch, runs[k])
  {
    var after := Stamped(runs, runs[i].id);
    forall j: nat | j < k
      ensures ExactBinding(e.target, after[j], e.branch) == ExactBinding(e.target, runs[j], e.branch)
      ensures SupersededBy(e, after[k], Some(after[j])) == SupersededBy(e, runs[k], Some(runs[j]))
    {}
    forall j: nat | j < k
      ensures NewestBinding(e, after, k, j) <==> NewestBinding(e, runs, k, j)
    {}
  }

  /** A stamped run is selected again exactly when it is unrivalled. */
  lemma ReselectedIffUnrivalled(e: Evidence, runs: seq<Run>, i: nat)
    requires i < |runs| && DistinctIds(runs)
    requires runs[i].branch == e.branch && !runs[i].status.Active?
    ensures Chosen(e, Stamped(runs, runs[i].id), Some(i)) <==> Unrivalled(e, runs, i)
  {
    var after := Stamped(runs, runs[i].id);
    assert !Outstanding(e, after, i) && Settled(e.branch, after[i]);
    forall k: nat | k < |runs| && k != i
      ensures Outstanding(e, after, k) <==> Outstanding(e, runs, k)
      ensures Settled(e.branch, after[k]) <==> Settled(e.branch, runs[k])
    {
      StampKeepsOthers(e, runs, i, k);
    }
  }

  /**
   * A rivalled return: the stranded run was chosen, and once it is stamped the
   * newer bound run speaks for the branch, so a re-run no longer sees it.
   */
  lemma {:induction false} NewerBindingHidesReturn()
    ensures
      var e := Evidence(Dag(map[], map[]), Target(1, 1), 5, None);
      var bound := Run(2, 5, 70, 0, Some(70), Terminal, Some(70), Some(1), Some(1), Some(5), Some(1), false, false,
          true, false);
      var stranded := Run(1, 5, 90, 0, Some(80), Terminal, None, None, None, None, None, false, false, true, false);
      Chosen(e, [bound, stranded], Some(1)) && Chosen(e, Stamped([bound, stranded], 1), Some(0))
  {
    var e := Evidence(Dag(map[], map[]), Target(1, 1), 5, None);
    var bound := Run(2, 5, 70, 0, Some(70), Terminal, Some(70), Some(1), Some(1), Some(5), Some(1), false, false, true,
        false);
    var stranded := Run(1, 5, 90, 0, Some(80), Terminal, None, None, None, None, None, false, false, true, false);
    var before := [bound, stranded];
    var after := Stamped(before, 1);
    assert Outstanding(e, before, 1) && !Outstanding(e, before, 0);
    assert Settled(5, after[0]) && !Outstanding(e, after, 0) && !Outstanding(e, after, 1);
  }

  /** Two histories that differ at most in the head and verification of run `i`. */
  predicate SameBut(runs: seq<Run>, after: seq<Run>, i: nat) {
    && i < |runs| == |after|
    && (forall k :: 0 <= k < |runs| && k != i ==> after[k] == runs[k])
    && after[i] == runs[i].(head := after[i].head, verified := after[i].verified)
  }

  lemma ClaimsAfterGateMove(e: Evidence, runs: seq<Run>, after: seq<Run>, i: nat, local: Sha, k: nat)
    requires Chosen(e, runs, Some(i)) && runs[i].branch == e.branch && Unpublished(runs[i])
    requires SameBut(runs, after, i) && k < i
    requires e.gateHead.Some? && e.gateHead.value != local
    ensures Outstanding(e.(gateHead := Some(local)), after, k) <==> after[k].branch == e.branch && Unpublished(after[k])
  {
    var now := e.(gateHead := Some(local));
    assert !Outstanding(e, runs, k);
    if runs[k].branch == e.branch && Unpublished(runs[k]) {
      var j: nat :| NewestBinding(e, runs, k, j) && SupersededBy(e, runs[k], Some(runs[j]));
      forall j': nat | j' < k ensures NewestBinding(now, after, k, j') <==> NewestBinding(e, runs, k, j') {}
      forall j': nat | NewestBinding(now, after, k, j') ensures !SupersededBy(now, after[k], Some(after[j'])) {
        assert j' == j;
      }
      assert !Superseded(now, after, k);
    }
  }

  /**
   * A stranded run was selected, and then the gate branch moved to `local`,
   * which does not contain its head. The run is selected again exactly when no
   * record before it on the branch is unpublished: what the old gate head
   * superseded, the new one does not.
   */
  lemma ReselectedAfterGateMove(e: Evidence, runs: seq<Run>, after: seq<Run>, i: nat, local: Sha)
    requires Chosen(e, runs, Some(i)) && runs[i].branch == e.branch && Unpublished(runs[i])
    requires SameBut(runs, after, i) && Unpublished(after[i])
    requires e.gateHead.Some? && e.gateHead.value != local && !e.dag.Contains(local, after[i].head)
    ensures Chosen(e.(gateHead := Some(local)), after, Some(i)) <==>
            forall k :: 0 <= k < i ==> !(after[k].branch == e.branch && Unpublished(after[k]))
  {
    var now := e.(gateHead := Some(local));
    assert Outstanding(now, after, i);
    forall k: nat | k < i
      ensures Outstanding(now, after, k) <==> after[k].branch == e.branch && Unpublished(after[k])
    {
      ClaimsAfterGateMove(e, runs, after, i, local, k);
    }
  }

  function HiddenDag(): Dag {
    Dag(map[10 := {10}, 60 := {60}, 70 := {60, 70}], map[10 := map[], 60 := map[], 70 := map[]])
  }

  /** A stranded run under a newer binding and, where `between` asks for it, a run whose head that binding contains. */
  function HiddenRuns(between: bool): seq<Run> {
    var bound := Run(3, 5, 70, 0, Some(70), Terminal, Some(70), Some(1), Some(1), Some(5), Some(1), false, false, true,
        false);
    var superseded := Run(2, 5, 60, 0, Some(50), Terminal, Some(50), Some(1), Some(1), Some(5), Some(1), false, false,
        true, false);
    var stranded := Run(1, 5, 70, 0, Some(10), Terminal, None, None, None, None, None, false, false, true, false);
    if between then [bound, superseded, stranded] else [bound, stranded]
  }

  /** A history in which it is not: the gate move brings back a run that the old gate head superseded. */
  lemma {:induction false} GateMoveHidesStranded()
    ensures Chosen(Evidence(HiddenDag(), Target(1, 1), 5, Some(70)), HiddenRuns(true), Some(2))
    ensures Chosen(Evidence(HiddenDag(), Target(1, 1), 5, Some(10)), HiddenRuns(true), Some(1))
  {
    var runs := HiddenRuns(true);
    var before := Evidence(HiddenDag(), Target(1, 1), 5, Some(70));
    assert NewestBinding(before, runs, 1, 0) && Superseded(before, runs, 1);
    assert !Outstanding(before, runs, 0) && !Outstanding(before, runs, 1) && Outstanding(before, runs, 2);
    ReselectedAfterGateMove(before, runs, runs, 2, 10);
    ClaimsAfterGateMove(before, runs, runs, 2, 10, 1);
    ClaimsAfterGateMove(before, runs, runs, 2, 10, 0);
  }

  lemma HiddenIsChosen(between: bool)
    ensures Chosen(Evidence(HiddenDag(), Target(1, 1), 5, Some(70)), HiddenRuns(between), Some(if between then 2
              else 1))
  {
    var runs := HiddenRuns(between);
    if between {
      GateMoveHidesStranded();
    } else {
      assert !Outstanding(Evidence(HiddenDag(), Target(1, 1), 5, Some(70)), runs, 0);
    }
  }
}
