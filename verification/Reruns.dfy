/**
 * Whole calls of `Recover`: one after the other, after a call that was cut short,
 * and one whose lookups go unanswered.
 */
module Reruns {
  import opened Options
  import opened Objects
  import opened Runs
  import opened Worlds
  import opened Commands
  import opened Inspection
  import opened Recovery

  // ----- at once -----

  /** Recovering `run`, which has nothing left to recover, reports exactly these facts. */
  predicate AnswersWith(dag: Dag, hasGate: bool, w: World, run: Run, facts: Facts) {
    if run.returned then
      !AnchorsConflict(w.wt, run.id) && FactsOf(dag, w, hasGate, run) == facts
    else Classify(run) == UserOwned && facts == NO_FACTS
  }

  /**
   * A return followed by a second call. The second call answers for the same
   * run exactly when that run is unrivalled, and then repeats the report. It
   * repeats the report and changes nothing exactly when whichever run inspection
   * now selects answers with the same facts.
   */
  ghost predicate RepeatsItself(s: Session, mid: World, b: World, first: Report, second: Report, seen: View,
      again: View, subject: Run)
    requires first.Recovered?
  {
    exists i: nat ::
      && i < |mid.runs| && mid.runs[i].id == subject.id && mid.runs[i].returned
      && (Unrivalled(EvidenceOf(s, mid, seen.branch), mid.runs, i) <==> again.run == Some(mid.runs[i]))
      && (Unrivalled(EvidenceOf(s, mid, seen.branch), mid.runs, i) ==>
           second == Recovered(false, first.facts) && b == mid)
      && (second == Recovered(false, first.facts) && b == mid <==>
          again.run.Some? && AnswersWith(s.dag, s.hasGate, mid, again.run.value, first.facts))
  }

  lemma SecondAnswer(s: Session, mid: World, b: World, facts: Facts, second: Report, again: View, other: Option<Run>)
    requires Reports(s, mid, again)
    requires QuietRecovery(s.dag, s.hasGate, mid, b, second, again, other)
    requires CalmRecovery(s.dag, s.hasGate, mid, b, second, again, other)
    ensures second == Recovered(false, facts) && b == mid <==>
            again.run.Some? && AnswersWith(s.dag, s.hasGate, mid, again.run.value, facts)
  {
    hide FactsOf, CalmOutcome, Classify, StayedOrArrived, Chosen, World.Clean, SettledFrom;
    if other.Some? {
      assert !again.run.value.returned && again.run.value.status.Terminal?;
      if Settles(second) { ReturnsChange(mid, b, other.value, again.branch); }
      StrandedIsNotReleased(s, mid, again);
    }
    if again.run.Some? { StandingIsClassified(s, mid, again); }
  }

  lemma StrandedIsNotReleased(s: Session, w: World, v: View)
    requires Reports(s, w, v) && Stranded(v)
    ensures Classify(v.run.value) != UserOwned
  {
    hide Classify, Chosen;
  }

  lemma StandingIsClassified(s: Session, w: World, v: View)
    requires Reports(s, w, v) && v.run.Some?
    ensures v.standing == Classify(v.run.value)
  {
    hide Classify, Chosen;
  }

  lemma ReturnsChange(a: World, b: World, subject: Run, branch: nat)
    requires ReturnsCustodyOf(a, b, subject, branch)
    ensures a != b
  {
    hide Classify, Selectable;
  }

  lemma SameRunRepeats(s: Session, a: World, mid: World, b: World, first: Report, second: Report, seen: View,
      again: View, subject: Run, other: Option<Run>)
    requires DistinctIds(mid.runs)
    requires Reports(s, a, seen) && Stranded(seen)
    requires first.Recovered? && ReturnsCustodyOf(a, mid, subject, seen.branch)
    requires mid.head == a.head && LocalHead(mid).Some?
    requires Tells(s.dag, s.hasGate, mid, subject, first.facts)
    requires Reports(s, mid, again)
    requires QuietRecovery(s.dag, s.hasGate, mid, b, second, again, other)
    requires CalmRecovery(s.dag, s.hasGate, mid, b, second, again, other)
    ensures RepeatsItself(s, mid, b, first, second, seen, again, subject)
  {
    hide FactsOf, CalmOutcome, Classify, QuietRecovery, CalmRecovery, Chosen, Unrivalled, Selectable;
    var i: nat :| i < |a.runs| && |mid.runs| == |a.runs| && a.runs[i].id == subject.id
        && a.runs[i].branch == seen.branch
      && a.runs[i].status.Terminal?
      && mid.runs[i] == a.runs[i].(head := subject.head, verified := mid.runs[i].verified, returned := true);
    assert again.branch == seen.branch;
    SelectedAgain(s, mid, again, i);
    SecondAnswer(s, mid, b, first.facts, second, again, other);
    if again.run == Some(mid.runs[i]) { SameFacts(s.dag, mid, s.hasGate, mid.runs[i], subject); }
  }

  lemma SelectedAgain(s: Session, mid: World, again: View, i: nat)
    requires DistinctIds(mid.runs) && i < |mid.runs|
    requires Reports(s, mid, again) && again.head.Some?
    requires mid.runs[i].branch == again.branch && mid.runs[i].returned && !mid.runs[i].status.Active?
    ensures Unrivalled(EvidenceOf(s, mid, again.branch), mid.runs, i) <==> again.run == Some(mid.runs[i])
  {
    hide Classify, Unrivalled, Chosen;
    var e := EvidenceOf(s, mid, again.branch);
    assert Stamped(mid.runs, mid.runs[i].id) == mid.runs;
    ReselectedIffUnrivalled(e, mid.runs, i);
    SelectedIff(s, mid, again, i);
  }

  /** Inspection reports run `i` exactly when it is the specified choice. */
  lemma SelectedIff(s: Session, w: World, v: View, i: nat)
    requires DistinctIds(w.runs) && i < |w.runs|
    requires Reports(s, w, v) && v.head.Some?
    ensures Chosen(EvidenceOf(s, w, v.branch), w.runs, Some(i)) <==> v.run == Some(w.runs[i])
  {
    hide Classify, Chosen;
    var e := EvidenceOf(s, w, v.branch);
    var choice: Option<nat> :| SelectedAs(e, w.runs, choice, v);
    if v.run == Some(w.runs[i]) {
      SelectedExists(e, w.runs, choice, v);
      assert choice.value == i;
    }
    if Chosen(e, w.runs, Some(i)) { ChosenIsUnique(e, w.runs, choice, Some(i)); }
  }

  lemma SelectedExists(e: Evidence, runs: seq<Run>, choice: Option<nat>, v: View)
    requires SelectedAs(e, runs, choice, v) && v.run.Some?
    ensures choice.Some? && choice.value < |runs| && v.run == Some(runs[choice.value])
  {
  }

  lemma SameFacts(dag: Dag, w: World, hasGate: bool, a: Run, b: Run)
    requires a.id == b.id && a.head == b.head
    ensures FactsOf(dag, w, hasGate, a) == FactsOf(dag, w, hasGate, b)
  {
  }

  /** Recover, and recover again at once. */
  method RecoverTwice(s: Session, keepFirst: bool, keepSecond: bool)
    returns (first: Report, second: Report, ghost mid: World, ghost seen: View, ghost again: View,
             ghost subject: Option<Run>, ghost later: Option<Run>)
    requires s.Valid()
    modifies s
    ensures s.Grown()
    ensures Calm(old(s.script)) ==> Reports(s, old(s.w), seen) && Reports(s, mid, again)
    ensures Calm(old(s.script)) && first.Recovered? && subject.Some? ==>
              RepeatsItself(s, mid, s.w, first, second, seen, again, subject.value)
    ensures Dispatched(again, second, later)
    ensures Smooth(old(s.script)) && keepFirst && Stranded(seen)
              && GateAtLocal(s.dag, s.hasGate, old(s.w), seen.run.value, seen.branch, seen.head.value)
              && Resumable(old(s.w), seen.run.value, seen.head.value) ==>
              subject == seen.run && Completed(old(s.w), mid, seen.run.value, first)
  {
    hide Session.Valid, Quiet, Awake, Calm, Sighted, Smooth, Blind, ReturnsCustodyOf, Undisturbed, Unrivalled,
         Acknowledged, OwnSteps, CutsAre, GateAtLocal, Resumable, Completed;
    s.Levels();
    first, seen, subject := Recover(s, keepFirst, false);
    mid := s.w;
    s.RunsDistinct();
    s.Levels();
    second, again, later := Recover(s, keepSecond, false);
    if Calm(old(s.script)) && first.Recovered? && subject.Some? {
      SameRunRepeats(s, old(s.w), mid, s.w, first, second, seen, again, subject.value, later);
    }
  }

  /**
   * A newer bound run and a stranded one, whose recorded head 90 is anchored and
   * whose gate branch is at the local head.
   */
  function RivalledWorld(): World {
    var bound := Run(2, 5, 70, 0, Some(70), Terminal, Some(70), Some(1), Some(1), Some(5), Some(1), false, false, true,
        false);
    var stranded := Run(1, 5, 90, 0, Some(80), Terminal, None, None, None, None, None, false, false, true, false);
    World(Repo({10, 80, 90}, map[Branch(5) := 10, Anchor(RecoverAnchor, 1, false) := 90]), On(5), map[], false,
          Repo({10}, map[Branch(5) := 10]), [bound, stranded], map[])
  }

  function RivalledDag(): Dag {
    Dag(map[10 := {10}, 80 := {80}, 90 := {80, 90}], map[10 := map[], 80 := map[], 90 := map[]])
  }

  lemma RivalledIsValid()
    ensures RivalledDag().Valid() && RivalledWorld().Valid(RivalledDag())
  {
  }

  lemma RivalledFirst(s: Session, seen: View)
    requires s.dag == RivalledDag() && s.target == Target(1, 1) && s.hasGate && Reports(s, RivalledWorld(), seen)
    ensures Stranded(seen)
              && GateAtLocal(s.dag, s.hasGate, RivalledWorld(), seen.run.value, seen.branch, seen.head.value)
    ensures seen.run == Some(RivalledWorld().runs[1]) && seen.run.value.id == 1
              && Resumable(RivalledWorld(), seen.run.value, seen.head.value)
  {
    hide Chosen, Classify;
    ChoosesStranded(EvidenceOf(s, RivalledWorld(), 5));
    SelectedIff(s, RivalledWorld(), seen, 1);
    StandingIsClassified(s, RivalledWorld(), seen);
  }

  lemma RivalledSecond(s: Session, mid: World, again: View)
    requires s.target == Target(1, 1) && s.hasGate && Reports(s, mid, again)
    requires mid == RivalledWorld().(runs := Stamped(RivalledWorld().runs, 1))
    ensures again.run.Some? && !again.run.value.returned && again.standing == Bound
    ensures !AnchorsConflict(mid.wt, 1)
  {
    hide Chosen, Classify;
    ChoosesStranded(EvidenceOf(s, mid, 5));
    SelectedIff(s, mid, again, 0);
    StandingIsClassified(s, mid, again);
  }

  /** There a keep-local return is reported, and the same call at once refuses: there is nothing to recover. */
  method ReturnForgotten() returns (first: Report, second: Report)
    ensures first.Recovered? && second == Refused(NotApplicable)
  {
    hide Session.Valid, Reports, Stranded, GateAtLocal, Resumable, RepeatsItself, AnchorsConflict, Stamped, Alias,
         RivalledWorld, RivalledDag, World.Valid, Dag.Valid, Smooth, Blind, Calm, Sighted, Awake, Quiet;
    var w := RivalledWorld();
    RivalledIsValid();
    AlwaysCalm();
    var s := new Session(RivalledDag(), Target(1, 1), true, w, Always(CALM_TURN));
    s.Levels();
    ghost var mid, seen, again, subject, later;
    first, second, mid, seen, again, subject, later := RecoverTwice(s, true, true);
    RivalledFirst(s, seen);
    RivalledSecond(s, mid, again);
  }

  lemma ChoosesStranded(e: Evidence)
    requires e.branch == 5 && e.target == Target(1, 1) && e.gateHead == Some(10)
    ensures Chosen(e, RivalledWorld().runs, Some(1)) && Classify(RivalledWorld().runs[1]) == PipelineOwned
    ensures Chosen(e, Stamped(RivalledWorld().runs, 1), Some(0))
              && Classify(Stamped(RivalledWorld().runs, 1)[0]) == Bound
  {
    var before := RivalledWorld().runs;
    var after := Stamped(before, 1);
    assert Outstanding(e, before, 1) && !Outstanding(e, before, 0);
    assert Settled(5, after[0]) && !Outstanding(e, after, 0) && !Outstanding(e, after, 1);
  }

  // ----- a run alone on its branch -----

  /** What inspection reports of it, by the fields of its record. */
  lemma SoleIsSeen(s: Session, w: World, v: View, i: nat)
    requires Reports(s, w, v) && v.head.Some?
    requires i < |w.runs| && forall k :: 0 <= k < |w.runs| ==> (w.runs[k].branch == v.branch <==> k == i)
    ensures
      var r := w.runs[i];
      var selected :=
        || r.status == Active || r.returned || r.lastPushed != None
        || (r.submitted != None && r.head != r.submitted.value)
        || (r.submitted != None && r.status == Terminal && (!r.verified || r.head != NO_SHA));
      v.run == (if selected then Some(r) else None) && (selected ==> v.standing == Classify(r))
  {
    hide Chosen, Classify;
    var e := EvidenceOf(s, w, v.branch);
    var choice :| SelectedAs(e, w.runs, choice, v);
    SoleIsSelectedIff(e, w.runs, i);
    if Chosen(e, w.runs, None) {
      ChosenIsUnique(e, w.runs, choice, None);
    } else {
      ChosenIsUnique(e, w.runs, choice, Some(i));
    }
    if Chosen(e, w.runs, Some(i)) { ChosenIsUnique(e, w.runs, choice, Some(i)); }
  }

  /** What a call whose queries are answered answers about it, where it is not the call's to recover. */
  lemma SoleIsAnswered(s: Session, a: World, b: World, v: View, r: Report, subject: Option<Run>, i: nat)
    requires Reports(s, a, v) && v.head.Some?
    requires i < |a.runs| && forall k :: 0 <= k < |a.runs| ==> (a.runs[k].branch == v.branch <==> k == i)
    requires Dispatched(v, r, subject)
    requires QuietRecovery(s.dag, s.hasGate, a, b, r, v, subject) && CalmRecovery(s.dag, s.hasGate, a, b, r, v, subject)
    ensures
      var run := a.runs[i];
      var busy := run.pushActive || run.pushStepRunning;
      var unmoved := run.submitted == Some(run.head) && run.lastPushed == None;
      var bound := None !in {run.lastPushed, run.pushFingerprint, run.pushRef, run.pushGeneration, run.submitted};
      // Its outcome released the branch: nothing to do.
      && (!busy && unmoved && !run.returned && run.status == Terminal && run.verified && run.head != NO_SHA ==>
            r == Recovered(false, NO_FACTS) && b == a)
      // Custody was returned before: the facts again.
      && (run.returned ==> Acknowledged(s.dag, s.hasGate, b, r, run) && b == a)
      // It still runs.
      && (!busy && unmoved && !run.returned && run.status == Active ==> r == Refused(RunActive) && b == a)
      // It is pushing, was pushed whole, or never submitted anything.
      && (busy && !run.returned ==> r == Refused(NotApplicable) && b == a)
      && (bound && run.lastPushed == Some(run.head) && !run.returned ==> r == Refused(NotApplicable) && b == a)
      && (run.submitted == None && !run.returned ==> r == Refused(NotApplicable) && b == a)
  {
    hide Reports, CalmOutcome, QuietSubject, Acknowledged, Classify, SettledFrom;
    SoleIsSeen(s, a, v, i);
    StandsIff(a.runs[i]);
    if v.run.None? { assert r == Refused(NotApplicable); }
  }

  // ----- after a lookup that was not answered -----

  /** A commit that only an earlier recovery anchor of the run still names. */
  function ForgottenWorld(): World {
    var stranded := Run(1, 5, 90, 0, Some(80), Terminal, None, None, None, None, None, false, false, true, false);
    World(Repo({80, 90, 99}, map[Branch(5) := 90, Anchor(RecoverAnchor, 1, false) := 99]), On(5), map[], false,
          Repo({80}, map[Branch(5) := 80]), [stranded], map[])
  }

  function ForgottenDag(): Dag {
    Dag(map[80 := {80}, 90 := {80, 90}, 99 := {80, 99}], map[80 := map[], 90 := map[], 99 := map[]])
  }

  /** Every lookup of a private ref goes unanswered. */
  const BLIND_TURN := Turn(None, false, true, false, NO_SHA)

  lemma ForgottenIsValid()
    ensures ForgottenDag().Valid() && ForgottenWorld().Valid(ForgottenDag())
              && Held(ForgottenDag(), ForgottenWorld(), 99)
    ensures Blind(Always(BLIND_TURN)) && Awake(Always(BLIND_TURN))
  {
    assert ForgottenDag().Contains(ForgottenWorld().wt.refs[Anchor(RecoverAnchor, 1, false)], 99);
  }

  lemma ForgottenSeen(s: Session, seen: View)
    requires s.dag == ForgottenDag() && Reports(s, ForgottenWorld(), seen)
    ensures Stranded(seen) && seen.run == Some(ForgottenWorld().runs[0]) && seen.run.value.verified
    ensures s.dag.Contains(seen.head.value, seen.run.value.head)
    ensures !Held(s.dag, BlindlyReturned(ForgottenWorld(), seen.run.value), 99)
  {
    hide Chosen, Stamped;
    var e := EvidenceOf(s, ForgottenWorld(), 5);
    assert Chosen(e, ForgottenWorld().runs, Some(0)) by { ChoosesForgotten(e); }
    SelectedIff(s, ForgottenWorld(), seen, 0);
    StandingIsClassified(s, ForgottenWorld(), seen);
    assert seen.branch == 5;
  }

  lemma ChoosesForgotten(e: Evidence)
    requires e.branch == 5
    ensures Chosen(e, ForgottenWorld().runs, Some(0))
  {
    assert !Superseded(e, ForgottenWorld().runs, 0);
    assert Outstanding(e, ForgottenWorld().runs, 0);
  }

  lemma AnchorHolds(s: Session, r: Report, seen: View, subject: Option<Run>)
    requires s.Valid() && s.dag == ForgottenDag() && s.entry == ForgottenWorld()
    requires OwnSteps(s.dag, s.entry, s.log, 0, r, seen, subject) && NoneOverwritten(s.log, 0)
    ensures Held(s.dag, s.w, 99)
  {
    hide Session.Valid, NoneOverwritten, LosesAsTold, MovesHead, MovesOnto, SettledAt;
    s.Recorded();
    var anchor := Anchor(RecoverAnchor, 1, false);
    assert s.entry.wt.Get(anchor) == Some(99);
    assert AnchorsStay(s.entry, s.w);
    assert s.w.wt.Get(anchor) == Some(99);
    assert s.dag.Contains(s.w.wt.refs[anchor], 99);
  }

  /**
   * There, if the lookups of private refs go unanswered, `Recover` reports that
   * custody is returned, and the commit that the anchor named is held by nothing
   * any more. If they are answered it stays held.
   */
  method AnchorForgotten(answered: bool) returns (r: Report, after: World)
    ensures Held(ForgottenDag(), ForgottenWorld(), 99)
    ensures Held(ForgottenDag(), after, 99) <==> answered
    ensures !answered ==> r.Recovered?
  {
    hide Session.Valid, Reports, Stranded, World.Valid, Dag.Valid, Held, BlindlyReturned, ForgottenWorld, ForgottenDag,
         OwnSteps, Smooth, Blind, Calm, Sighted, Awake, Quiet;
    ForgottenIsValid();
    AlwaysCalm();
    var script := Always(if answered then CALM_TURN else BLIND_TURN);
    var s := new Session(ForgottenDag(), Target(1, 1), true, ForgottenWorld(), script);
    s.Levels();
    ghost var seen, subject;
    r, seen, subject := Recover(s, false, false);
    if answered { AnchorHolds(s, r, seen, subject); } else { ForgottenSeen(s, seen); }
    after := s.w;
  }

  // ----- after a call that was cut short -----

  /** Cut short at `cut`, the recovery of record `i` can be completed. */
  predicate Completes(cut: World, i: nat, branch: nat, local: Sha)
    requires i < |cut.runs|
  {
    && Unpublished(cut.runs[i]) && Resumable(cut, cut.runs[i], local)
    && forall k :: 0 <= k < i ==> !(cut.runs[k].branch == branch && Unpublished(cut.runs[k]))
  }

  /**
   * A keep-local call from world `cut` returns custody of the run whose recovery
   * was cut short there exactly when it can be completed: no record before it on
   * the branch is unpublished, its recorded head is anchored, and that head is
   * verified or the kept one is the submitted one. The stamp is then all that
   * changes.
   */
  ghost predicate Resumes(cut: World, b: World, subject: Run, branch: nat, local: Sha) {
    exists i: nat ::
      && i < |cut.runs| == |b.runs| && cut.runs[i] == subject && !subject.returned && subject.branch == branch
      && (b.runs[i].returned <==> Completes(cut, i, branch, local))
      && (b.runs[i].returned ==> b == cut.(runs := Stamped(cut.runs, subject.id)))
  }

  lemma UnpublishedIsOwned(r: Run)
    requires Unpublished(r) && r.status.Terminal? && PushFieldsTogether(r) && !r.pushActive && !r.pushStepRunning
    ensures Classify(r) == PipelineOwned
  {
  }

  lemma OwnedIsIdle(r: Run)
    requires Classify(r) == PipelineOwned
    ensures !r.pushActive && !r.pushStepRunning
  {
  }

  /** Which record the cut call was recovering. */
  lemma CutRecord(s: Session, a: World, seen: View, subject: Run) returns (i: nat)
    requires DistinctIds(a.runs) && Reports(s, a, seen) && Stranded(seen)
    requires SettledFrom(s.dag, s.hasGate, a, seen.run.value, subject)
    ensures i < |a.runs| && seen.run == Some(a.runs[i]) && Chosen(EvidenceOf(s, a, seen.branch), a.runs, Some(i))
    ensures var runs := SettledRuns(a.runs, seen.run.value, subject); SameBut(a.runs, runs, i) && runs[i] == subject
  {
    hide Chosen, Classify;
    var e := EvidenceOf(s, a, seen.branch);
    var choice: Option<nat> :| SelectedAs(e, a.runs, choice, seen);
    SelectedExists(e, a.runs, choice, seen);
    i := choice.value;
  }

  /** Inspection of the cut world selects the cut run again exactly when no record before it is unpublished. */
  lemma CutReselects(s: Session, a: World, cut: World, seen: View, again: View, subject: Run, i: nat)
    requires DistinctIds(a.runs) && DistinctIds(cut.runs) && s.hasGate
    requires i < |a.runs| && Chosen(EvidenceOf(s, a, seen.branch), a.runs, Some(i)) && SameBut(a.runs, cut.runs, i)
              && cut.runs[i] == subject
    requires a.runs[i].branch == seen.branch && Unpublished(a.runs[i]) && Unpublished(subject)
    requires a.gate.Get(Branch(seen.branch)).Some?
              && a.gate.Get(Branch(seen.branch)) != cut.gate.Get(Branch(seen.branch))
    requires LocalHead(cut).Some? && cut.head == On(seen.branch) && cut.gate.Get(Branch(seen.branch)) == LocalHead(cut)
    requires !s.dag.Contains(LocalHead(cut).value, subject.head)
    requires Reports(s, cut, again)
    ensures again.branch == seen.branch && again.head == LocalHead(cut)
    ensures again.run == Some(subject) <==> forall k :: 0 <= k < i ==>
              !(cut.runs[k].branch == seen.branch && Unpublished(cut.runs[k]))
  {
    hide Chosen, Unpublished;
    ReselectedAfterGateMove(EvidenceOf(s, a, seen.branch), a.runs, cut.runs, i, LocalHead(cut).value);
    SelectedIff(s, cut, again, i);
  }

  /** What the second call is known to do, `s` standing for either session. */
  ghost predicate Answered(s: Session, cut: World, b: World, second: Report, again: View, later: Option<Run>) {
    && Reports(s, cut, again) && QuietRecovery(s.dag, s.hasGate, cut, b, second, again, later)
    && (Stranded(again) && GateAtLocal(s.dag, s.hasGate, cut, again.run.value, again.branch, again.head.value) ==>
          && (Resumable(cut, again.run.value, again.head.value) ==>
               later == again.run && Completed(cut, b, again.run.value, second))
          && (!Resumable(cut, again.run.value, again.head.value) && again.run.value.submitted != again.head ==>
               !Settles(second)))
  }

  /** Only the run a call is about can have its custody returned by it. */
  lemma ReturnedIsSubject(s: Session, cut: World, b: World, second: Report, again: View, later: Option<Run>, i: nat)
    requires DistinctIds(cut.runs) && i < |cut.runs| && !cut.runs[i].returned
    requires Answered(s, cut, b, second, again, later)
    ensures |b.runs| == |cut.runs|
    ensures b.runs[i].returned ==> Stranded(again) && again.run == Some(cut.runs[i]) && Settles(second)
  {
    hide Classify, Selectable, Chosen, GateAtLocal, Resumable, Completed, StayedOrArrived;
    if later.Some? {
      var choice: Option<nat> :| SelectedAs(EvidenceOf(s, cut, again.branch), cut.runs, choice, again);
      SelectedExists(EvidenceOf(s, cut, again.branch), cut.runs, choice, again);
    }
  }

  lemma ChosenIsSelectable(e: Evidence, runs: seq<Run>, i: nat)
    requires Chosen(e, runs, Some(i))
    ensures i < |runs| && runs[i].branch == e.branch && Selectable(e.branch, runs[i])
  {
  }

  lemma CutIsAtLocal(s: Session, a: World, cut: World, runs: seq<Run>, seen: View, again: View, subject: Run)
    requires s.hasGate && Reports(s, a, seen) && seen.head.Some?
              && Cut(a, runs, cut, subject, seen.branch, seen.head.value)
    requires !s.dag.Contains(seen.head.value, subject.head) && !Alias(a.wt, LocalAnchor, subject.id).Conflict?
    requires Reports(s, cut, again)
    ensures LocalHead(cut) == seen.head && cut.head == On(seen.branch) && again.branch == seen.branch
              && again.head == seen.head
    ensures GateAtLocal(s.dag, s.hasGate, cut, subject, seen.branch, seen.head.value)
    ensures Names(Alias(cut.wt, RecoverAnchor, subject.id), subject.head) || subject.submitted != seen.head
  {
    hide Classify, Chosen, World.Clean;
  }

  /** The cut run, selected again, is completed exactly when it is resumable. */
  lemma CutAnswered(s: Session, cut: World, b: World, second: Report, again: View, later: Option<Run>, subject: Run,
      i: nat)
    requires DistinctIds(cut.runs) && i < |cut.runs| && cut.runs[i] == subject && !subject.returned
              && subject.status.Terminal?
    requires Answered(s, cut, b, second, again, later) && again.run == Some(subject) && again.head.Some?
              && Classify(subject) == PipelineOwned
    requires GateAtLocal(s.dag, s.hasGate, cut, subject, again.branch, again.head.value)
    requires Names(Alias(cut.wt, RecoverAnchor, subject.id), subject.head) || subject.submitted != again.head
    ensures |b.runs| == |cut.runs| && (b.runs[i].returned <==> Resumable(cut, subject, again.head.value))
    ensures b.runs[i].returned ==> b == cut.(runs := Stamped(cut.runs, subject.id))
  {
    hide Classify, Chosen, GateAtLocal, Names;
    StandingIsClassified(s, cut, again);
    ReturnedIsSubject(s, cut, b, second, again, later, i);
  }

  lemma CutResumes(s: Session, a: World, cut: World, b: World, seen: View, subject: Run, second: Report, again: View,
      later: Option<Run>)
    requires DistinctIds(a.runs) && DistinctIds(cut.runs) && (forall r :: r in a.runs ==> PushFieldsTogether(r))
    requires s.hasGate && Reports(s, a, seen) && Stranded(seen)
              && SettledFrom(s.dag, s.hasGate, a, seen.run.value, subject)
    requires !s.dag.Contains(seen.head.value, subject.head) && !Alias(a.wt, LocalAnchor, subject.id).Conflict?
    requires Cut(a, SettledRuns(a.runs, seen.run.value, subject), cut, subject, seen.branch, seen.head.value)
    requires Answered(s, cut, b, second, again, later)
    ensures Resumes(cut, b, subject, seen.branch, seen.head.value)
  {
    hide Chosen, Classify, Unpublished, Selectable, Names, Alias, GateAtLocal, Resumable, SettledRuns,
         PushFieldsTogether;
    var branch, local := seen.branch, seen.head.value;
    var i := CutRecord(s, a, seen, subject);
    CutIsAtLocal(s, a, cut, SettledRuns(a.runs, seen.run.value, subject), seen, again, subject);
    CutWasOwned(s, a, seen, i);
    PushFieldsStay(a.runs[i], subject);
    ReturnedIsSubject(s, cut, b, second, again, later, i);
    if Unpublished(subject) {
      CutReselects(s, a, cut, seen, again, subject, i);
      UnpublishedIsOwned(subject);
      if again.run == Some(subject) { CutAnswered(s, cut, b, second, again, later, subject, i); }
    } else if b.runs[i].returned {
      SelectedIff(s, cut, again, i);
      ChosenIsSelectable(EvidenceOf(s, cut, branch), cut.runs, i);
      StandingIsClassified(s, cut, again);
      OwnedIsUnpublished(subject);
    }
  }

  lemma PushFieldsStay(r: Run, after: Run)
    requires after == r.(head := after.head, verified := after.verified) && PushFieldsTogether(r)
    ensures PushFieldsTogether(after)
  {
  }

  lemma CutWasOwned(s: Session, a: World, seen: View, i: nat)
    requires Reports(s, a, seen) && Stranded(seen) && i < |a.runs| && seen.run == Some(a.runs[i])
    requires Chosen(EvidenceOf(s, a, seen.branch), a.runs, Some(i)) && PushFieldsTogether(a.runs[i])
    ensures a.runs[i].branch == seen.branch && Unpublished(a.runs[i]) && !a.runs[i].pushActive
              && !a.runs[i].pushStepRunning
  {
    hide Chosen;
    StandingIsClassified(s, a, seen);
    ChosenIsSelectable(EvidenceOf(s, a, seen.branch), a.runs, i);
    OwnedIsUnpublished(a.runs[i]);
    OwnedIsIdle(a.runs[i]);
  }

  /**
   * A keep-local `Recover` cut short in the world `cut`, and `Recover` called
   * there by a new session. The first call may be cut anywhere between the gate
   * swap and the stamp.
   */
  method RecoverAfterCut(s: Session, keepLocal: bool, cut: World, script: Script)
    returns (first: Report, second: Report, next: Session, ghost seen: View, ghost subject: Option<Run>)
    requires s.Valid() && cut.Valid(s.dag)
    modifies s
    ensures s.Grown() && fresh(next) && next.Valid() && next.entry == cut
    ensures Calm(old(s.script)) ==> Reports(s, old(s.w), seen)
    ensures Smooth(old(s.script)) && keepLocal && Stranded(seen) && seen.run.value.verified
              && CanSwap(s, old(s.w), seen) ==>
              subject == seen.run && SwapCut(s, old(s.w), seen.run.value.id, seen.branch, seen.head.value)
    ensures Calm(old(s.script)) && Smooth(script) && (forall r :: r in old(s.w).runs ==> PushFieldsTogether(r))
              && (exists k :: CutAt(s, k) && cut == Moment(s.entry, s.log, k)) ==>
              && keepLocal && subject.Some? && seen.head.Some?
              && Resumes(cut, next.w, subject.value, seen.branch, seen.head.value)
  {
    hide Session.Valid, Quiet, Awake, Calm, Sighted, Smooth, Blind, ReturnsCustodyOf, Undisturbed, OwnSteps,
         GateAtLocal, Resumable, Completed, Reports, Cut, Resumes, SwapCut, CanSwap, QuietRecovery, CalmRecovery,
         PushFieldsTogether;
    s.Levels();
    s.RunsDistinct();
    first, seen, subject := Recover(s, keepLocal, false);
    s.DagIsValid();
    next := new Session(s.dag, s.target, s.hasGate, cut, script);
    next.RunsDistinct();
    next.Levels();
    ghost var later, again;
    second, again, later := Recover(next, true, false);
    if Calm(old(s.script)) && Smooth(script) && (forall r :: r in old(s.w).runs ==> PushFieldsTogether(r))
       && exists k :: CutAt(s, k) && cut == Moment(s.entry, s.log, k) {
      CalmSubject(s, old(s.w), s.w, first, seen, subject);
      SameEvidence(s, next, old(s.w), seen);
      CutResumes(next, old(s.w), cut, next.w, seen, subject.value, second, again, later);
    }
  }

  /** The run is pinned and stranded at commit 70, at which the gate branch is, under a local head 10. */
  function HiddenWorld(between: bool): World {
    World(Repo({10, 60, 70}, map[Branch(5) := 10, Anchor(RecoverAnchor, 1, false) := 70]), On(5), map[], false,
          Repo({60, 70}, map[Branch(5) := 70]), HiddenRuns(between), map[])
  }

  lemma HiddenIsValid(between: bool)
    ensures HiddenDag().Valid() && HiddenWorld(between).Valid(HiddenDag())
    ensures forall r :: r in HiddenWorld(between).runs ==> PushFieldsTogether(r)
  {
  }

  lemma HiddenCutIsValid(between: bool)
    requires HiddenWorld(between).Valid(HiddenDag())
    ensures var cut := KeptAtGate(HiddenDag(), HiddenWorld(between), 1, 5, 10);
            cut.Valid(HiddenDag()) && cut.gate.Get(Branch(5)) == Some(10) && cut.runs == HiddenRuns(between)
  {
    hide HiddenRuns, DistinctIds;
  }

  lemma AlwaysCalm()
    ensures Smooth(Always(CALM_TURN)) && Calm(Always(CALM_TURN))
  {
  }

  lemma SwapCutIsMoment(s: Session, a: World, run: nat, branch: nat, local: Sha)
    requires SwapCut(s, a, run, branch, local)
    ensures exists k: nat :: CutAt(s, k) && k <= |s.log|
              && Moment(s.entry, s.log, k) == KeptAtGate(s.dag, a, run, branch, local)
  {
    hide KeptAtGate, Moment;
  }

  lemma HiddenFirst(s: Session, seen: View, between: bool)
    requires s.dag == HiddenDag() && s.target == Target(1, 1) && s.hasGate && Reports(s, HiddenWorld(between), seen)
    ensures Stranded(seen) && seen.run == Some(HiddenRuns(between)[|HiddenRuns(between)| - 1])
    ensures seen.run.value.id == 1 && seen.run.value.verified && seen.branch == 5 && seen.head == Some(10)
              && CanSwap(s, HiddenWorld(between), seen)
  {
    hide Chosen, Classify;
    HiddenIsChosen(between);
    SelectedIff(s, HiddenWorld(between), seen, |HiddenRuns(between)| - 1);
    StandingIsClassified(s, HiddenWorld(between), seen);
    HiddenIsOwned(between);
  }

  lemma HiddenIsOwned(between: bool)
    ensures Classify(HiddenRuns(between)[|HiddenRuns(between)| - 1]) == PipelineOwned
  {
  }

  lemma HiddenResumes(between: bool, b: World)
    requires Resumes(KeptAtGate(HiddenDag(), HiddenWorld(between), 1, 5, 10), b,
              HiddenRuns(between)[|HiddenRuns(between)| - 1], 5, 10)
    ensures |b.runs| == |HiddenRuns(between)| && (b.runs[|b.runs| - 1].returned <==> !between)
  {
  }

  /**
   * A keep-local call and the moment it may be cut short at, the gate branch
   * moved and the run not stamped. The call made there instead returns custody
   * where no run lies between; with the superseded run in between it does not.
   */
  method CutAndResumed(between: bool) returns (cut: World, after: World, ghost log: seq<Step>)
    ensures Chain(HiddenDag(), HiddenWorld(between), log, Moment(HiddenWorld(between), log, |log|))
    ensures exists k: nat :: k <= |log| && Moment(HiddenWorld(between), log, k) == cut
    ensures cut.gate.Get(Branch(5)) == Some(10) && cut.runs == HiddenRuns(between)
    ensures |after.runs| == |cut.runs| && (after.runs[|after.runs| - 1].returned <==> !between)
  {
    hide Session.Valid, Reports, Stranded, SwapCut, CanSwap, HiddenWorld, HiddenDag, HiddenRuns, KeptAtGate, Resumes,
         World.Valid, Dag.Valid, Chain, Moment, CutAt, PushFieldsTogether, Smooth, Blind, Calm, Sighted, Awake, Quiet;
    var w := HiddenWorld(between);
    cut := KeptAtGate(HiddenDag(), w, 1, 5, 10);
    HiddenIsValid(between);
    HiddenCutIsValid(between);
    AlwaysCalm();
    var s := new Session(HiddenDag(), Target(1, 1), true, w, Always(CALM_TURN));
    s.Levels();
    ghost var seen, subject;
    var first, second, next;
    first, second, next, seen, subject := RecoverAfterCut(s, true, cut, Always(CALM_TURN));
    HiddenFirst(s, seen, between);
    SwapCutIsMoment(s, w, 1, 5, 10);
    s.Recorded();
    HiddenResumes(between, next.w);
    after, log := next.w, s.log;
  }

  lemma CalmSubject(s: Session, a: World, b: World, r: Report, seen: View, subject: Option<Run>)
    requires CalmRecovery(s.dag, s.hasGate, a, b, r, seen, subject) && subject.Some?
    ensures Stranded(seen) && SettledFrom(s.dag, s.hasGate, a, seen.run.value, subject.value)
  {
    hide CalmOutcome, Acknowledged;
  }

  lemma SameEvidence(s: Session, next: Session, w: World, v: View)
    requires next.dag == s.dag && next.target == s.target && next.hasGate == s.hasGate && Reports(s, w, v)
    ensures Reports(next, w, v)
  {
    hide Chosen, Classify;
    if v.head.Some? {
      var choice: Option<nat> :| SelectedAs(EvidenceOf(s, w, v.branch), w.runs, choice, v);
      assert SelectedAs(EvidenceOf(next, w, v.branch), w.runs, choice, v);
    }
  }
}
