/** What the service believes about the checked-out branch before it acts. */
module Inspection {
  import opened Options
  import opened Objects
  import opened Runs
  import opened Worlds
  import opened Commands

  datatype Standing =
    AmbiguousContext | LegacyUnbound | PushInProgress | PipelineOwned | CustodyReturned | UserOwned | Bound

  /** `Bound` covers every classification past the pipeline-owned checks. */
  function Classify(r: Run): Standing {
    if r.pushActive || r.pushStepRunning then PushInProgress
    else if r.lastPushed.None? || r.pushFingerprint.None? || r.pushRef.None? || r.pushGeneration.None?
        || r.submitted.None? then
      if r.submitted.Some? && r.head != r.submitted.value then
        if r.returned then CustodyReturned else PipelineOwned
      else if r.submitted.Some? && r.lastPushed.None? then
        if r.returned then CustodyReturned
        else if r.status.Active? then PipelineOwned
        else if r.status.Terminal? && r.verified && HeadUnmoved(r) then UserOwned
        else if r.status.Terminal? then PipelineOwned
        else LegacyUnbound
      else LegacyUnbound
    else if Some(r.head) != r.lastPushed && !r.returned then PipelineOwned
    else Bound
  }

  /** When each standing is given, by the fields of the record. */
  lemma StandsIff(r: Run)
    ensures
      var busy := r.pushActive || r.pushStepRunning;
      var moved := r.submitted != None && r.head != r.submitted.value;
      var unmoved := r.submitted != None && r.head == r.submitted.value && r.lastPushed == None;
      var bound := None !in {r.lastPushed, r.pushFingerprint, r.pushRef, r.pushGeneration, r.submitted};
      var verified := r.verified && r.head != NO_SHA;
      && (Classify(r) == PushInProgress <==> busy)
      && (Classify(r) == UserOwned <==> !busy && unmoved && !r.returned && r.status == Terminal && verified)
      && (Classify(r) == CustodyReturned <==> !busy && !bound && (moved || unmoved) && r.returned)
      && (Classify(r) == Bound <==> !busy && bound && (r.returned || r.lastPushed == Some(r.head)))
      && (Classify(r) == PipelineOwned <==>
            && !busy && !r.returned
            && if bound then r.lastPushed != Some(r.head)
               else moved || (unmoved && (r.status == Active || (r.status == Terminal && !verified))))
  {
    if None !in {r.lastPushed, r.pushFingerprint, r.pushRef, r.pushGeneration, r.submitted} {
      assert r.lastPushed != None && r.pushFingerprint != None && r.pushRef != None;
    }
  }

  /** The push-binding columns are written by one statement, so they are set together. */
  predicate PushFieldsTogether(r: Run) {
    r.lastPushed.Some? ==> r.pushFingerprint.Some? && r.pushRef.Some? && r.pushGeneration.Some? && r.submitted.Some?
  }

  datatype View = View(branch: nat, head: Option<Sha>, clean: bool, run: Option<Run>, standing: Standing)

  /** The local head a view reports: nothing on a detached or unborn HEAD. */
  function LocalHead(w: World): Option<Sha> {
    if w.head.On? then w.HeadCommit() else None
  }

  function EvidenceOf(s: Session, w: World, branch: nat): Evidence {
    Evidence(s.dag, s.target, branch, if s.hasGate then w.gate.Get(Branch(branch)) else None)
  }

  /** What inspection reports when every query is answered and nobody interferes. */
  ghost predicate Reports(s: Session, w: World, v: View) {
    && v.head == LocalHead(w)
    && if v.head.None? then v.run.None? && v.standing.AmbiguousContext?
       else
         && w.head == On(v.branch)
         && v.clean == w.Clean(s.dag)
         && exists choice :: SelectedAs(EvidenceOf(s, w, v.branch), w.runs, choice, v)
  }

  ghost predicate SelectedAs(e: Evidence, runs: seq<Run>, choice: Option<nat>, v: View) {
    && Chosen(e, runs, choice)
    && match choice
       case None => v.run.None? && v.standing in {AmbiguousContext, LegacyUnbound}
       case Some(i) => v.run == Some(runs[i]) && v.standing == Classify(runs[i])
  }

  /**
   * Since moment `n` the branch, its head, its cleanliness and then the run were
   * seen as the view has them, in that order.
   */
  ghost predicate Glimpsed(dag: Dag, entry: World, log: seq<Step>, n: nat, v: View) {
    v.head.Some? ==> exists i, j, k :: n <= i <= j <= k <= |log| && GlimpsedAt(dag, entry, log, i, j, k, v)
  }

  ghost predicate GlimpsedAt(dag: Dag, entry: World, log: seq<Step>, i: nat, j: nat, k: nat, v: View)
    requires i <= |log| && j <= |log| && k <= |log|
  {
    && Moment(entry, log, i).head == On(v.branch) && Moment(entry, log, j).HeadCommit() == v.head
    && (v.clean ==> Moment(entry, log, k).Clean(dag))
    && (v.run.Some? ==> exists l :: k <= l <= |log| && v.run.value in Moment(entry, log, l).runs)
  }

  lemma GlimpsedLater(dag: Dag, entry: World, log: seq<Step>, longer: seq<Step>, n: nat, v: View, run: Option<Run>,
      standing: Standing)
    requires |log| <= |longer| && (forall i :: 0 <= i < |log| ==> longer[i] == log[i])
    requires v.run.None? && Glimpsed(dag, entry, log, n, v)
    requires run.Some? ==> run.value in Moment(entry, longer, |longer|).runs
    ensures Glimpsed(dag, entry, longer, n, v.(run := run, standing := standing))
  {
    if v.head.Some? {
      var i, j, k :| n <= i <= j <= k <= |log| && GlimpsedAt(dag, entry, log, i, j, k, v);
      assert forall m :: 0 <= m <= |log| ==> Moment(entry, longer, m) == Moment(entry, log, m);
      assert GlimpsedAt(dag, entry, longer, i, j, k, v.(run := run, standing := standing));
    }
  }

  /** The checked-out branch, its head and whether the worktree is clean. */
  method LookLocal(s: Session) returns (v: View)
    requires s.Valid()
    modifies s
    ensures s.Onward() && s.AnchorsKept()
    ensures s.Alone() ==> s.w == old(s.w) && s.log == old(s.log)
    ensures v.run.None? && v.standing == AmbiguousContext && (v.head.Some? ==> v.head.value in s.dag.history)
    ensures s.Alone() && v.head.Some? ==>
              s.w.head == On(v.branch) && v.head == s.w.HeadCommit() && (v.clean ==> s.w.Clean(s.dag))
    ensures Awake(old(s.script)) ==> v.head == LocalHead(s.w)
    ensures Awake(old(s.script)) && v.head.Some? ==> s.w.head == On(v.branch) && v.clean == s.w.Clean(s.dag)
    ensures Glimpsed(s.dag, s.entry, s.log, |old(s.log)|, v)
  {
    hide Session.Valid, Quiet, Awake, Calm, Sighted, Smooth, Blind, World.Clean;
    s.Levels();
    v := View(0, None, false, None, AmbiguousContext);
    var branch := s.CurrentBranch();
    ghost var i := |s.log|;
    s.Now();
    if branch.None? { return; }
    var head := s.HeadSha();
    ghost var j := |s.log|;
    s.Now();
    if head.None? { return; }
    var clean := s.WorktreeClean();
    s.Now();
    v := View(branch.value, head, clean, None, AmbiguousContext);
    assert GlimpsedAt(s.dag, s.entry, s.log, i, j, |s.log|, v);
  }

  method Inspect(s: Session) returns (v: View)
    requires s.Valid()
    modifies s
    ensures s.Onward()
    ensures s.Alone() ==> s.w == old(s.w) && s.log == old(s.log)
    ensures v.run.None? ==> v.standing in {AmbiguousContext, LegacyUnbound}
    ensures v.run.Some? ==>
              v.standing == Classify(v.run.value) && v.head.Some? && v.run.value.branch == v.branch
              && Selectable(v.branch, v.run.value)
    ensures v.head.Some? ==> v.head.value in s.dag.history
    ensures s.Alone() && v.run.Some? ==> v.run.value in s.w.runs
    ensures s.Alone() && v.head.Some? ==>
              s.w.head == On(v.branch) && v.head == s.w.HeadCommit() && (v.clean ==> s.w.Clean(s.dag))
    ensures Awake(old(s.script)) ==> Reports(s, s.w, v)
    ensures Glimpsed(s.dag, s.entry, s.log, |old(s.log)|, v)
    ensures s.AnchorsKept()
  {
    hide Session.Valid, Quiet, Awake, Calm, Sighted, Smooth, Blind, Chosen, World.Clean, Glimpsed, Classify;
    s.Levels();
    v := LookLocal(s);
    if v.head.None? { return; }
    ghost var looked, local := s.log, v;
    var runs := s.ReadRuns();
    s.Now();
    ghost var listed := s.log;
    GlimpsedLater(s.dag, s.entry, looked, s.log, |old(s.log)|, v, None, AmbiguousContext);
    if runs.None? { return; }
    var gateHead := s.GateHead(v.branch);
    var choice := Select(Evidence(s.dag, s.target, v.branch, gateHead), runs.value);
    match choice {
      case None =>
        v := v.(standing := if runs.value == [] then LegacyUnbound else AmbiguousContext);
      case Some(i) =>
        v := v.(run := Some(runs.value[i]), standing := Classify(runs.value[i]));
    }
    GlimpsedLater(s.dag, s.entry, looked, listed, |old(s.log)|, local, v.run, v.standing);
    GlimpsedStays(s.dag, s.entry, listed, s.log, |old(s.log)|, v);
    if Awake(old(s.script)) {
      assert SelectedAs(EvidenceOf(s, s.w, v.branch), s.w.runs, choice, v);
    }
  }

  lemma GlimpsedStays(dag: Dag, entry: World, log: seq<Step>, longer: seq<Step>, n: nat, v: View)
    requires |log| <= |longer| && (forall i :: 0 <= i < |log| ==> longer[i] == log[i])
    requires Glimpsed(dag, entry, log, n, v)
    ensures Glimpsed(dag, entry, longer, n, v)
  {
    if v.head.Some? {
      var i, j, k :| n <= i <= j <= k <= |log| && GlimpsedAt(dag, entry, log, i, j, k, v);
      assert forall m :: 0 <= m <= |log| ==> Moment(entry, longer, m) == Moment(entry, log, m);
      assert GlimpsedAt(dag, entry, longer, i, j, k, v);
    }
  }

  // ----- the facts a custody return reports -----

  datatype Facts = Facts(preserved: Option<Ref>, abandoned: Option<Ref>, lost: Option<Sha>)

  /** Two spellings of an anchor that a report would name disagree. */
  predicate AnchorsConflict(wt: Repo, run: nat) {
    Alias(wt, RecoverAnchor, run).Conflict? || Alias(wt, AbandonedAnchor, run).Conflict?
  }

  const NO_FACTS := Facts(None, None, None)

  /** The branch head is `sha` or contains it. */
  predicate Carries(dag: Dag, wt: Repo, local: Option<Sha>, sha: Sha) {
    local.Some? && (local.value == sha || (local.value in wt.objects && dag.Contains(local.value, sha)))
  }

  function UnclaimedRef(dag: Dag, wt: Repo, kind: AnchorKind, run: nat, local: Option<Sha>): Option<Ref> {
    match Alias(wt, kind, run)
    case Found(ref, sha) => if Carries(dag, wt, local, sha) then None else Some(ref)
    case _ => None
  }

  function LostHead(dag: Dag, w: World, hasGate: bool, preserved: Sha, local: Option<Sha>): Option<Sha> {
    if preserved == NO_SHA || Carries(dag, w.wt, local, preserved) || preserved in w.wt.objects
        || (hasGate && preserved in w.gate.objects)
    then None
    else Some(preserved)
  }

  function FactsOf(dag: Dag, w: World, hasGate: bool, run: Run): Facts {
    Facts(UnclaimedRef(dag, w.wt, RecoverAnchor, run.id, LocalHead(w)),
          UnclaimedRef(dag, w.wt, AbandonedAnchor, run.id, LocalHead(w)),
          LostHead(dag, w, hasGate, run.head, LocalHead(w)))
  }

  method CheckUnclaimed(s: Session, kind: AnchorKind, run: nat, local: Option<Sha>)
      returns (conflict: bool, ref: Option<Ref>)
    requires s.Valid()
    modifies s
    ensures s.Onward()
    ensures s.Alone() ==> s.w == old(s.w) && s.log == old(s.log)
    ensures conflict ==> Alias(s.w.wt, kind, run).Conflict?
    ensures Calm(old(s.script)) ==> conflict == Alias(s.w.wt, kind, run).Conflict?
    ensures Blind(old(s.script)) ==> !conflict && ref.None?
    ensures ref.Some? ==> ref.value.Anchor? && s.w.wt.Get(ref.value).Some?
    ensures Calm(old(s.script)) && !conflict ==> ref == UnclaimedRef(s.dag, s.w.wt, kind, run, local)
    ensures s.AnchorsKept()
  {
    hide Session.Valid, Quiet, Awake, Calm, Sighted, Smooth, Blind;
    s.Levels();
    conflict, ref := false, None;
    var alias := s.ReadAlias(kind, run);
    match alias {
      case Conflict => conflict := true;
      case Absent =>
      case Found(found, sha) =>
        if local != Some(sha) {
          var carried := false;
          if local.Some? { carried := s.IsAncestor(sha, local.value); }
          if !carried { ref := Some(found); }
        }
    }
  }

  /** The recorded head, when the branch lacks it and neither object store has it. */
  method CheckLost(s: Session, head: Sha, local: Option<Sha>) returns (lost: Option<Sha>)
    requires s.Valid()
    modifies s
    ensures s.Onward() && s.AnchorsKept()
    ensures s.Alone() ==> s.w == old(s.w) && s.log == old(s.log)
    ensures Awake(old(s.script)) && local == LocalHead(s.w) ==> lost == LostHead(s.dag, s.w, s.hasGate, head, local)
  {
    hide Session.Valid, Quiet, Awake, Calm, Sighted, Smooth, Blind;
    s.Levels();
    lost := None;
    if head != NO_SHA && local != Some(head) {
      var carried := false;
      if local.Some? { carried := s.IsAncestor(head, local.value); }
      if !carried {
        var here := s.Has(head);
        if !here {
          var there := s.GateHas(head);
          if !there { lost := Some(head); }
        }
      }
    }
  }

  method AttachUnclaimed(s: Session, run: Run, local: Option<Sha>) returns (facts: Option<Facts>)
    requires s.Valid()
    modifies s
    ensures s.Onward()
    ensures s.Alone() ==> s.w == old(s.w) && s.log == old(s.log)
    ensures facts.None? ==> AnchorsConflict(s.w.wt, run.id)
    ensures Calm(old(s.script)) ==> (facts.None? <==> AnchorsConflict(s.w.wt, run.id))
    ensures Blind(old(s.script)) ==> facts.Some?
    ensures Calm(old(s.script)) && local == LocalHead(s.w) && facts.Some? ==>
              facts.value == FactsOf(s.dag, s.w, s.hasGate, run)
    ensures s.AnchorsKept()
  {
    hide Session.Valid, Quiet, Awake, Calm, Sighted, Smooth, Blind, Alias;
    s.Levels();
    facts := None;
    var conflict, preserved := CheckUnclaimed(s, RecoverAnchor, run.id, local);
    if conflict { return; }
    var conflict2, abandoned := CheckUnclaimed(s, AbandonedAnchor, run.id, local);
    if conflict2 { return; }
    var lost := CheckLost(s, run.head, local);
    facts := Some(Facts(preserved, abandoned, lost));
  }
}
