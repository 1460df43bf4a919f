/** `Apply`: advancing the checked-out branch to the exact pipeline-pushed commit. */
module Advance {
  import opened Options
  import opened Objects
  import opened Runs
  import opened Worlds
  import opened Commands
  import opened Inspection

  /** What a refresh planned; nothing in it is trusted without a recheck. */
  datatype Plan = Plan(run: nat, branch: nat, local: Sha, pushed: Sha, generation: nat, equivalent: bool)

  datatype Outcome = Applied | Refused | Failed | LeftUnclean

  predicate BindingHolds(target: Target, r: Run, plan: Plan) {
    && !r.pushActive
    && r.pushGeneration == Some(plan.generation)
    && r.pushFingerprint == Some(target.fingerprint)
    && r.pushKind == Some(target.kind)
  }

  /** Relative to the recorded base or a common ancestor, the pushed head has every change of the local head. */
  ghost predicate Equivalent(dag: Dag, local: Sha, pushed: Sha, recorded: Sha) {
    exists base ::
      && {base, local, pushed} <= dag.trees.Keys
           && (base == recorded || (dag.Contains(local, base) && dag.Contains(pushed, base)))
      && CarriesAll(dag.trees[base], dag.trees[pushed], dag.trees[local])
  }

  predicate Usable(w: World, recorded: Sha) { recorded != NO_SHA && recorded in w.wt.objects }

  /** The base is the recorded one if the repository has it, else the merge base `pick`; it proves the containment. */
  ghost predicate Proves(dag: Dag, w: World, pick: Sha, local: Sha, pushed: Sha, recorded: Sha) {
    var base := if Usable(w, recorded) then recorded else pick;
    && NO_SHA !in {local, pushed} && local != pushed && {base, local, pushed} <= w.wt.objects * dag.trees.Keys
    && (Usable(w, recorded) || (dag.Contains(local, base) && dag.Contains(pushed, base)))
    && CarriesAll(dag.trees[base], dag.trees[pushed], dag.trees[local])
  }

  /** The recorded base if the repository has it, else a merge base. */
  method UsableBase(s: Session, local: Sha, pushed: Sha, recorded: Sha) returns (base: Option<Sha>)
    requires s.Valid()
    modifies s
    ensures s.Onward() && s.AnchorsKept()
    ensures s.Alone() ==> s.w == old(s.w)
    ensures base.Some? ==>
              base == Some(recorded) || (s.dag.Contains(local, base.value) && s.dag.Contains(pushed, base.value))
    ensures Awake(old(s.script)) && Usable(s.w, recorded) ==> base == Some(recorded)
    ensures Smooth(old(s.script)) && !Usable(s.w, recorded) && {local, pushed} <= s.w.wt.objects
              && s.dag.Contains(local, s.script.rest.pick) && s.dag.Contains(pushed, s.script.rest.pick) ==>
              base == Some(s.script.rest.pick)
  {
    hide Session.Valid, Quiet, Awake, Calm, Sighted, Smooth, Blind;
    s.Levels();
    var usable := recorded != NO_SHA;
    if usable { usable := s.Has(recorded); }
    if usable { return Some(recorded); }
    base := s.MergeBase(local, pushed);
  }

  /** Merging local onto the recorded base, or else a merge base, must add nothing to the pushed head. */
  method ProveEquivalent(s: Session, local: Sha, pushed: Sha, recorded: Sha) returns (yes: bool)
    requires s.Valid()
    modifies s
    ensures s.Onward() && s.AnchorsKept()
    ensures s.Alone() ==> s.w == old(s.w)
    ensures yes ==> local != pushed && Equivalent(s.dag, local, pushed, recorded)
    ensures Smooth(old(s.script)) && Proves(s.dag, s.w, s.script.rest.pick, local, pushed, recorded) ==> yes
  {
    hide Session.Valid, Quiet, Awake, Calm, Sighted, Smooth, Blind, CarriesAll;
    s.Levels();
    if local == NO_SHA || pushed == NO_SHA || local == pushed { return false; }
    var base := UsableBase(s, local, pushed, recorded);
    if base.None? { return false; }
    var listed := s.Has(base.value);
    if !listed { return false; }
    yes := s.MergeIsNoop(base.value, pushed, local);
  }

  /** The call has turned to the plan's run. */
  ghost predicate For(s: Session, plan: Plan)
    reads s
  {
    s.call.aimed && s.call.goal == plan.pushed && s.call.id == plan.run
  }

  predicate AnchorIsFree(wt: Repo, run: nat, local: Sha) {
    Alias(wt, SyncAnchor, run).Absent? || Names(Alias(wt, SyncAnchor, run), local)
  }

  /** Anchor the pre-sync head, unless the anchor was read to name another commit, and read it back. */
  method AnchorPreSync(s: Session, run: nat, local: Sha) returns (ok: bool)
    requires s.Valid() && s.call.aimed && s.call.id == run
    modifies s
    ensures s.Anchoring()
    ensures !Taken(old(s.w).wt, Anchor(SyncAnchor, run, false), local) ==> s.overwrites == old(s.overwrites)
    ensures ok ==> s.w.wt.Get(Anchor(SyncAnchor, run, false)) == Some(local)
    ensures Calm(old(s.script)) && ok ==> Names(Alias(s.w.wt, SyncAnchor, run), local)
    ensures Smooth(old(s.script)) && AnchorIsFree(old(s.w).wt, run, local) && local in old(s.w).wt.objects ==> ok
    ensures forall x: Ref :: IsPrivate(x) && x != Anchor(SyncAnchor, run, false) ==> s.w.wt.Get(x) == old(s.w).wt.Get(x)
    ensures s.Alone() ==> Undisturbed(old(s.w), s.w) && s.w.runs == old(s.w.runs) && s.w.gate == old(s.w).gate
  {
    hide Session.Valid, Quiet, Awake, Calm, Sighted, Smooth, Blind, Undisturbed;
    s.Levels();
    UndisturbedByItself(s.w);
    var first := s.ReadAlias(SyncAnchor, run);
    match first {
      case Conflict => return false;
      case Absent =>
      case Found(_, sha) => if sha != local { return false; }
    }
    if !first.Found? || first.ref != Anchor(SyncAnchor, run, false) {
      var put := s.PutAnchor(SyncAnchor, run, local);
      if !put { return false; }
    }
    var now := s.ReadAlias(SyncAnchor, run);
    ok := Names(now, local);
  }

  // ----- what a call has seen before it moves -----

  /** A record of the plan's run, pushed as planned and to the configured target, and no push under way. */
  ghost predicate Recorded(target: Target, w: World, plan: Plan) {
    exists r :: r in w.runs && r.id == plan.run
             && !r.pushActive && r.lastPushed == Some(plan.pushed) && r.pushRef == Some(plan.branch)
             && r.pushGeneration == Some(plan.generation)
             && r.pushKind == Some(target.kind) && r.pushFingerprint == Some(target.fingerprint)
  }

  /**
   * Between the moments `n` and `m` the planned branch, then its planned head, then
   * a clean worktree, then this record of the branch.
   */
  ghost predicate Looked(dag: Dag, entry: World, log: seq<Step>, n: nat, m: nat, plan: Plan, run: Run)
    requires m <= |log|
  {
    exists i, j, k, l :: n <= i <= j <= k <= l <= m && LookedAt(dag, entry, log, i, j, k, l, plan, run)
  }

  ghost predicate LookedAt(dag: Dag, entry: World, log: seq<Step>, i: nat, j: nat, k: nat, l: nat, plan: Plan, run: Run)
    requires i <= |log| && j <= |log| && k <= |log| && l <= |log|
  {
    && Moment(entry, log, i).head == On(plan.branch) && Moment(entry, log, j).HeadCommit() == Some(plan.local)
    && Moment(entry, log, k).Clean(dag) && run in Moment(entry, log, l).runs && run.branch == plan.branch
  }

  lemma GlimpseIsLook(dag: Dag, entry: World, log: seq<Step>, n: nat, plan: Plan, v: View)
    requires Glimpsed(dag, entry, log, n, v) && v.branch == plan.branch && v.head == Some(plan.local) && v.clean
    requires v.run.Some? && v.run.value.branch == plan.branch
    ensures Looked(dag, entry, log, n, |log|, plan, v.run.value)
  {
    var i, j, k :| n <= i <= j <= k <= |log| && GlimpsedAt(dag, entry, log, i, j, k, v);
    var l :| k <= l <= |log| && v.run.value in Moment(entry, log, l).runs;
    assert LookedAt(dag, entry, log, i, j, k, l, plan, v.run.value);
  }

  lemma LookedStays(dag: Dag, entry: World, log: seq<Step>, longer: seq<Step>, n: nat, m: nat, plan: Plan, run: Run)
    requires m <= |log| <= |longer| && (forall i :: 0 <= i < |log| ==> longer[i] == log[i])
    requires Looked(dag, entry, log, n, m, plan, run)
    ensures Looked(dag, entry, longer, n, m, plan, run)
  {
    hide LookedAt;
    var i, j, k, l :| n <= i <= j <= k <= l <= m && LookedAt(dag, entry, log, i, j, k, l, plan, run);
    LookedAtStays(dag, entry, log, longer, i, j, k, l, plan, run);
  }

  lemma LookedAtStays(dag: Dag, entry: World, log: seq<Step>, longer: seq<Step>, i: nat, j: nat, k: nat, l: nat,
      plan: Plan,
      run: Run)
    requires |log| <= |longer| && (forall q :: 0 <= q < |log| ==> longer[q] == log[q])
    requires i <= |log| && j <= |log| && k <= |log| && l <= |log|
    ensures LookedAt(dag, entry, longer, i, j, k, l, plan, run) <==> LookedAt(dag, entry, log, i, j, k, l, plan, run)
  {
    hide World.Clean, World.HeadCommit;
    assert forall q | q in {i, j, k, l} :: Moment(entry, longer, q) == Moment(entry, log, q);
  }

  /** The push binding of the record is still the planned one. */
  predicate StillBound(target: Target, r: Run, plan: Plan) {
    && !r.pushActive && r.pushGeneration == Some(plan.generation)
    && r.pushKind == Some(target.kind) && r.pushFingerprint == Some(target.fingerprint)
  }

  /**
   * One after the other between the moments `n` and `m`: the record as planned, the
   * local state as planned, the remote branch at the pushed head.
   */
  ghost predicate Prepared(dag: Dag, target: Target, entry: World, log: seq<Step>, n: nat, m: nat, plan: Plan)
    requires m <= |log|
  {
    exists a, b, c, run :: n <= a <= b <= c <= m && PreparedAt(dag, target, entry, log, plan, a, b, c, run)
  }

  ghost predicate PreparedAt(dag: Dag, target: Target, entry: World, log: seq<Step>, plan: Plan, a: nat, b: nat, c: nat,
      run: Run)
    requires a <= |log| && b <= |log| && c <= |log|
  {
    && Recorded(target, Moment(entry, log, a), plan) && Looked(dag, entry, log, a, b, plan, run)
    && plan.branch in Moment(entry, log, c).remote && Moment(entry, log, c).remote[plan.branch] == plan.pushed
  }

  lemma IsPrepared(dag: Dag, target: Target, entry: World, recorded: seq<Step>, looked: seq<Step>, log: seq<Step>,
      plan: Plan,
      run: Run)
    requires |recorded| <= |looked| <= |log|
    requires (forall i :: 0 <= i < |recorded| ==> log[i] == recorded[i])
              && (forall i :: 0 <= i < |looked| ==> log[i] == looked[i])
    requires Recorded(target, Moment(entry, recorded, |recorded|), plan)
    requires Looked(dag, entry, looked, |recorded|, |looked|, plan, run)
    requires var w := Moment(entry, log, |log|); plan.branch in w.remote && w.remote[plan.branch] == plan.pushed
    ensures forall n: nat :: n <= |recorded| ==> Prepared(dag, target, entry, log, n, |log|, plan)
  {
    hide Looked, Recorded;
    LookedStays(dag, entry, looked, log, |recorded|, |looked|, plan, run);
    assert PreparedAt(dag, target, entry, log, plan, |recorded|, |looked|, |log|, run);
  }

  lemma PreparedStays(dag: Dag, target: Target, entry: World, log: seq<Step>, longer: seq<Step>, n: nat, m: nat,
      plan: Plan)
    requires m <= |log| <= |longer| && (forall i :: 0 <= i < |log| ==> longer[i] == log[i])
    requires Prepared(dag, target, entry, log, n, m, plan)
    ensures Prepared(dag, target, entry, longer, n, m, plan)
  {
    hide Looked, Recorded;
    var a, b, c, run :| n <= a <= b <= c <= m && PreparedAt(dag, target, entry, log, plan, a, b, c, run);
    assert forall q :: 0 <= q <= |log| ==> Moment(entry, longer, q) == Moment(entry, log, q);
    LookedStays(dag, entry, log, longer, a, b, plan, run);
    assert PreparedAt(dag, target, entry, longer, plan, a, b, c, run);
  }

  /**
   * All that was seen before `final`, and from there on the local state again under
   * `last`, a record still bound as planned; and no own step moved HEAD before all
   * that.
   */
  ghost predicate Confirmed(dag: Dag, target: Target, entry: World, log: seq<Step>, n: nat, final: nat, plan: Plan,
      last: Run)
  {
    && final <= |log| && Prepared(dag, target, entry, log, n, final, plan) && StillBound(target, last, plan)
    && exists d :: final <= d <= |log| && Looked(dag, entry, log, final, d, plan, last) && NoneMoves(log, n, d)
  }

  ghost predicate NoneMoves(log: seq<Step>, n: nat, m: nat) {
    forall k :: n <= k < m && k < |log| && log[k].Own() ==> !MovesHead(log[k])
  }

  lemma ConfirmedStays(dag: Dag, target: Target, entry: World, log: seq<Step>, longer: seq<Step>, n: nat, final: nat,
      plan: Plan, last: Run)
    requires |log| <= |longer| && (forall i :: 0 <= i < |log| ==> longer[i] == log[i])
    requires Confirmed(dag, target, entry, log, n, final, plan, last)
    ensures Confirmed(dag, target, entry, longer, n, final, plan, last)
  {
    hide Looked, Prepared, StillBound, MovesHead;
    PreparedStays(dag, target, entry, log, longer, n, final, plan);
    var d :| final <= d <= |log| && Looked(dag, entry, log, final, d, plan, last) && NoneMoves(log, n, d);
    LookedStays(dag, entry, log, longer, final, d, plan, last);
    assert NoneMoves(longer, n, d);
  }

  /** Branch, head and cleanliness as planned, and on the last look the push binding too. */
  method Recheck(s: Session, plan: Plan, binding: bool) returns (run: Option<Run>)
    requires s.Valid()
    modifies s
    ensures s.Onward() && s.AnchorsKept()
    ensures s.Alone() ==> s.w == old(s.w)
    ensures run.Some? ==>
              && Looked(s.dag, s.entry, s.log, |old(s.log)|, |s.log|, plan, run.value)
              && (binding ==> StillBound(s.target, run.value, plan))
    ensures Awake(old(s.script)) ==>
              forall i: nat ::
                i < |s.w.runs| && Selected(s, s.w, plan, i) && (binding ==> StillBound(s.target, s.w.runs[i], plan)) ==>
                  run == Some(s.w.runs[i])
    ensures s.Alone() && run.Some? ==>
              s.w.head == On(plan.branch) && s.w.HeadCommit() == Some(plan.local) && s.w.Clean(s.dag)
  {
    hide Session.Valid, Quiet, Awake, Calm, Sighted, Smooth, Blind, Classify, Reports, Looked, Glimpsed, Selected;
    s.Levels();
    run := None;
    var v := Inspect(s);
    if Awake(old(s.script)) {
      forall i: nat | i < |s.w.runs| && Selected(s, s.w, plan, i)
        ensures v.run == Some(s.w.runs[i]) && v.branch == plan.branch && v.head == Some(plan.local) && v.clean
        ensures v.standing !in {PushInProgress, PipelineOwned, LegacyUnbound}
      {
        SelectedIsSeen(s, s.w, plan, i, v);
        SelectedBarsNot(s, s.w, plan, i);
      }
    }
    if v.run.Some? && v.standing !in {PushInProgress, PipelineOwned, LegacyUnbound}
       && v.branch == plan.branch && v.head == Some(plan.local) && v.clean
            && (binding ==> BindingHolds(s.target, v.run.value, plan)) {
      GlimpseIsLook(s.dag, s.entry, s.log, |old(s.log)|, plan, v);
      run := v.run;
    }
  }

  /** The head as a refresh leaves it: the fetched commit is the planned one. */
  predicate PushIsCached(wt: Repo, plan: Plan) {
    wt.Get(Anchor(SyncCache, plan.run, false)) == Some(plan.pushed)
  }

  /**
   * What a call may do to HEAD: leave a commit that the pushed head contains or the
   * sync anchor names, and never go back.
   */
  ghost predicate MayMove(call: Call, plan: Plan) {
    call.stamp.None? && call.gateMove.None?
        && (call.moving ==> call.pin == Anchor(SyncAnchor, plan.run, false) && !call.undo)
  }

  /** One of the two moves: an anchored reset for an equivalent head, a strict fast-forward otherwise. */
  method Move(s: Session, plan: Plan) returns (moved: bool, ghost exposed: bool)
    requires s.Valid() && s.Untouched() && s.call.goal == plan.pushed && PushIsCached(s.w.wt, plan)
    requires plan.equivalent ==> s.w.wt.Get(Anchor(SyncAnchor, plan.run, false)) == Some(plan.local)
    modifies s
    ensures s.Ahead() && s.AnchorsKept() && MayMove(s.call, plan)
    ensures s.call.exposure == if exposed && |s.log| > 0 then Some(|s.log| - 1) else None
    ensures exposed ==> |s.log| > |old(s.log)| && s.log[|s.log| - 1].actor.Exposed?
    ensures s.Alone() ==>
              s.w.runs == old(s.w.runs) && s.w.gate == old(s.w).gate
              && (old(s.w).head.On? ==> s.w.head == old(s.w).head)
    ensures s.Alone() && old(s.w).HeadCommit().Some? ==>
              s.w == old(s.w) || (moved && s.w.HeadCommit() == Some(plan.pushed))
    ensures s.Alone() && old(s.w).head == On(plan.branch) && old(s.w).HeadCommit() == Some(plan.local)
              && old(s.w).Clean(s.dag) ==>
              !exposed
    ensures Smooth(old(s.script)) && AtPlan(s.dag, old(s.w), plan) ==>
              moved && s.w.HeadCommit() == Some(plan.pushed) && s.w.Clean(s.dag)
  {
    hide Session.Valid, Quiet, Awake, Calm, Sighted, Smooth, Blind, Reset, World.Clean, World.HeadCommit, World.Valid,
         Dag.Valid, AtPlan, CanFastForward, FastForwarded;
    s.Levels();
    s.WorldIsValid();
    MoveArrives(s.dag, s.w, plan);
    exposed := false;
    s.SetOut(Anchor(SyncAnchor, plan.run, false), false);
    ghost var m := s.w;
    if plan.equivalent {
      moved, exposed := s.ResetHard(plan.branch, plan.local, plan.pushed, Anchor(SyncAnchor, plan.run, false));
      ResetStays(s.dag, m, plan.pushed);
    } else {
      moved := s.MergeFastForward(plan.pushed, Anchor(SyncCache, plan.run, false));
      if CanFastForward(s.dag, m, plan.pushed) { ForwardStays(s.dag, m, plan.pushed); }
    }
  }

  /** The clean planned head is checked out, and the pushed head is there; for a fast-forward it is strictly ahead. */
  predicate AtPlan(dag: Dag, w: World, plan: Plan) {
    && w.head == On(plan.branch) && w.HeadCommit() == Some(plan.local) && w.Clean(dag)
    && (!plan.equivalent ==> dag.Contains(plan.pushed, plan.local) && !dag.Contains(plan.local, plan.pushed))
  }

  lemma MoveArrives(dag: Dag, w: World, plan: Plan)
    requires dag.Valid() && w.Valid(dag) && PushIsCached(w.wt, plan)
    ensures AtPlan(dag, w, plan) ==>
              && plan.pushed in w.wt.objects
              && if plan.equivalent then
                   var b := Reset(dag, w, plan.pushed);
                   b.HeadCommit() == Some(plan.pushed) && b.Clean(dag)
                 else
                   && CanFastForward(dag, w, plan.pushed)
                   && var b := FastForwarded(dag, w, plan.pushed); b.HeadCommit() == Some(plan.pushed) && b.Clean(dag)
  {
    if AtPlan(dag, w, plan) {
      var from, to := dag.trees[plan.local], dag.trees[plan.pushed];
      if plan.equivalent {
        forall p ensures Look(ResetFiles(from, from, to), p) == Look(to, p) {}
        SameLooks(ResetFiles(from, from, to), to);
      } else {
        TwoTreeExact(from, to);
      }
    }
  }

  lemma ResetStays(dag: Dag, w: World, to: Sha)
    ensures Reset(dag, w, to).runs == w.runs && Reset(dag, w, to).gate == w.gate
              && (w.head.On? ==> Reset(dag, w, to).head == w.head)
  {
  }

  lemma ForwardStays(dag: Dag, w: World, to: Sha)
    requires CanFastForward(dag, w, to)
    ensures var b := FastForwarded(dag, w, to);
            && b.runs == w.runs && b.gate == w.gate
            && (w.head.On? ==> b.head == w.head) && b.HeadCommit() == Some(to)
  {
  }

  ghost predicate MayProceed(dag: Dag, w: World, pick: Sha, plan: Plan, base: Sha) {
    if plan.equivalent then Proves(dag, w, pick, plan.local, plan.pushed, base)
    else plan.local != plan.pushed && plan.pushed in w.wt.objects && dag.Contains(plan.pushed, plan.local)
  }

  /** The plan's move is still the planned one: a proven containment or a strict fast-forward. */
  method MoveStillSafe(s: Session, plan: Plan, base: Sha) returns (yes: bool)
    requires s.Valid()
    modifies s
    ensures s.Onward() && s.AnchorsKept()
    ensures s.Alone() ==> s.w == old(s.w)
    ensures yes ==> plan.local != plan.pushed
    ensures yes ==>
              if plan.equivalent then Equivalent(s.dag, plan.local, plan.pushed, base)
              else s.dag.Contains(plan.pushed, plan.local)
    ensures Smooth(old(s.script)) && MayProceed(s.dag, s.w, s.script.rest.pick, plan, base) ==> yes
  {
    hide Session.Valid, Quiet, Awake, Calm, Sighted, Smooth, Blind, Equivalent;
    s.Levels();
    if plan.equivalent {
      yes := ProveEquivalent(s, plan.local, plan.pushed, base);
    } else {
      yes := s.IsAncestor(plan.local, plan.pushed);
      yes := yes && plan.local != plan.pushed;
    }
  }

  /** The run's record is as planned. */
  method RecordHolds(s: Session, plan: Plan) returns (ok: bool)
    requires s.Valid()
    modifies s
    ensures s.Onward() && s.AnchorsKept()
    ensures s.Alone() ==> s.w == old(s.w)
    ensures ok ==> Recorded(s.target, s.w, plan)
    ensures Awake(old(s.script)) && Recorded(s.target, s.w, plan) ==> ok
  {
    hide Session.Valid, Quiet, Awake, Calm, Sighted, Smooth, Blind;
    s.Levels();
    var current := s.GetRun(plan.run);
    s.RunsDistinct();
    ok := current.Some? && BindingHolds(s.target, current.value, plan) && current.value.lastPushed == Some(plan.pushed)
          && current.value.pushRef == Some(plan.branch);
  }

  /** The record, the local state and the remote branch are as planned. */
  method FirstRechecks(s: Session, plan: Plan) returns (ok: bool)
    requires s.Valid()
    modifies s
    ensures s.Onward() && s.AnchorsKept()
    ensures s.Alone() ==> s.w == old(s.w)
    ensures ok ==> Prepared(s.dag, s.target, s.entry, s.log, |old(s.log)|, |s.log|, plan)
    ensures Awake(old(s.script)) && Clear(s, s.w, plan) ==> ok
  {
    hide Session.Valid, Quiet, Awake, Calm, Sighted, Smooth, Blind, Looked, World.Clean, World.HeadCommit, Recorded,
         Selected, StillBound, Moment, Prepared;
    s.Levels();
    ok := RecordHolds(s, plan);
    s.Now();
    ghost var recorded := s.log;
    if !ok { return; }
    ok := LocalAndRemoteHold(s, plan, recorded);
  }

  method LocalAndRemoteHold(s: Session, plan: Plan, ghost recorded: seq<Step>) returns (ok: bool)
    requires s.Valid() && s.log == recorded && Recorded(s.target, Moment(s.entry, recorded, |recorded|), plan)
    modifies s
    ensures s.Onward() && s.AnchorsKept()
    ensures s.Alone() ==> s.w == old(s.w)
    ensures ok ==> forall n: nat :: n <= |recorded| ==> Prepared(s.dag, s.target, s.entry, s.log, n, |s.log|, plan)
    ensures Awake(old(s.script)) && Clear(s, s.w, plan) ==> ok
  {
    hide Session.Valid, Quiet, Awake, Calm, Sighted, Smooth, Blind, Looked, World.Clean, World.HeadCommit, Recorded,
         Selected, StillBound, Moment, Prepared;
    s.Levels();
    if Clear(s, s.w, plan) { ghost var i := ClearSelects(s, s.w, plan); }
    var again := Recheck(s, plan, false);
    ghost var looked := s.log;
    if again.None? { return false; }
    var live := s.LsRemote(plan.branch);
    s.Now();
    ok := live == Some(Some(plan.pushed));
    if ok { IsPrepared(s.dag, s.target, s.entry, recorded, looked, s.log, plan, again.value); }
  }

  /**
   * Nothing stands in the way of the plan: its record, the local state under the
   * selected record, and the remote are as planned.
   */
  ghost predicate Clear(s: Session, w: World, plan: Plan) {
    && Recorded(s.target, w, plan) && plan.branch in w.remote && w.remote[plan.branch] == plan.pushed
    && exists i: nat :: i < |w.runs| && Selected(s, w, plan, i) && StillBound(s.target, w.runs[i], plan)
  }

  /** The local state is as planned, and record `i` is the one selected and bars no move. */
  ghost predicate Selected(s: Session, w: World, plan: Plan, i: nat)
    requires i < |w.runs|
  {
    && w.head == On(plan.branch) && w.HeadCommit() == Some(plan.local) && w.Clean(s.dag)
    && Chosen(EvidenceOf(s, w, plan.branch), w.runs, Some(i))
    && Classify(w.runs[i]) !in {PushInProgress, PipelineOwned, LegacyUnbound}
  }

  lemma ClearSelects(s: Session, w: World, plan: Plan) returns (i: nat)
    requires Clear(s, w, plan)
    ensures i < |w.runs| && Selected(s, w, plan, i) && StillBound(s.target, w.runs[i], plan)
  {
    i :| i < |w.runs| && Selected(s, w, plan, i) && StillBound(s.target, w.runs[i], plan);
  }

  lemma SelectedBarsNot(s: Session, w: World, plan: Plan, i: nat)
    requires i < |w.runs| && Selected(s, w, plan, i)
    ensures Classify(w.runs[i]) !in {PushInProgress, PipelineOwned, LegacyUnbound}
  {
  }

  lemma SelectedIsSeen(s: Session, w: World, plan: Plan, i: nat, v: View)
    requires i < |w.runs| && Selected(s, w, plan, i) && Reports(s, w, v)
    ensures v.run == Some(w.runs[i]) && v.branch == plan.branch && v.head == Some(plan.local) && v.clean
    ensures v.standing == Classify(w.runs[i])
  {
    hide Chosen, Classify, World.Clean;
    var choice :| SelectedAs(EvidenceOf(s, w, v.branch), w.runs, choice, v);
    ChosenIsUnique(EvidenceOf(s, w, plan.branch), w.runs, choice, Some(i));
  }

  /**
   * The rechecks between a plan and its move; `last` is the record the last look
   * found, `final` where the last look began.
   */
  method Rechecks(s: Session, plan: Plan) returns (last: Option<Run>, ghost final: nat)
    requires s.Valid() && s.Untouched() && s.call.start == |s.log|
    modifies s
    ensures s.Onward() && s.AnchorsKept()
    ensures |old(s.log)| <= final <= |s.log|
    ensures s.Alone() ==> s.w == old(s.w)
    ensures last.Some? ==> Confirmed(s.dag, s.target, s.entry, s.log, |old(s.log)|, final, plan, last.value)
    ensures last.Some? && s.outsiders == Outsiders(s.log[..final]) ==>
              s.w.head == On(plan.branch) && s.w.HeadCommit() == Some(plan.local) && s.w.Clean(s.dag)
    ensures Awake(old(s.script)) && Clear(s, s.w, plan) ==>
              && last.Some?
              && exists i: nat :: i < |s.w.runs| && last.value == s.w.runs[i] && Selected(s, s.w, plan, i)
  {
    hide Session.Valid, Quiet, Awake, Calm, Sighted, Smooth, Blind, Outsiders, Looked, World.Clean, World.HeadCommit,
         StillBound, Confirmed, Prepared, Clear, Selected;
    s.Levels();
    last := None;
    var ok := FirstRechecks(s, plan);
    final := |s.log|;
    if !ok { return; }
    s.Counted();
    ghost var before := s.log;
    if Awake(old(s.script)) && Clear(s, s.w, plan) { ghost var i := ClearSelects(s, s.w, plan); }
    last := Recheck(s, plan, true);
    assert s.log[..final] == before;
    if last.Some? {
      PreparedStays(s.dag, s.target, s.entry, before, s.log, |old(s.log)|, final, plan);
      Confirm(s, |old(s.log)|, final, plan, last.value);
    }
  }

  lemma Confirm(s: Session, n: nat, final: nat, plan: Plan, last: Run)
    requires s.Valid() && s.Untouched() && s.call.start == n <= final <= |s.log|
    requires Prepared(s.dag, s.target, s.entry, s.log, n, final, plan)
    requires StillBound(s.target, last, plan) && Looked(s.dag, s.entry, s.log, final, |s.log|, plan, last)
    ensures Confirmed(s.dag, s.target, s.entry, s.log, n, final, plan, last)
  {
    hide MovesHead, Returns, MovesGate, Chain, Looked, Prepared, StillBound, Moment;
    forall k | n <= k < |s.log| && s.log[k].Own()
      ensures !MovesHead(s.log[k])
    {
      assert InBounds(s.dag, s.call, s.log[k], k);
    }
    assert NoneMoves(s.log, n, |s.log|);
  }

  /** HEAD goes to the pushed head, from a commit the pushed head contains or the sync anchor names; unless exposed. */
  predicate AdvancesTo(dag: Dag, plan: Plan, s: Step) {
    && s.after.HeadCommit() == Some(plan.pushed)
    && (s.actor.Exposed? ||
        (s.before.HeadCommit().Some? &&
         (dag.Contains(plan.pushed, s.before.HeadCommit().value)
          || s.before.wt.Get(Anchor(SyncAnchor, plan.run, false)) == s.before.HeadCommit())))
  }

  ghost predicate OnlyAdvances(dag: Dag, plan: Plan, log: seq<Step>, n: nat) {
    forall k :: n <= k < |log| && log[k].Own() && MovesHead(log[k]) ==> AdvancesTo(dag, plan, log[k])
  }

  /** Every exposed step comes after an outside step that followed the last check. */
  ghost predicate ExposedOnlyAfter(log: seq<Step>, n: nat, final: nat) {
    forall k :: n <= k < |log| && log[k].actor.Exposed? ==> OutsideBetween(log, final, k)
  }

  ghost predicate OutsideBetween(log: seq<Step>, n: nat, k: nat) {
    exists j :: n <= j < k && j < |log| && log[j].actor.Outside?
  }

  /**
   * Only a write over a taken anchor of the run and an exposed reset can lose
   * anything, and each does exactly when nothing else holds what it replaces.
   */
  ghost predicate OwnLosses(dag: Dag, entry: World, log: seq<Step>, n: nat, run: nat) {
    && LosesAsTold(dag, log, n) && n <= |log|
    && (NoneOverwritten(log, n) ==> AnchorsStay(Moment(entry, log, n), Moment(entry, log, |log|)))
    && forall k :: n <= k < |log| && log[k].actor.Overwrote? ==> Overwritable(run, log[k].actor.anchor)
  }

  lemma OwnLossesFrom(s: Session, before: seq<Step>, run: nat)
    requires s.Valid() && s.call.start == |before| <= |s.log| && s.call.id == run
    requires forall i :: 0 <= i < |before| ==> s.log[i] == before[i]
    ensures OwnLosses(s.dag, s.entry, s.log, |before|, run)
    ensures s.overwrites == Overwrites(before) ==> NoneOverwritten(s.log, |before|)
  {
    hide MovesHead, Returns, MovesGate, Chain, LosesAsTold, AnchorsStay, NoneOverwritten;
    KeptSince(s, |before|);
    TidySteps(s, before);
    forall k | |before| <= k < |s.log| && s.log[k].actor.Overwrote?
      ensures Overwritable(run, s.log[k].actor.anchor)
    {
      assert InBounds(s.dag, s.call, s.log[k], k);
    }
  }

  lemma OnlyAdvancesFrom(s: Session, plan: Plan, n: nat)
    requires s.Valid() && s.call.start == n && s.call.goal == plan.pushed && MayMove(s.call, plan)
    ensures OnlyAdvances(s.dag, plan, s.log, n)
    ensures !s.call.moving ==> forall k :: n <= k < |s.log| && s.log[k].Own() ==> !MovesHead(s.log[k])
    ensures forall k :: n <= k < |s.log| && s.log[k].actor.Exposed? ==> s.call.exposure == Some(k)
  {
    hide MovesHead, Returns, MovesGate, Chain;
    forall k | n <= k < |s.log| && s.log[k].Own()
      ensures MovesHead(s.log[k]) ==> s.call.moving && AdvancesTo(s.dag, plan, s.log[k])
      ensures s.log[k].actor.Exposed? ==> s.call.exposure == Some(k)
    {
      assert InBounds(s.dag, s.call, s.log[k], k);
    }
  }

  /**
   * Anchor the head that a reset will leave, move, and observe whether HEAD arrived.
   * `final` is where the last check began.
   */
  method MoveAndLook(s: Session, plan: Plan, ghost final: nat) returns (r: Outcome)
    requires s.Valid() && s.Untouched() && For(s, plan) && PushIsCached(s.w.wt, plan)
    requires final <= |s.log|
    requires s.outsiders == Outsiders(s.log[..final]) ==>
              s.w.head == On(plan.branch) && s.w.HeadCommit() == Some(plan.local) && s.w.Clean(s.dag)
    modifies s
    ensures s.Ahead() && MayMove(s.call, plan)
    ensures forall x: Ref :: IsPrivate(x) && x != Anchor(SyncAnchor, plan.run, false) ==>
              s.w.wt.Get(x) == old(s.w).wt.Get(x)
    ensures s.call.exposure.Some? ==> OutsideBetween(s.log, final, s.call.exposure.value)
    ensures r.Refused? ==> !s.call.moving
    ensures r.Applied? || r.LeftUnclean? ==>
              && (plan.equivalent ==> s.w.wt.Get(Anchor(SyncAnchor, plan.run, false)) == Some(plan.local))
              && exists i :: final <= i <= |s.log| && Moment(s.entry, s.log, i).HeadCommit() == Some(plan.pushed)
    ensures r.Applied? ==> Arrived(s.dag, s.entry, s.log, final, |s.log|, plan.pushed)
    ensures s.Alone() ==>
              s.w.runs == old(s.w.runs) && s.w.gate == old(s.w).gate
              && (old(s.w).head.On? ==> s.w.head == old(s.w).head)
    ensures s.Alone() && old(s.w).HeadCommit().Some? ==>
              Undisturbed(old(s.w), s.w) || s.w.HeadCommit() == Some(plan.pushed)
    ensures s.Alone() && r.Applied? ==> s.w.HeadCommit() == Some(plan.pushed) && s.w.Clean(s.dag)
    ensures s.Alone() && r.Refused? ==> Undisturbed(old(s.w), s.w)
    ensures Smooth(old(s.script)) && AtPlan(s.dag, old(s.w), plan)
              && (plan.equivalent ==> AnchorIsFree(old(s.w).wt, plan.run, plan.local)) ==>
              r.Applied?
  {
    hide Session.Valid, Quiet, Awake, Calm, Sighted, Smooth, Blind, Undisturbed, Outsiders, Arrived, World.Clean;
    s.Levels();
    s.Counted();
    UndisturbedByItself(s.w);
    ghost var before := s.log;
    var anchored := true;
    s.Inside(plan.local, plan.local);
    if plan.equivalent { anchored := AnchorPreSync(s, plan.run, plan.local); }
    if s.Alone() { UndisturbedHead(s.dag, old(s.w), s.w); }
    if !anchored { return Refused; }
    assert s.log[..final] == before[..final];
    CountedFrom(before, final);
    r := MoveThenLook(s, plan, final);
  }

  lemma CountedFrom(log: seq<Step>, final: nat)
    requires final <= |log|
    ensures Outsiders(log[..final]) <= Outsiders(log)
  {
    OutsidersSince(log, final);
  }

  /** The move, and then a look at where HEAD is. */
  method MoveThenLook(s: Session, plan: Plan, ghost final: nat) returns (r: Outcome)
    requires s.Valid() && s.Untouched() && For(s, plan) && PushIsCached(s.w.wt, plan)
    requires plan.equivalent ==> s.w.wt.Get(Anchor(SyncAnchor, plan.run, false)) == Some(plan.local)
    requires final <= |s.log|
    requires s.outsiders == Outsiders(s.log[..final]) ==>
              s.w.head == On(plan.branch) && s.w.HeadCommit() == Some(plan.local) && s.w.Clean(s.dag)
    modifies s
    ensures s.Ahead() && s.AnchorsKept() && MayMove(s.call, plan) && !r.Refused?
    ensures s.call.exposure.Some? ==> OutsideBetween(s.log, final, s.call.exposure.value)
    ensures r.Applied? || r.LeftUnclean? ==>
              exists i :: final <= i <= |s.log| && Moment(s.entry, s.log, i).HeadCommit() == Some(plan.pushed)
    ensures r.Applied? ==> Arrived(s.dag, s.entry, s.log, final, |s.log|, plan.pushed)
    ensures s.Alone() ==>
              s.w.runs == old(s.w.runs) && s.w.gate == old(s.w).gate
              && (old(s.w).head.On? ==> s.w.head == old(s.w).head)
    ensures s.Alone() && old(s.w).HeadCommit().Some? ==> s.w == old(s.w) || s.w.HeadCommit() == Some(plan.pushed)
    ensures s.Alone() && r.Applied? ==> s.w.HeadCommit() == Some(plan.pushed) && s.w.Clean(s.dag)
    ensures Smooth(old(s.script)) && AtPlan(s.dag, old(s.w), plan) ==> r.Applied?
  {
    hide Session.Valid, Quiet, Awake, Calm, Sighted, Smooth, Blind, Outsiders, Arrived, World.Clean, AtPlan;
    s.Levels();
    s.Counted();
    ghost var before := s.log;
    var moved, exposed := Move(s, plan);
    if exposed {
      s.Counted();
      ExposedLast(before, s.log, final);
    }
    r := SeeArrival(s, plan, moved, final);
  }

  /** Read HEAD and then the worktree. */
  method SeeArrival(s: Session, plan: Plan, moved: bool, ghost final: nat) returns (r: Outcome)
    requires s.Valid() && final <= |s.log|
    modifies s
    ensures s.Onward() && s.AnchorsKept() && !r.Refused?
    ensures s.Alone() ==> s.w == old(s.w)
    ensures r.Applied? || r.LeftUnclean? ==>
              moved && exists i :: final <= i <= |s.log| && Moment(s.entry, s.log, i).HeadCommit() == Some(plan.pushed)
    ensures r.Applied? ==> Arrived(s.dag, s.entry, s.log, final, |s.log|, plan.pushed)
    ensures s.Alone() && r.Applied? ==> s.w.HeadCommit() == Some(plan.pushed) && s.w.Clean(s.dag)
    ensures Awake(old(s.script)) && moved && s.w.HeadCommit() == Some(plan.pushed) && s.w.Clean(s.dag) ==> r.Applied?
  {
    hide Session.Valid, Quiet, Awake, Calm, Sighted, Smooth, Blind, Arrived, World.Clean;
    s.Levels();
    var head := s.HeadSha();
    s.Now();
    ghost var i := |s.log|;
    var clean := s.WorktreeClean();
    s.Now();
    if !moved || head != Some(plan.pushed) { return Failed; }
    assert Moment(s.entry, s.log, i).HeadCommit() == Some(plan.pushed);
    if clean { ArrivedAt(s.dag, s.entry, s.log, final, i, |s.log|, plan.pushed); }
    r := if clean then Applied else LeftUnclean;
  }

  lemma UndisturbedHead(dag: Dag, a: World, b: World)
    requires Undisturbed(a, b)
    ensures b.head == a.head && b.HeadCommit() == a.HeadCommit() && b.Clean(dag) == a.Clean(dag)
  {
  }

  lemma ExposedLast(before: seq<Step>, log: seq<Step>, final: nat)
    requires final <= |before| <= |log| && forall i :: 0 <= i < |before| ==> log[i] == before[i]
    requires log != [] && log[|log| - 1].actor.Exposed?
    requires Outsiders(before) != Outsiders(before[..final]) || Outsiders(log) != Outsiders(before)
    ensures OutsideBetween(log, final, |log| - 1)
  {
    hide Outsiders;
    assert log[..|before|] == before && log[..final] == before[..final];
    OutsidersSince(before, final);
    OutsidersSince(log, |before|);
    OutsidersSince(log, final);
    var j :| final <= j < |log| && log[j].actor.Outside?;
    assert j < |log| - 1;
  }

  /** Everything is as planned, and the move the plan asks for can be made. */
  ghost predicate Ready(s: Session, w: World, pick: Sha, plan: Plan) {
    && Recorded(s.target, w, plan) && plan.branch in w.remote && w.remote[plan.branch] == plan.pushed
    && (if plan.equivalent then AnchorIsFree(w.wt, plan.run, plan.local) else !s.dag.Contains(plan.local, plan.pushed))
    && exists i: nat ::
         && i < |w.runs| && Selected(s, w, plan, i) && StillBound(s.target, w.runs[i], plan)
         && MayProceed(s.dag, w, pick, plan, w.runs[i].base)
  }

  lemma ReadyIsClear(s: Session, w: World, pick: Sha, plan: Plan)
    requires DistinctIds(w.runs) && Ready(s, w, pick, plan)
    ensures Clear(s, w, plan) && AtPlan(s.dag, w, plan)
    ensures forall i: nat :: i < |w.runs| && Selected(s, w, plan, i) ==>
              MayProceed(s.dag, w, pick, plan, w.runs[i].base)
    ensures plan.equivalent ==> AnchorIsFree(w.wt, plan.run, plan.local)
  {
    hide Chosen, Classify, World.Clean, Proves, Recorded;
    var i: nat :|
      && i < |w.runs| && Selected(s, w, plan, i) && StillBound(s.target, w.runs[i], plan)
      && MayProceed(s.dag, w, pick, plan, w.runs[i].base);
    forall k: nat | k < |w.runs| && Selected(s, w, plan, k)
      ensures k == i
    {
      ChosenIsUnique(EvidenceOf(s, w, plan.branch), w.runs, Some(i), Some(k));
    }
  }

  /** The rechecks, and the proof that the move is still safe. */
  method StillAsPlanned(s: Session, plan: Plan) returns (safe: bool, ghost final: nat, ghost last: Option<Run>)
    requires s.Valid() && s.Untouched() && s.call.start == |s.log|
    modifies s
    ensures s.Onward() && s.AnchorsKept() && |old(s.log)| <= final <= |s.log|
    ensures s.Alone() ==> s.w == old(s.w)
    ensures safe ==>
              && last.Some? && Confirmed(s.dag, s.target, s.entry, s.log, |old(s.log)|, final, plan, last.value)
              && plan.local != plan.pushed
              && if plan.equivalent then Equivalent(s.dag, plan.local, plan.pushed, last.value.base)
                 else s.dag.Contains(plan.pushed, plan.local)
    ensures safe && s.outsiders == Outsiders(s.log[..final]) ==>
              s.w.head == On(plan.branch) && s.w.HeadCommit() == Some(plan.local) && s.w.Clean(s.dag)
    ensures safe && s.Alone() ==> s.outsiders == Outsiders(s.log[..final])
    ensures Smooth(old(s.script)) && Ready(s, s.w, s.script.rest.pick, plan) ==> safe
  {
    hide Session.Valid, Quiet, Awake, Calm, Sighted, Smooth, Blind, Equivalent, Outsiders, World.Clean,
         World.HeadCommit,
         Confirmed, Ready, Clear, Selected, MayProceed, AtPlan, AnchorIsFree;
    s.Levels();
    s.RunsDistinct();
    s.Counted();
    ghost var before := s.log;
    if Ready(s, s.w, s.script.rest.pick, plan) { ReadyIsClear(s, s.w, s.script.rest.pick, plan); }
    var found;
    found, final := Rechecks(s, plan);
    last := found;
    ghost var checked := s.log;
    s.Counted();
    safe := false;
    if found.Some? { safe := MoveStillSafe(s, plan, found.value.base); }
    if safe {
      ConfirmedStays(s.dag, s.target, s.entry, checked, s.log, |before|, final, plan, found.value);
      SinceFinal(s, before, checked, final);
    }
  }

  /** Outside steps counted over a prefix are no more than over the whole. */
  lemma SinceFinal(s: Session, before: seq<Step>, checked: seq<Step>, final: nat)
    requires s.Valid() && |before| <= final <= |checked| <= |s.log|
    requires (forall i :: 0 <= i < |checked| ==> s.log[i] == checked[i]) && forall i :: 0 <= i < |before| ==>
              s.log[i] == before[i]
    ensures Outsiders(before) <= Outsiders(s.log[..final]) <= Outsiders(checked) <= s.outsiders
    ensures s.log[..final] == checked[..final]
  {
    hide Outsiders;
    s.Counted();
    assert s.log[..|checked|] == checked && s.log[..final] == checked[..final]
        && checked[..final][..|before|] == before;
    OutsidersSince(checked[..final], |before|);
    OutsidersSince(checked, final);
    OutsidersSince(s.log, |checked|);
  }

  /** The rechecks, the proof of safety and the move. */
  method Proceed(s: Session, plan: Plan) returns (r: Outcome, ghost final: nat, ghost last: Option<Run>)
    requires s.Valid() && s.Untouched() && For(s, plan) && s.call.start == |s.log| && PushIsCached(s.w.wt, plan)
    modifies s
    ensures s.Ahead() && MayMove(s.call, plan) && |old(s.log)| <= final <= |s.log|
    ensures forall x: Ref :: IsPrivate(x) && x != Anchor(SyncAnchor, plan.run, false) ==>
              s.w.wt.Get(x) == old(s.w).wt.Get(x)
    ensures s.call.exposure.Some? ==> OutsideBetween(s.log, final, s.call.exposure.value)
    ensures r.Refused? ==> !s.call.moving
    ensures !r.Refused? ==>
              && last.Some? && Confirmed(s.dag, s.target, s.entry, s.log, |old(s.log)|, final, plan, last.value)
              && plan.local != plan.pushed
              && if plan.equivalent then Equivalent(s.dag, plan.local, plan.pushed, last.value.base)
                 else s.dag.Contains(plan.pushed, plan.local)
    ensures r.Applied? || r.LeftUnclean? ==>
              && (plan.equivalent ==> s.w.wt.Get(Anchor(SyncAnchor, plan.run, false)) == Some(plan.local))
              && exists i :: final <= i <= |s.log| && Moment(s.entry, s.log, i).HeadCommit() == Some(plan.pushed)
    ensures r.Applied? ==> Arrived(s.dag, s.entry, s.log, final, |s.log|, plan.pushed)
    ensures s.Alone() ==>
              s.w.runs == old(s.w.runs) && s.w.gate == old(s.w).gate && (!r.Refused? ==> s.w.head == old(s.w).head)
    ensures s.Alone() ==>
              || Undisturbed(old(s.w), s.w)
              || (old(s.w).HeadCommit() == Some(plan.local) && s.w.HeadCommit() == Some(plan.pushed))
    ensures s.Alone() && r.Applied? ==> s.w.HeadCommit() == Some(plan.pushed) && s.w.Clean(s.dag)
    ensures s.Alone() && r.Refused? ==> Undisturbed(old(s.w), s.w)
    ensures Smooth(old(s.script)) && Ready(s, old(s.w), s.script.rest.pick, plan) ==> r.Applied?
  {
    hide Session.Valid, Quiet, Awake, Calm, Sighted, Smooth, Blind, Undisturbed, Equivalent, Outsiders, Arrived,
         MayMove,
         World.Clean, Confirmed, Ready, Clear, AtPlan, AnchorIsFree;
    s.Levels();
    s.RunsDistinct();
    UndisturbedByItself(s.w);
    MayMoveYet(s, plan);
    if Ready(s, s.w, s.script.rest.pick, plan) { ReadyIsClear(s, s.w, s.script.rest.pick, plan); }
    ghost var before := s.log;
    var safe;
    safe, final, last := StillAsPlanned(s, plan);
    if !safe { return Refused, final, last; }
    ghost var checked := s.log;
    r := MoveAndLook(s, plan, final);
    ConfirmedStays(s.dag, s.target, s.entry, checked, s.log, |before|, final, plan, last.value);
  }

  /**
   * `Apply`, from the plan a refresh made. Whoever interferes, every step of the
   * call that moves HEAD moves it to the pushed head, from a commit the pushed
   * head contains or the sync anchor names. Only a reset that follows an outside
   * step after the last check, at `final`, may leave any other commit. Of the
   * private anchors only the run's sync anchor changes. `OwnLosses` says what the
   * call may lose.
   */
  method Apply(s: Session, plan: Plan) returns (r: Outcome, ghost final: nat, ghost last: Option<Run>)
    requires s.Valid() && PushIsCached(s.w.wt, plan)
    modifies s
    ensures s.Grown() && s.Tidy() && |old(s.log)| <= final <= |s.log|
    ensures OwnLosses(s.dag, s.entry, s.log, |old(s.log)|, plan.run)
    ensures Sighted(old(s.script)) ==> NoneOverwritten(s.log, |old(s.log)|)
    ensures forall x: Ref :: IsPrivate(x) && x != Anchor(SyncAnchor, plan.run, false) ==>
              s.w.wt.Get(x) == old(s.w).wt.Get(x)
    ensures OnlyAdvances(s.dag, plan, s.log, |old(s.log)|)
    ensures ExposedOnlyAfter(s.log, |old(s.log)|, final)
    ensures r.Refused? ==> forall k :: |old(s.log)| <= k < |s.log| && s.log[k].Own() ==> !MovesHead(s.log[k])
    ensures !r.Refused? ==>
              && last.Some? && Confirmed(s.dag, s.target, s.entry, s.log, |old(s.log)|, final, plan, last.value)
              && plan.local != plan.pushed
              && if plan.equivalent then Equivalent(s.dag, plan.local, plan.pushed, last.value.base)
                 else s.dag.Contains(plan.pushed, plan.local)
    ensures r.Applied? || r.LeftUnclean? ==>
              && (plan.equivalent ==> s.w.wt.Get(Anchor(SyncAnchor, plan.run, false)) == Some(plan.local))
              && exists i :: final <= i <= |s.log| && Moment(s.entry, s.log, i).HeadCommit() == Some(plan.pushed)
    ensures r.Applied? ==> Arrived(s.dag, s.entry, s.log, final, |s.log|, plan.pushed)
    // With nobody interfering:
    ensures s.Alone() ==>
              s.w.runs == old(s.w.runs) && s.w.gate == old(s.w).gate && (!r.Refused? ==> s.w.head == old(s.w).head)
    ensures s.Alone() ==>
              || Undisturbed(old(s.w), s.w)
              || (old(s.w).HeadCommit() == Some(plan.local) && s.w.HeadCommit() == Some(plan.pushed))
    ensures s.Alone() && r.Applied? ==> s.w.HeadCommit() == Some(plan.pushed) && s.w.Clean(s.dag)
    ensures s.Alone() && r.Refused? ==> Undisturbed(old(s.w), s.w)
    // With every command permitted as well:
    ensures Smooth(old(s.script)) && Ready(s, old(s.w), s.script.rest.pick, plan) ==> r.Applied?
  {
    hide Session.Valid, Quiet, Awake, Calm, Sighted, Smooth, Blind, Undisturbed, Equivalent, Outsiders, Arrived,
         MovesHead, OnlyAdvances, OwnLosses, NoneOverwritten, MayMove, World.Clean, Confirmed, Ready;
    s.Levels();
    s.Counted();
    ghost var before := s.log;
    s.Begin();
    s.Aim(plan.pushed, plan.run);
    r, final, last := Proceed(s, plan);
    OnlyAdvancesFrom(s, plan, |old(s.log)|);
    OwnLossesFrom(s, before, plan.run);
  }

  lemma MayMoveYet(s: Session, plan: Plan)
    requires s.Untouched()
    ensures MayMove(s.call, plan)
  {
  }
}
