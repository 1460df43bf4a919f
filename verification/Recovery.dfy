/** `Recover`: handing a stranded branch back without losing anybody's commits. */
module Recovery {
  import opened Options
  import opened Objects
  import opened Runs
  import opened Worlds
  import opened Commands
  import opened Inspection

  datatype Refusal =
    | GateContext | NotApplicable | RunActive | UnverifiedHead | IncompleteAdoption
    | GateUnavailable | GateDiverged | PreserveFailed | GateRace | DirtyWorktree | Diverged
    | AliasConflict(afterStamp: bool)
    | AssumptionsChanged(restored: bool) | WorktreeBusy(restored: bool)
    | ApplyFailed(moved: bool) | LeftUnclean | StampFailed

  datatype Report = Refused(why: Refusal) | Recovered(changed: bool, facts: Facts)

  /** Refusals reached before a worktree move completes or the stamp is tried, with any swap rolled back. */
  predicate BeforeAnyMove(why: Refusal) {
    match why
    case AliasConflict(afterStamp) => !afterStamp
    case AssumptionsChanged(restored) => restored
    case WorktreeBusy(restored) => restored
    case ApplyFailed(moved) => !moved
    case LeftUnclean | StampFailed => false
    case _ => true
  }

  /** The run's custody was stamped, even if the report then refuses. */
  predicate Settles(r: Report) {
    r.Recovered? || r == Refused(AliasConflict(true))
  }

  /**
   * How a call stands once it answers `r`: stamped exactly when that settles the
   * run, and set out, pinning the head it leaves, if it reports a move.
   */
  ghost predicate Concluded(c: Call, run: Run, r: Report) {
    && c.exposure.None? && (c.stamp.Some? <==> Settles(r))
    && (r.Recovered? && r.changed ==> c.moving)
    && (c.moving ==> c.pin == Anchor(LocalAnchor, run.id, false))
  }

  /** The call has turned to this run. */
  ghost predicate Writes(s: Session, run: nat)
    reads s
  {
    s.call.aimed && s.call.id == run
  }

  /** One spelling of the recovery anchor names the run's head. */
  predicate PinsHead(wt: Repo, run: Run, pin: Ref) {
    pin.Anchor? && pin.kind == RecoverAnchor && wt.Get(pin) == Some(run.head)
  }

  /** The canonical spelling of an anchor names nothing. */
  predicate Free(wt: Repo, kind: AnchorKind, run: nat) {
    wt.Get(Anchor(kind, run, false)).None?
  }

  /** The call is to recover `run` and has done nothing yet. */
  ghost predicate Aimed(s: Session, run: Run)
    reads s
  {
    s.Untouched() && Writes(s, run.id) && s.call.goal == run.head
  }

  /** The recorded head is in the branch, anchored, or gone from both object stores. */
  predicate PreservedIsSafe(dag: Dag, w: World, run: Run) {
    || run.head == NO_SHA
    || Carries(dag, w.wt, LocalHead(w), run.head)
    || Names(Alias(w.wt, RecoverAnchor, run.id), run.head)
    || run.head !in w.wt.objects + w.gate.objects
  }

  predicate GateHeadIsSafe(dag: Dag, w: World, run: nat, gateHead: Sha) {
    || Carries(dag, w.wt, LocalHead(w), gateHead)
    || Names(Alias(w.wt, RecoverAnchor, run), gateHead)
    || Names(Alias(w.wt, AbandonedAnchor, run), gateHead)
  }

  /** The report says where the recorded head went. */
  predicate HeadAccounted(dag: Dag, w: World, facts: Facts, head: Sha) {
    || head == NO_SHA
    || Carries(dag, w.wt, LocalHead(w), head)
    || (facts.preserved.Some? &&
        var c := w.wt.Get(facts.preserved.value);
        c.Some? && (c.value == head || dag.Contains(c.value, head)))
    || facts.lost == Some(head)
  }

  /** The report says where a gate head that was let go went. */
  predicate GateHeadAccounted(dag: Dag, w: World, facts: Facts, head: Sha) {
    || Carries(dag, w.wt, LocalHead(w), head)
    || (facts.preserved.Some? && w.wt.Get(facts.preserved.value) == Some(head))
    || (facts.abandoned.Some? && w.wt.Get(facts.abandoned.value) == Some(head))
  }

  /** All that was left to do was the stamp, and it was done. */
  predicate Completed(a: World, b: World, run: Run, r: Report) {
    && b == a.(runs := Stamped(a.runs, run.id))
    && Settles(r) && (r.Recovered? <==> !AnchorsConflict(b.wt, run.id))
  }

  /** The run is settled, and reported as recovered unless spellings of an anchor disagree. */
  predicate Done(w: World, run: Run, r: Report) {
    Settles(r) && (r.Recovered? <==> !AnchorsConflict(w.wt, run.id))
  }

  /** The facts reported are the facts, and no spelling of an anchor contradicts them. */
  predicate Tells(dag: Dag, hasGate: bool, w: World, run: Run, facts: Facts) {
    && facts == FactsOf(dag, w, hasGate, run)
    && !AnchorsConflict(w.wt, run.id)
  }

  lemma FactsAccount(dag: Dag, w: World, hasGate: bool, run: Run)
    ensures PreservedIsSafe(dag, w, run) ==> HeadAccounted(dag, w, FactsOf(dag, w, hasGate, run), run.head)
    ensures forall g :: GateHeadIsSafe(dag, w, run.id, g) ==>
              GateHeadAccounted(dag, w, FactsOf(dag, w, hasGate, run), g)
  {
  }

  /** Stamp the custody return and report the fresh truth. */
  method Finish(s: Session, run: Run, changed: bool) returns (r: Report)
    requires s.Valid() && s.call.stamp.None? && s.call.id == run.id
    requires s.call.moving ==> Arrived(s.dag, s.entry, s.log, s.call.start, |s.log|, s.call.goal)
    modifies s
    ensures s.Ahead() && s.call == old(s.call).(stamp := s.call.stamp) && (s.call.stamp.Some? <==> Settles(r))
    ensures s.Alone() ==> |old(s.log)| == if s.call.stamp.Some? then s.call.stamp.value else |s.log|
    ensures r.Recovered? ==> r.changed == changed
    ensures r.Refused? ==> r.why in {StampFailed, AliasConflict(true)}
    ensures s.Alone() ==> s.w == if Settles(r) then old(s.w).(runs := Stamped(old(s.w).runs, run.id)) else old(s.w)
    ensures Calm(old(s.script)) && r.Recovered? ==> Tells(s.dag, s.hasGate, s.w, run, r.facts)
    ensures Smooth(old(s.script)) ==> Completed(old(s.w), s.w, run, r)
    ensures Blind(old(s.script)) ==> r.Recovered?
  {
    hide Session.Valid, Quiet, Awake, Calm, Sighted, Smooth, Blind, FactsOf, Arrived;
    s.Levels();
    var stamped := s.StampRun(run.id);
    var v := Inspect(s);
    if !stamped { return Refused(StampFailed); }
    var facts := AttachUnclaimed(s, run, v.head);
    if facts.None? { return Refused(AliasConflict(true)); }
    r := Recovered(changed, facts.value);
  }

  // ----- what a call comes to -----

  /** What a call comes to where every command the repositories permit succeeds. */
  datatype Answer =
    | Refuses(why: Refusal)
    | StaysHere     // custody is returned, and nothing moves
    | GateFollows   // the gate branch moves to the local head
    | HeadFollows   // HEAD moves to the recorded head

  /** The branch and its local head are checked out, clean or not. */
  predicate At(dag: Dag, w: World, branch: nat, local: Sha, clean: bool) {
    w.head == On(branch) && w.HeadCommit() == Some(local) && w.Clean(dag) == clean
  }

  predicate CheckedOut(w: World, branch: nat, local: Sha) {
    w.head == On(branch) && w.HeadCommit() == Some(local)
  }

  predicate Follows(dag: Dag, ans: Answer, a: World, b: World, run: Run, branch: nat, local: Sha, r: Report) {
    match ans
    case Refuses(why) => r == Refused(why)
    case StaysHere =>
      && Done(b, run, r) && (r.Recovered? ==> !r.changed) && SameHead(a, b)
      && b.gate.Get(Branch(branch)) == a.gate.Get(Branch(branch))
    case GateFollows =>
      && Done(b, run, r) && (r.Recovered? ==> !r.changed) && SameHead(a, b)
      && b.gate.Get(Branch(branch)) == Some(local)
    case HeadFollows =>
      && Done(b, run, r) && (r.Recovered? ==> r.changed) && b.head == a.head && b.HeadCommit() == Some(run.head)
           && b.Clean(dag)
      && b.gate.Get(Branch(branch)) == a.gate.Get(Branch(branch))
  }

  predicate SameHead(a: World, b: World) {
    b.head == a.head && b.HeadCommit() == a.HeadCommit() && b.files == a.files && b.busy == a.busy
  }

  lemma RefuseFollows(dag: Dag, a: World, b: World, run: Run, branch: nat, local: Sha, why: Refusal)
    ensures Follows(dag, Refuses(why), a, b, run, branch, local, Refused(why))
  {
  }

  /** What pinning the recorded head comes to. */
  function RecoverAnchored(wt: Repo, run: nat, preserved: Sha): Option<Refusal> {
    match Alias(wt, RecoverAnchor, run)
    case Conflict => Some(AliasConflict(false))
    case Found(_, sha) => if sha == preserved then None else Some(PreserveFailed)
    case Absent => None
  }

  lemma FollowsAfter(dag: Dag, ans: Answer, a: World, m: World, b: World, run: Run, branch: nat, local: Sha, r: Report)
    requires Undisturbed(a, m) && Follows(dag, ans, m, b, run, branch, local, r)
    ensures Follows(dag, ans, a, b, run, branch, local, r)
  {
    hide Done, World.Clean;
  }

  /** What pinning the gate head that a keep-local return lets go comes to. */
  function AbandonedAnchored(wt: Repo, run: nat, gateHead: Sha): Option<Refusal> {
    match Alias(wt, AbandonedAnchor, run)
    case Conflict => Some(AliasConflict(false))
    case Found(_, sha) => if sha == gateHead then None else Some(PreserveFailed)
    case Absent => None
  }

  /** No pin is needed for what the kept head contains or the recovery anchor names. */
  function Abandons(dag: Dag, wt: Repo, run: nat, local: Sha, gateHead: Sha): Option<Refusal> {
    if dag.Contains(local, gateHead) then None
    else match Alias(wt, RecoverAnchor, run)
      case Conflict => Some(AliasConflict(false))
      case Found(_, sha) => if sha == gateHead then None else AbandonedAnchored(wt, run, gateHead)
      case Absent => AbandonedAnchored(wt, run, gateHead)
  }

  /** The local head is kept: the gate branch is there already, or follows once what it lets go is pinned. */
  function KeepAnswer(dag: Dag, wt: Repo, run: nat, local: Sha, gateHead: Sha): Answer {
    if gateHead == local then StaysHere
    else match Abandons(dag, wt, run, local, gateHead)
      case Some(why) => Refuses(why)
      case None => GateFollows
  }

  // ----- anchors -----

  /** Writes the recovery anchor unless it was read to name another commit. */
  method AnchorReachable(s: Session, run: nat, preserved: Sha) returns (why: Option<Refusal>)
    requires s.Valid() && Writes(s, run)
    modifies s
    ensures s.Anchoring()
    ensures !Taken(old(s.w).wt, Anchor(RecoverAnchor, run, false), preserved) ==> s.overwrites == old(s.overwrites)
    ensures s.Alone() ==> Undisturbed(old(s.w), s.w) && s.w.runs == old(s.w.runs) && s.w.gate == old(s.w).gate
    ensures why.None? ==> s.w.wt.Get(Anchor(RecoverAnchor, run, false)) == Some(preserved)
    ensures Calm(old(s.script)) && why.None? ==> Names(Alias(s.w.wt, RecoverAnchor, run), preserved)
    ensures why.Some? ==> why.value in {AliasConflict(false), PreserveFailed}
    ensures Smooth(old(s.script)) && preserved in old(s.w).wt.objects ==>
              why == RecoverAnchored(old(s.w).wt, run, preserved)
    ensures Blind(old(s.script)) && preserved in old(s.w).wt.objects ==>
              why.None? && s.w == old(s.w).(wt := old(s.w).wt.Put(Anchor(RecoverAnchor, run, false), preserved))
    ensures forall x: Ref :: IsPrivate(x) && x != Anchor(RecoverAnchor, run, false) ==>
              s.w.wt.Get(x) == old(s.w).wt.Get(x)
  {
    hide Session.Valid, Quiet, Awake, Calm, Sighted, Smooth, Blind, Undisturbed;
    s.Levels();
    UndisturbedByItself(s.w);
    var alias := s.ReadAlias(RecoverAnchor, run);
    match alias {
      case Conflict => return Some(AliasConflict(false));
      case Absent =>
      case Found(_, sha) => if sha != preserved { return Some(PreserveFailed); }
    }
    var put := s.PutAnchor(RecoverAnchor, run, preserved);
    if !put { return Some(PreserveFailed); }
    var anchored := s.AnchorCommit(RecoverAnchor, run);
    why := if anchored == Some(preserved) then None else Some(PreserveFailed);
  }

  /** Best effort: a recorded head that no ref names is anchored if any object store still has it. */
  method AnchorStranded(s: Session, run: nat, preserved: Sha) returns (why: Option<Refusal>)
    requires s.Valid() && Writes(s, run)
    modifies s
    ensures s.Grown() && s.call == old(s.call)
    ensures Free(old(s.w).wt, RecoverAnchor, run) ==> s.overwrites == old(s.overwrites)
    ensures s.Alone() ==> Undisturbed(old(s.w), s.w) && s.w.runs == old(s.w.runs)
    ensures why.Some? ==> why.value in {AliasConflict(false), PreserveFailed}
    ensures Calm(old(s.script)) && Alias(old(s.w).wt, RecoverAnchor, run).Absent? && s.hasGate && why.None?
              && preserved != NO_SHA ==>
              || Names(Alias(s.w.wt, RecoverAnchor, run), preserved)
              || preserved !in s.w.wt.objects + s.w.gate.objects
    ensures forall x: Ref :: IsPrivate(x) && x != Anchor(RecoverAnchor, run, false) ==>
              s.w.wt.Get(x) == old(s.w).wt.Get(x)
    ensures Smooth(old(s.script)) && Alias(old(s.w).wt, RecoverAnchor, run).Absent? && s.hasGate ==>
              why.None? && (Alias(s.w.wt, RecoverAnchor, run).Absent?
                  || Names(Alias(s.w.wt, RecoverAnchor, run), preserved))
  {
    hide Session.Valid, Quiet, Awake, Calm, Sighted, Smooth, Blind, Undisturbed;
    s.Levels();
    UndisturbedByItself(s.w);
    if preserved == NO_SHA { return None; }
    var here := s.Has(preserved);
    if here {
      why := AnchorReachable(s, run, preserved);
      return;
    }
    if !s.hasGate { return None; }
    var there := s.GateHas(preserved);
    if !there { return None; }
    var fetched := FetchStranded(s, run, preserved);
    why := if fetched then None else Some(PreserveFailed);
  }

  method FetchStranded(s: Session, run: nat, preserved: Sha) returns (ok: bool)
    requires s.Valid() && Writes(s, run)
    modifies s
    ensures s.Grown() && s.call == old(s.call)
    ensures Free(old(s.w).wt, RecoverAnchor, run) ==> s.overwrites == old(s.overwrites)
    ensures s.Alone() ==> Undisturbed(old(s.w), s.w) && s.w.runs == old(s.w.runs)
    ensures ok ==> s.w.wt.Get(Anchor(RecoverAnchor, run, false)) == Some(preserved)
    ensures forall x: Ref :: IsPrivate(x) && x != Anchor(RecoverAnchor, run, false) ==>
              s.w.wt.Get(x) == old(s.w).wt.Get(x)
    ensures Smooth(old(s.script)) && preserved in old(s.w).gate.objects ==> ok
  {
    hide Session.Valid, Quiet, Awake, Calm, Sighted, Smooth, Blind, Undisturbed;
    s.Levels();
    UndisturbedByItself(s.w);
    ghost var w0 := s.w;
    var staged := s.StageInGate(run, preserved);
    if !staged { return false; }
    ghost var w1 := s.w;
    var fetched := s.FetchStaged(RecoverAnchor, run);
    ghost var w2 := s.w;
    s.Unstage(run, true);
    ghost var w3 := s.w;
    if s.Alone() {
      UndisturbedChains(w0, w1, w2);
      UndisturbedChains(w0, w2, w3);
    }
    if !fetched { return false; }
    var anchored := s.AnchorCommit(RecoverAnchor, run);
    ok := anchored == Some(preserved);
  }

  /** Pin the gate head a keep-local return is about to move away from. */
  method AnchorAbandoned(s: Session, run: nat, branch: nat, local: Sha, gateHead: Sha)
      returns (why: Option<Refusal>, ghost pin: Ref)
    requires s.Valid() && Writes(s, run)
    requires local in s.dag.history
    modifies s
    ensures s.Anchoring()
    ensures s.Alone() ==> Undisturbed(old(s.w), s.w) && s.w.runs == old(s.w.runs) && s.w.gate == old(s.w).gate
    ensures why.Some? ==> why.value in {AliasConflict(false), PreserveFailed}
    ensures why.None? && gateHead != NO_SHA ==>
              s.dag.Contains(local, gateHead) || (pin.Anchor? && s.w.wt.Get(pin) == Some(gateHead))
    ensures Calm(old(s.script)) && why.None? && gateHead != NO_SHA ==>
              || local == gateHead
              || (local in s.w.wt.objects && s.dag.Contains(local, gateHead))
              || Names(Alias(s.w.wt, RecoverAnchor, run), gateHead)
              || Names(Alias(s.w.wt, AbandonedAnchor, run), gateHead)
    ensures Calm(old(s.script)) && gateHead != NO_SHA && !s.dag.Contains(local, gateHead)
              && Names(Alias(old(s.w).wt, RecoverAnchor, run), gateHead) ==>
              why.None? && s.w == old(s.w)
    ensures forall x: Ref :: IsPrivate(x) && x != Anchor(AbandonedAnchor, run, false) ==>
              s.w.wt.Get(x) == old(s.w).wt.Get(x)
    ensures Smooth(old(s.script)) && s.hasGate && old(s.w).gate.Get(Branch(branch)) == Some(gateHead)
              && local in old(s.w).wt.objects
              && gateHead != NO_SHA ==>
              why == Abandons(s.dag, old(s.w).wt, run, local, gateHead)
  {
    hide Session.Valid, Quiet, Awake, Calm, Sighted, Smooth, Blind, Undisturbed, AbandonedAnchored;
    s.Levels();
    UndisturbedByItself(s.w);
    pin := Anchor(AbandonedAnchor, run, false);
    if gateHead == NO_SHA { return None, pin; }
    s.SelfContained(local);
    if gateHead == local { return None, pin; }
    var contained := s.IsAncestor(gateHead, local);
    if contained { return None, pin; }
    var recover := s.ReadAlias(RecoverAnchor, run);
    match recover {
      case Conflict => return Some(AliasConflict(false)), pin;
      case Absent =>
      case Found(ref, sha) => if sha == gateHead { return None, ref; }
    }
    why, pin := FindOrPlace(s, run, branch, gateHead);
  }

  /** The abandoned anchor names the gate head already, or is made to. */
  method FindOrPlace(s: Session, run: nat, branch: nat, gateHead: Sha) returns (why: Option<Refusal>, ghost pin: Ref)
    requires s.Valid() && Writes(s, run)
    modifies s
    ensures s.Anchoring()
    ensures s.Alone() ==> Undisturbed(old(s.w), s.w) && s.w.runs == old(s.w.runs) && s.w.gate == old(s.w).gate
    ensures why.Some? ==> why.value in {AliasConflict(false), PreserveFailed}
    ensures why.None? ==> pin.Anchor? && s.w.wt.Get(pin) == Some(gateHead)
    ensures Calm(old(s.script)) && why.None? ==> Names(Alias(s.w.wt, AbandonedAnchor, run), gateHead)
    ensures forall x: Ref :: IsPrivate(x) && x != Anchor(AbandonedAnchor, run, false) ==>
              s.w.wt.Get(x) == old(s.w).wt.Get(x)
    ensures Smooth(old(s.script)) && s.hasGate && old(s.w).gate.Get(Branch(branch)) == Some(gateHead) ==>
              why == AbandonedAnchored(old(s.w).wt, run, gateHead)
  {
    hide Session.Valid, Quiet, Awake, Calm, Sighted, Smooth, Blind, Undisturbed;
    s.Levels();
    UndisturbedByItself(s.w);
    pin := Anchor(AbandonedAnchor, run, false);
    var alias := s.ReadAlias(AbandonedAnchor, run);
    match alias {
      case Conflict => return Some(AliasConflict(false)), pin;
      case Absent =>
      case Found(ref, sha) => return if sha == gateHead then None else Some(PreserveFailed), ref;
    }
    var placed := PlaceAbandoned(s, run, branch, gateHead);
    why := if placed then None else Some(PreserveFailed);
  }

  method PlaceAbandoned(s: Session, run: nat, branch: nat, gateHead: Sha) returns (ok: bool)
    requires s.Valid() && Writes(s, run)
    modifies s
    ensures s.Grown() && s.call == old(s.call)
    ensures Free(old(s.w).wt, AbandonedAnchor, run) ==> s.overwrites == old(s.overwrites)
    ensures s.Alone() ==> Undisturbed(old(s.w), s.w) && s.w.runs == old(s.w.runs) && s.w.gate == old(s.w).gate
    ensures ok ==> s.w.wt.Get(Anchor(AbandonedAnchor, run, false)) == Some(gateHead)
    ensures forall x: Ref :: IsPrivate(x) && x != Anchor(AbandonedAnchor, run, false) ==>
              s.w.wt.Get(x) == old(s.w).wt.Get(x)
    ensures Smooth(old(s.script)) && s.hasGate && old(s.w).gate.Get(Branch(branch)) == Some(gateHead) ==> ok
  {
    hide Session.Valid, Quiet, Awake, Calm, Sighted, Smooth, Blind, Undisturbed;
    s.Levels();
    UndisturbedByItself(s.w);
    var here := s.Has(gateHead);
    if here {
      ok := s.PutAnchor(AbandonedAnchor, run, gateHead);
    } else if !s.hasGate {
      ok := false;
    } else {
      ok := s.FetchGateBranch(branch, AbandonedAnchor, run);
    }
    if ok {
      var anchored := s.AnchorCommit(AbandonedAnchor, run);
      ok := anchored == Some(gateHead);
    }
  }

  /** Bring the kept head into the gate under a staging ref. */
  method StageKept(s: Session, run: nat, branch: nat, local: Sha) returns (ok: bool)
    requires s.Valid()
    modifies s
    ensures s.Onward() && s.AnchorsKept()
    ensures s.Alone() ==> Undisturbed(old(s.w), s.w) && s.w.runs == old(s.w.runs) && s.w.wt == old(s.w).wt
    ensures Smooth(old(s.script)) && old(s.w).HeadCommit() == Some(local)
              && old(s.w).wt.Get(Branch(branch)) == Some(local) ==>
              && ok
              && s.w.gate == Fetched(s.dag, old(s.w).gate, old(s.w).wt, Branch(branch), Staging(run, false))
              && s.w == old(s.w).(gate := s.w.gate)
  {
    hide Session.Valid, Quiet, Awake, Calm, Sighted, Smooth, Blind, Undisturbed;
    s.Levels();
    UndisturbedByItself(s.w);
    ok := false;
    var head := s.HeadSha();
    if head == Some(local) {
      ghost var w0 := s.w;
      var staged := s.StageLocal(run, branch);
      if staged {
        var tip := s.StagedCommit(run);
        ok := tip == Some(local);
      }
      if !ok {
        ghost var w1 := s.w;
        s.Unstage(run, false);
        if s.Alone() { UndisturbedChains(w0, w1, s.w); }
      }
    }
  }

  /** A moment after the gate branch moved and before the run is stamped: a call can be cut short here. */
  ghost predicate CutAt(s: Session, k: nat)
    reads s
  {
    s.call.gateMove.Some? && s.call.gateMove.value < k <= |s.log| && (s.call.stamp.Some? ==> k <= s.call.stamp.value)
  }

  /** All that happened since `a` is that the gate branch left its commit for `local`. */
  ghost predicate GateCut(a: World, c: World, run: nat, branch: nat, local: Sha) {
    && OnlyGateMoved(a, c, branch, local) && c.runs == a.runs
    && a.gate.Get(Branch(branch)).Some? && a.gate.Get(Branch(branch)) != Some(local)
    && Alias(c.wt, LocalAnchor, run) == Alias(a.wt, LocalAnchor, run)
    && Alias(c.wt, RecoverAnchor, run) == Alias(a.wt, RecoverAnchor, run)
  }

  /**
   * The checked-out branch is at `local` and the gate's at a head it does not
   * contain, which the recovery anchor names.
   */
  predicate SwapReady(dag: Dag, w: World, run: nat, branch: nat, local: Sha, gateHead: Sha) {
    && w.HeadCommit() == Some(local) && w.wt.Get(Branch(branch)) == Some(local)
    && w.gate.Get(Branch(branch)) == Some(gateHead) && !dag.Contains(local, gateHead)
    && Names(Alias(w.wt, RecoverAnchor, run), gateHead)
  }

  /** The gate has fetched the branch and is at `local`; its staging ref is gone again. */
  function KeptAtGate(dag: Dag, w: World, run: nat, branch: nat, local: Sha): World {
    var gate := Fetched(dag, w.gate, w.wt, Branch(branch), Staging(run, false));
    w.(gate := gate.Put(Branch(branch), local).Drop(Staging(run, false)))
  }

  lemma CheckedOutIsThere(s: Session, branch: nat, local: Sha)
    requires s.Valid()
    ensures CheckedOut(s.w, branch, local) ==> local in s.w.wt.objects
  {
  }

  lemma StagedStands(s: Session, run: nat, branch: nat, local: Sha)
    requires s.Valid() && local in s.dag.history
    ensures CheckedOut(s.w, branch, local) ==>
              var gate := Fetched(s.dag, s.w.gate, s.w.wt, Branch(branch), Staging(run, false));
              && s.w.wt.Get(Branch(branch)) == Some(local) && s.w.HeadCommit() == Some(local) && local in s.w.wt.objects
              && local in gate.objects && gate.Get(Branch(branch)) == s.w.gate.Get(Branch(branch))
  {
  }

  lemma SwapStands(dag: Dag, w: World, run: nat, branch: nat, local: Sha, gateHead: Sha)
    requires dag.Valid() && local in dag.history && SwapReady(dag, w, run, branch, local, gateHead)
    ensures w.HeadCommit() == Some(local) && w.wt.Get(Branch(branch)) == Some(local)
    ensures !dag.Contains(local, gateHead) && Names(Alias(w.wt, RecoverAnchor, run), gateHead)
    ensures var gate := Fetched(dag, w.gate, w.wt, Branch(branch), Staging(run, false));
            && local in gate.objects && gate.Get(Branch(branch)) == Some(gateHead)
            && w.(gate := gate.Put(Branch(branch), local).Drop(Staging(run, false)))
                 == KeptAtGate(dag, w, run, branch, local)
  {
  }

  /** The call can be cut short in just that world. */
  ghost predicate SwapCut(s: Session, a: World, run: nat, branch: nat, local: Sha)
    reads s
  {
    exists k :: CutAt(s, k) && Moment(s.entry, s.log, k) == KeptAtGate(s.dag, a, run, branch, local)
  }

  /** Pin the commit the gate lets go, then move the gate branch by compare-and-swap. */
  method SwapOntoLocal(s: Session, run: nat, branch: nat, local: Sha, gateHead: Sha) returns (why: Option<Refusal>)
    requires s.Valid() && s.Untouched() && Writes(s, run)
    requires local in s.dag.history && gateHead != NO_SHA && local != gateHead
    modifies s
    ensures s.Ahead() && s.call == old(s.call).(gateMove := s.call.gateMove) && (s.call.gateMove.Some? <==> why.None?)
    ensures why.None? ==> s.call.gateMove.value < |s.log|
    ensures why.Some? ==> why.value in {AssumptionsChanged(true), GateRace, AliasConflict(false), PreserveFailed}
    ensures s.Alone() ==> s.w.runs == old(s.w.runs)
    ensures s.Alone() && why.Some? ==> Undisturbed(old(s.w), s.w)
    ensures s.Alone() && why.None? ==> OnlyGateMoved(old(s.w), s.w, branch, local)
    ensures Calm(old(s.script)) && why.None? && LocalHead(s.w) == Some(local) ==>
              GateHeadIsSafe(s.dag, s.w, run, gateHead)
    ensures Smooth(old(s.script)) && SwapReady(s.dag, old(s.w), run, branch, local, gateHead) ==>
              why.None? && s.w == KeptAtGate(s.dag, old(s.w), run, branch, local)
    ensures s.Alone() ==> forall k :: CutAt(s, k) ==> GateCut(old(s.w), Moment(s.entry, s.log, k), run, branch, local)
    ensures forall x: Ref :: IsPrivate(x) && x != Anchor(AbandonedAnchor, run, false) ==>
              s.w.wt.Get(x) == old(s.w).wt.Get(x)
    ensures Smooth(old(s.script)) && s.hasGate && old(s.w).gate.Get(Branch(branch)) == Some(gateHead)
              && CheckedOut(old(s.w), branch, local) ==>
              why == Abandons(s.dag, old(s.w).wt, run, local, gateHead)
  {
    hide Session.Valid, Quiet, Awake, Calm, Sighted, Smooth, Blind, Undisturbed, OnlyGateMoved, Names, SwapReady,
         KeptAtGate, Fetched, Abandons, CheckedOut, World.HeadCommit, GateCut;
    s.Levels();
    s.DagIsValid();
    StagedStands(s, run, branch, local);
    if SwapReady(s.dag, s.w, run, branch, local, gateHead) { SwapStands(s.dag, s.w, run, branch, local, gateHead); }
    var staged := StageKept(s, run, branch, local);
    if !staged { return Some(AssumptionsChanged(true)); }
    ghost var w1 := s.w;
    why := PinAndSwap(s, run, branch, local, gateHead);
    if s.Alone() {
      GateCutsBefore(old(s.w), w1, run, branch, local);
      if why.Some? { UndisturbedChains(old(s.w), w1, s.w); }
    }
  }

  lemma GateCutBefore(a: World, b: World, c: World, run: nat, branch: nat, local: Sha)
    requires Undisturbed(a, b) && b.runs == a.runs && b.wt == a.wt && GateCut(b, c, run, branch, local)
    ensures GateCut(a, c, run, branch, local) && OnlyGateMoved(a, c, branch, local)
  {
  }

  lemma GateCutsBefore(a: World, b: World, run: nat, branch: nat, local: Sha)
    requires Undisturbed(a, b) && b.runs == a.runs && b.wt == a.wt
    ensures forall c :: GateCut(b, c, run, branch, local) ==>
              GateCut(a, c, run, branch, local) && OnlyGateMoved(a, c, branch, local)
  {
    hide GateCut, Undisturbed;
    forall c | GateCut(b, c, run, branch, local)
      ensures GateCut(a, c, run, branch, local) && OnlyGateMoved(a, c, branch, local)
    {
      GateCutBefore(a, b, c, run, branch, local);
    }
  }

  /** The kept head is staged: pin what the gate lets go, swap, and remove the staging ref. */
  method PinAndSwap(s: Session, run: nat, branch: nat, local: Sha, gateHead: Sha) returns (why: Option<Refusal>)
    requires s.Valid() && s.Untouched() && Writes(s, run)
    requires local in s.dag.history && gateHead != NO_SHA && local != gateHead
    modifies s
    ensures s.Ahead() && s.call == old(s.call).(gateMove := s.call.gateMove) && (s.call.gateMove.Some? <==> why.None?)
    ensures why.None? ==> s.call.gateMove.value < |s.log|
    ensures why.Some? ==> why.value in {GateRace, AliasConflict(false), PreserveFailed}
    ensures s.Alone() ==> s.w.runs == old(s.w.runs)
    ensures s.Alone() && why.Some? ==> Undisturbed(old(s.w), s.w)
    ensures s.Alone() && why.None? ==> GateCut(old(s.w), s.w, run, branch, local)
    ensures Calm(old(s.script)) && why.None? && LocalHead(s.w) == Some(local) ==>
              GateHeadIsSafe(s.dag, s.w, run, gateHead)
    ensures Smooth(old(s.script)) && !s.dag.Contains(local, gateHead)
              && Names(Alias(old(s.w).wt, RecoverAnchor, run), gateHead)
              && local in old(s.w).gate.objects && old(s.w).gate.Get(Branch(branch)) == Some(gateHead) ==>
              why.None? && s.w == old(s.w).(gate := old(s.w).gate.Put(Branch(branch), local).Drop(Staging(run, false)))
    ensures s.Alone() ==> forall k :: CutAt(s, k) ==> GateCut(old(s.w), Moment(s.entry, s.log, k), run, branch, local)
    ensures forall x: Ref :: IsPrivate(x) && x != Anchor(AbandonedAnchor, run, false) ==>
              s.w.wt.Get(x) == old(s.w).wt.Get(x)
    ensures Smooth(old(s.script)) && s.hasGate && old(s.w).gate.Get(Branch(branch)) == Some(gateHead)
              && local in old(s.w).wt.objects
              && local in old(s.w).gate.objects ==>
              why == Abandons(s.dag, old(s.w).wt, run, local, gateHead)
  {
    hide Session.Valid, Quiet, Awake, Calm, Sighted, Smooth, Blind, Undisturbed, OnlySwapped, GateCut, Names, Abandons;
    s.Levels();
    UndisturbedByItself(s.w);
    var blocked, pin := AnchorAbandoned(s, run, branch, local, gateHead);
    ghost var w2 := s.w;
    if blocked.Some? {
      s.Unstage(run, false);
      if s.Alone() { UndisturbedChains(old(s.w), w2, s.w); }
      return blocked;
    }
    var swapped := SwapUnstage(s, run, branch, local, gateHead, pin);
    if s.Alone() {
      if swapped {
        forall k | CutAt(s, k)
          ensures GateCut(old(s.w), Moment(s.entry, s.log, k), run, branch, local)
        {
          GateCutAfter(old(s.w), w2, Moment(s.entry, s.log, k), run, branch, local, gateHead);
        }
        GateCutAfter(old(s.w), w2, s.w, run, branch, local, gateHead);
      } else {
        UndisturbedChains(old(s.w), w2, s.w);
      }
    }
    why := if swapped then None else Some(GateRace);
  }

  /** Since `b` the gate branch moved, and nothing else did but staging refs. */
  ghost predicate OnlySwapped(b: World, d: World, branch: nat, to: Sha) {
    Undisturbed(b.(gate := b.gate.Put(Branch(branch), to)), d) && d.runs == b.runs && d.wt == b.wt
  }

  lemma GateMoveAfter(a: World, b: World, d: World, branch: nat, to: Sha)
    requires Undisturbed(a, b) && OnlySwapped(b, d, branch, to)
    ensures OnlyGateMoved(a, d, branch, to)
  {
  }

  lemma GateCutAfter(a: World, b: World, c: World, run: nat, branch: nat, local: Sha, gateHead: Sha)
    requires Undisturbed(a, b) && b.runs == a.runs && OnlySwapped(b, c, branch, local)
    requires b.gate.Get(Branch(branch)) == Some(gateHead) && gateHead != local
    requires forall x: Ref :: IsPrivate(x) && x != Anchor(AbandonedAnchor, run, false) ==> b.wt.Get(x) == a.wt.Get(x)
    ensures GateCut(a, c, run, branch, local)
  {
    GateMoveAfter(a, b, c, branch, local);
  }

  /** The swap, and then the removal of the staging ref whether or not it succeeded. */
  method SwapUnstage(s: Session, run: nat, branch: nat, local: Sha, gateHead: Sha, ghost pin: Ref) returns (ok: bool)
    requires s.Valid() && s.Untouched()
    requires s.dag.Contains(local, gateHead) || (pin.Anchor? && s.w.wt.Get(pin) == Some(gateHead))
    modifies s
    ensures s.Ahead() && s.AnchorsKept() && s.call == old(s.call).(gateMove := s.call.gateMove)
              && (s.call.gateMove.Some? <==> ok)
    ensures ok ==> s.call.gateMove.value < |s.log|
    ensures Smooth(old(s.script)) && local in old(s.w).gate.objects
              && old(s.w).gate.Get(Branch(branch)) == Some(gateHead) ==>
              ok && s.w == old(s.w).(gate := old(s.w).gate.Put(Branch(branch), local).Drop(Staging(run, false)))
    ensures s.Alone() ==> s.w.wt == old(s.w).wt
    ensures s.Alone() && !ok ==> Undisturbed(old(s.w), s.w) && s.w.runs == old(s.w.runs)
    ensures s.Alone() && ok ==>
              old(s.w).gate.Get(Branch(branch)) == Some(gateHead) && OnlySwapped(old(s.w), s.w, branch, local)
    ensures s.Alone() ==> forall k :: CutAt(s, k) ==> OnlySwapped(old(s.w), Moment(s.entry, s.log, k), branch, local)
  {
    hide Session.Valid, Quiet, Awake, Calm, Sighted, Smooth, Blind, Undisturbed;
    s.Levels();
    ok := s.SwapGate(branch, local, gateHead, pin);
    ghost var w3 := s.w;
    s.Now();
    UndisturbedByItself(w3);
    s.Unstage(run, false);
    s.Now();
    assert s.Alone() ==> forall k :: CutAt(s, k) ==>
        Moment(s.entry, s.log, k) == w3 || Moment(s.entry, s.log, k) == s.w;
  }

  lemma StillSafe(dag: Dag, a: World, b: World, run: Run)
    requires WorktreeUndisturbed(a, b)
    requires Alias(b.wt, RecoverAnchor, run.id) == Alias(a.wt, RecoverAnchor, run.id)
    ensures LocalHead(b) == LocalHead(a)
    ensures PreservedIsSafe(dag, a, run) ==> PreservedIsSafe(dag, b, run)
  {
  }

  /** The worktree is where it was, or HEAD is at the recorded head and the worktree clean. */
  predicate StayedOrArrived(dag: Dag, a: World, b: World, head: Sha) {
    || (b.files == a.files && b.HeadCommit() == a.HeadCommit())
    || (b.HeadCommit() == Some(head) && b.Clean(dag))
  }

  /**
   * What one recovery of `run`, from world `a` to world `b`, amounts to when
   * nobody interferes: a refusal before any move disturbs nothing, only a call
   * that settles the run touches a record, and only the stamp of this one, and
   * a settling call moves HEAD only onto the recorded head with a clean tree.
   */
  ghost predicate QuietOutcome(dag: Dag, a: World, b: World, run: Run, r: Report) {
    && (r.Refused? && BeforeAnyMove(r.why) ==> Undisturbed(a, b))
    && b.runs == (if Settles(r) then Stamped(a.runs, run.id) else a.runs)
    && (Settles(r) ==> b.head == a.head && StayedOrArrived(dag, a, b, run.head))
    && (r.Recovered? && r.changed ==> b.HeadCommit() == Some(run.head) && b.Clean(dag))
    && (r.Recovered? && !r.changed ==> b.files == a.files && b.HeadCommit() == a.HeadCommit())
  }

  /** And when every query is answered, the recorded head and any gate head let go are accounted for. */
  ghost predicate CalmOutcome(dag: Dag, hasGate: bool, a: World, b: World, run: Run, branch: nat, r: Report) {
    r.Recovered? ==>
      && Tells(dag, hasGate, b, run, r.facts)
      && PreservedIsSafe(dag, b, run)
      && a.gate.objects <= b.gate.objects
      && (|| b.gate.Get(Branch(branch)) == a.gate.Get(Branch(branch))
          || (a.gate.Get(Branch(branch)).Some? && GateHeadIsSafe(dag, b, run.id, a.gate.Get(Branch(branch)).value)))
  }

  /** What `Finish` makes of a world where nothing moved. */
  ghost predicate Finished(m: World, b: World, run: Run, r: Report) {
    && b == (if Settles(r) then m.(runs := Stamped(m.runs, run.id)) else m)
    && (r.Recovered? ==> !r.changed)
    && (r.Refused? ==> r.why in {StampFailed, AliasConflict(true)})
  }

  /** Stamping alone, from a world where the recorded head is safe. */
  lemma FinishOutcome(dag: Dag, hasGate: bool, a: World, b: World, run: Run, branch: nat, r: Report)
    requires Finished(a, b, run, r)
    ensures QuietOutcome(dag, a, b, run, r)
    ensures PreservedIsSafe(dag, a, run) && (r.Recovered? ==> Tells(dag, hasGate, b, run, r.facts)) ==>
              CalmOutcome(dag, hasGate, a, b, run, branch, r)
  {
    hide Stamped, Tells, Names;
  }

  /** A refusal before any move. */
  lemma RefusedOutcome(dag: Dag, hasGate: bool, a: World, b: World, run: Run, branch: nat, r: Report)
    requires r.Refused? && !Settles(r) && Undisturbed(a, b) && b.runs == a.runs
    ensures QuietOutcome(dag, a, b, run, r) && CalmOutcome(dag, hasGate, a, b, run, branch, r)
  {
  }

  /** Stamping after the gate branch moved to the kept head. */
  lemma KeptOutcome(dag: Dag, hasGate: bool, a: World, m: World, b: World, run: Run, branch: nat, local: Sha,
      gateHead: Sha, r: Report)
    requires OnlyGateMoved(a, m, branch, local) && m.runs == a.runs
    requires Alias(m.wt, RecoverAnchor, run.id) == Alias(a.wt, RecoverAnchor, run.id)
    requires Finished(m, b, run, r)
    ensures QuietOutcome(dag, a, b, run, r)
    ensures (LocalHead(m) == Some(local) ==> GateHeadIsSafe(dag, m, run.id, gateHead))
              && (r.Recovered? ==> Tells(dag, hasGate, b, run, r.facts)) && PreservedIsSafe(dag, a, run)
              && LocalHead(a) == Some(local) && a.gate.Get(Branch(branch)) == Some(gateHead) ==>
              CalmOutcome(dag, hasGate, a, b, run, branch, r)
  {
    hide Stamped, Tells, Names;
    StillSafe(dag, a, m, run);
  }

  lemma StayFollows(dag: Dag, a: World, b: World, run: Run, branch: nat, local: Sha, r: Report)
    ensures Completed(a, b, run, r) && (r.Recovered? ==> !r.changed) ==>
              Follows(dag, StaysHere, a, b, run, branch, local, r)
  {
    hide Stamped;
  }

  lemma KeptFollows(dag: Dag, a: World, m: World, b: World, run: Run, branch: nat, local: Sha, r: Report)
    ensures OnlyGateMoved(a, m, branch, local) && Completed(m, b, run, r) && (r.Recovered? ==> !r.changed) ==>
              Follows(dag, GateFollows, a, b, run, branch, local, r)
  {
    hide Stamped;
  }

  /** Keep the local head; the worktree is never touched. */
  method KeepLocal(s: Session, run: Run, branch: nat, local: Sha, gateHead: Sha) returns (r: Report)
    requires s.Valid() && Aimed(s, run)
    requires local in s.dag.history && gateHead != NO_SHA
    modifies s
    ensures s.Ahead() && Concluded(s.call, run, r) && !s.call.moving
    ensures r.Recovered? ==> !r.changed
    ensures s.Alone() ==> QuietOutcome(s.dag, old(s.w), s.w, run, r)
    ensures s.Alone() ==> forall k :: CutAt(s, k) ==>
              GateCut(old(s.w), Moment(s.entry, s.log, k), run.id, branch, local)
    ensures Calm(old(s.script)) && PreservedIsSafe(s.dag, old(s.w), run) && LocalHead(old(s.w)) == Some(local)
              && old(s.w).gate.Get(Branch(branch)) == Some(gateHead) ==>
              CalmOutcome(s.dag, s.hasGate, old(s.w), s.w, run, branch, r)
    ensures gateHead == local && Smooth(old(s.script)) ==> Completed(old(s.w), s.w, run, r)
    ensures Smooth(old(s.script)) && SwapReady(s.dag, old(s.w), run.id, branch, local, gateHead) ==>
              SwapCut(s, old(s.w), run.id, branch, local)
    ensures Smooth(old(s.script)) && s.hasGate && CheckedOut(old(s.w), branch, local)
              && old(s.w).gate.Get(Branch(branch)) == Some(gateHead) ==>
              Follows(s.dag, KeepAnswer(s.dag, old(s.w).wt, run.id, local, gateHead), old(s.w), s.w, run, branch, local,
                  r)
  {
    hide Session.Valid, Quiet, Awake, Calm, Sighted, Smooth, Blind, Tells, Stamped, QuietOutcome, CalmOutcome,
         PreservedIsSafe, GateCut, Completed, SwapCut, Follows, Abandons, CheckedOut;
    s.Levels();
    s.SelfContained(local);
    if gateHead != local {
      r := SwapAndReturn(s, run, branch, local, gateHead);
    } else {
      r := Finish(s, run, false);
      StayFollows(s.dag, old(s.w), s.w, run, branch, local, r);
      if s.Alone() { FinishOutcome(s.dag, s.hasGate, old(s.w), s.w, run, branch, r); }
    }
  }

  /** Move the gate branch to the local head, then return custody. */
  method SwapAndReturn(s: Session, run: Run, branch: nat, local: Sha, gateHead: Sha) returns (r: Report)
    requires s.Valid() && Aimed(s, run)
    requires local in s.dag.history && gateHead != NO_SHA && gateHead != local
    modifies s
    ensures s.Ahead() && Concluded(s.call, run, r) && !s.call.moving
    ensures r.Recovered? ==> !r.changed
    ensures s.Alone() ==> QuietOutcome(s.dag, old(s.w), s.w, run, r)
    ensures s.Alone() ==> forall k :: CutAt(s, k) ==>
              GateCut(old(s.w), Moment(s.entry, s.log, k), run.id, branch, local)
    ensures Calm(old(s.script)) && PreservedIsSafe(s.dag, old(s.w), run) && LocalHead(old(s.w)) == Some(local)
              && old(s.w).gate.Get(Branch(branch)) == Some(gateHead) ==>
              CalmOutcome(s.dag, s.hasGate, old(s.w), s.w, run, branch, r)
    ensures Smooth(old(s.script)) && SwapReady(s.dag, old(s.w), run.id, branch, local, gateHead) ==>
              SwapCut(s, old(s.w), run.id, branch, local)
    ensures Smooth(old(s.script)) && s.hasGate && CheckedOut(old(s.w), branch, local)
              && old(s.w).gate.Get(Branch(branch)) == Some(gateHead) ==>
              Follows(s.dag, KeepAnswer(s.dag, old(s.w).wt, run.id, local, gateHead), old(s.w), s.w, run, branch, local,
                  r)
  {
    hide Session.Valid, Quiet, Awake, Calm, Sighted, Smooth, Blind, Undisturbed, OnlyGateMoved, Tells, Stamped,
         QuietOutcome, CalmOutcome, PreservedIsSafe, GateHeadIsSafe, GateCut, KeptAtGate, SwapReady, Follows, Abandons,
             Completed, CheckedOut;
    s.Levels();
    var why := SwapOntoLocal(s, run.id, branch, local, gateHead);
    if why.Some? {
      r := Refused(why.value);
      if s.Alone() { RefusedOutcome(s.dag, s.hasGate, old(s.w), s.w, run, branch, r); }
      RefuseFollows(s.dag, old(s.w), s.w, run, branch, local, why.value);
      return;
    }
    ghost var m, kept := s.w, s.log;
    s.Now();
    label Kept:
    r := Finish(s, run, false);
    if s.Alone() {
      KeptFollows(s.dag, old(s.w), m, s.w, run, branch, local, r);
      KeptOutcome(s.dag, s.hasGate, old(s.w), m, s.w, run, branch, local, gateHead, r);
      forall k | CutAt(s, k)
        ensures GateCut(old(s.w), Moment(s.entry, s.log, k), run.id, branch, local)
      {
        assert old@Kept(CutAt(s, k));
      }
      assert CutAt(s, |kept|);
      assert Moment(s.entry, s.log, |kept|) == Moment(s.entry, kept, |kept|) == m;
    }
  }

  // ----- worktree moves -----

  /** The clean local head is checked out. */
  predicate ReadyAt(dag: Dag, w: World, branch: nat, local: Sha) {
    w.head == On(branch) && w.HeadCommit() == Some(local) && w.Clean(dag)
  }

  /** Branch, HEAD and cleanliness are still what inspection saw. */
  method StillAsSeen(s: Session, branch: nat, local: Sha) returns (yes: bool)
    requires s.Valid()
    modifies s
    ensures s.Onward() && s.AnchorsKept()
    ensures s.Alone() ==> s.w == old(s.w)
    ensures s.Alone() && yes ==> s.w.head == On(branch) && s.w.HeadCommit() == Some(local) && s.w.Clean(s.dag)
    ensures Awake(old(s.script)) && ReadyAt(s.dag, s.w, branch, local) ==> yes
  {
    hide Session.Valid, Quiet, Awake, Calm, Sighted, Smooth, Blind;
    s.Levels();
    var b := s.CurrentBranch();
    var head := s.HeadSha();
    var clean := s.WorktreeClean();
    yes := b == Some(branch) && head == Some(local) && clean;
  }

  /**
   * What a worktree move amounts to when nobody interferes: if it settles the run,
   * HEAD is at the recorded head and the worktree clean.
   */
  ghost predicate MoveOutcome(dag: Dag, a: World, b: World, run: Run, r: Report) {
    && (r.Refused? && BeforeAnyMove(r.why) ==> Undisturbed(a, b))
    && b.runs == (if Settles(r) then Stamped(a.runs, run.id) else a.runs)
    && (Settles(r) ==> b.gate == a.gate && b.head == a.head && b.HeadCommit() == Some(run.head) && b.Clean(dag))
    && (r.Recovered? ==> r.changed)
  }

  lemma MoveFinished(dag: Dag, a: World, m: World, b: World, run: Run, r: Report)
    requires m.runs == a.runs && m.gate == a.gate && m.head == a.head
    requires b == if Settles(r) then m.(runs := Stamped(m.runs, run.id)) else m
    requires Settles(r) ==> b.HeadCommit() == Some(run.head) && b.Clean(dag)
    requires if r.Recovered? then r.changed
              else r.why in {ApplyFailed(true), LeftUnclean, StampFailed, AliasConflict(true)}
    ensures MoveOutcome(dag, a, b, run, r)
  {
    hide Undisturbed, Stamped, World.Clean;
  }

  lemma MoveRefused(dag: Dag, a: World, b: World, run: Run, r: Report)
    requires r.Refused? && !Settles(r) && b.runs == a.runs && (BeforeAnyMove(r.why) ==> Undisturbed(a, b))
    ensures MoveOutcome(dag, a, b, run, r)
  {
    hide Undisturbed;
  }

  /** Observe that HEAD is at the recorded head, and then that the worktree is clean. */
  method SeeMove(s: Session, head: Sha) returns (why: Option<Refusal>)
    requires s.Valid()
    modifies s
    ensures s.Onward() && s.AnchorsKept()
    ensures s.Alone() ==> s.w == old(s.w)
    ensures why.Some? ==> why.value in {ApplyFailed(true), LeftUnclean}
    ensures why.None? ==> Arrived(s.dag, s.entry, s.log, s.call.start, |s.log|, head)
    ensures s.Alone() && why.None? ==> s.w.HeadCommit() == Some(head) && s.w.Clean(s.dag)
    ensures Awake(old(s.script)) && s.w.HeadCommit() == Some(head) && s.w.Clean(s.dag) ==> why.None?
  {
    hide Session.Valid, Quiet, Awake, Calm, Sighted, Smooth, Blind, Arrived, World.Clean;
    s.Levels();
    s.Started();
    var now := s.HeadSha();
    ghost var i := |s.log|;
    s.Now();
    var clean := s.WorktreeClean();
    s.Now();
    if now != Some(head) { return Some(ApplyFailed(true)); }
    if !clean { return Some(LeftUnclean); }
    assert Moment(s.entry, s.log, i).HeadCommit() == Some(head);
    ArrivedAt(s.dag, s.entry, s.log, s.call.start, i, |s.log|, head);
    why := None;
  }

  /** Observe that the move arrived, then stamp. */
  method FinishMove(s: Session, run: Run) returns (r: Report)
    requires s.Valid() && s.call.moving && s.call.stamp.None? && s.call.id == run.id && s.call.goal == run.head
    modifies s
    ensures s.Ahead() && s.call == old(s.call).(stamp := s.call.stamp) && (s.call.stamp.Some? <==> Settles(r))
    ensures r.Recovered? ==> r.changed
    ensures r.Refused? ==> r.why in {ApplyFailed(true), LeftUnclean, StampFailed, AliasConflict(true)}
    ensures s.Alone() ==> s.w == if Settles(r) then old(s.w).(runs := Stamped(old(s.w).runs, run.id)) else old(s.w)
    ensures s.Alone() && Settles(r) ==> s.w.HeadCommit() == Some(run.head) && s.w.Clean(s.dag)
    ensures Calm(old(s.script)) && r.Recovered? ==> Tells(s.dag, s.hasGate, s.w, run, r.facts)
    ensures Smooth(old(s.script)) && old(s.w).HeadCommit() == Some(run.head) && old(s.w).Clean(s.dag) ==>
              Done(s.w, run, r)
  {
    hide Session.Valid, Quiet, Awake, Calm, Sighted, Smooth, Blind, Tells, Arrived, AnchorsConflict, Stamped;
    s.Levels();
    var why := SeeMove(s, run.head);
    if why.Some? { return Refused(why.value); }
    r := Finish(s, run, true);
  }

  lemma FastForwardArrives(dag: Dag, w: World, to: Sha)
    ensures CanFastForward(dag, w, to) && w.Clean(dag) ==>
              var b := FastForwarded(dag, w, to); b.HeadCommit() == Some(to) && b.Clean(dag)
  {
    if CanFastForward(dag, w, to) && w.Clean(dag) { TwoTreeExact(dag.trees[w.HeadCommit().value], dag.trees[to]); }
  }

  lemma FastForwardStays(dag: Dag, w: World, to: Sha)
    ensures CanFastForward(dag, w, to) && w.head.On? ==>
              var b := FastForwarded(dag, w, to); b.runs == w.runs && b.gate == w.gate && b.head == w.head
  {
  }

  /** Strict fast-forward of the clean checked-out branch to the anchored head. */
  method FastForward(s: Session, run: Run, branch: nat, local: Sha, ghost pin: Ref) returns (r: Report)
    requires s.Valid() && Aimed(s, run)
    requires PinsHead(s.w.wt, run, pin)
    modifies s
    ensures s.Ahead() && Concluded(s.call, run, r) && s.call.gateMove.None?
    ensures s.Alone() ==> MoveOutcome(s.dag, old(s.w), s.w, run, r)
    ensures Calm(old(s.script)) && r.Recovered? ==> Tells(s.dag, s.hasGate, s.w, run, r.facts)
    ensures Smooth(old(s.script)) && ReadyAt(s.dag, old(s.w), branch, local)
              && CanFastForward(s.dag, old(s.w), run.head) ==>
              Done(s.w, run, r)
  {
    hide Session.Valid, Quiet, Awake, Calm, Sighted, Smooth, Blind, Tells, Undisturbed, Stamped, World.Clean, Done,
         CanFastForward;
    s.Levels();
    UndisturbedByItself(s.w);
    var same := StillAsSeen(s, branch, local);
    if !same { return Refused(AssumptionsChanged(true)); }
    r := MergeOnto(s, run, pin);
  }

  method MergeOnto(s: Session, run: Run, ghost pin: Ref) returns (r: Report)
    requires s.Valid() && Aimed(s, run)
    requires PinsHead(s.w.wt, run, pin)
    modifies s
    ensures s.Ahead() && Concluded(s.call, run, r) && s.call.gateMove.None?
    ensures s.Alone() && old(s.w).head.On? ==> MoveOutcome(s.dag, old(s.w), s.w, run, r)
    ensures Calm(old(s.script)) && r.Recovered? ==> Tells(s.dag, s.hasGate, s.w, run, r.facts)
    ensures Smooth(old(s.script)) && CanFastForward(s.dag, old(s.w), run.head) && old(s.w).Clean(s.dag) ==>
              Done(s.w, run, r)
  {
    hide Session.Valid, Quiet, Awake, Calm, Sighted, Smooth, Blind, Tells, Undisturbed, Stamped, CanFastForward,
         FastForwarded, World.Clean, World.HeadCommit, MoveOutcome, Done;
    s.Levels();
    UndisturbedByItself(s.w);
    FastForwardStays(s.dag, s.w, run.head);
    FastForwardArrives(s.dag, s.w, run.head);
    s.SetOut(Anchor(LocalAnchor, run.id, false), false);
    var merged := s.MergeFastForward(run.head, pin);
    ghost var m := s.w;
    if merged {
      r := FinishMove(s, run);
      if s.Alone() && old(s.w).head.On? { MoveFinished(s.dag, old(s.w), m, s.w, run, r); }
    } else {
      var _ := s.HeadSha();
      var _ := s.WorktreeClean();
      r := Refused(ApplyFailed(false));
      if s.Alone() { MoveRefused(s.dag, old(s.w), s.w, run, r); }
    }
  }

  /** Some commit of both histories relative to which the preserved head has every local change. */
  ghost predicate NothingMissing(dag: Dag, local: Sha, preserved: Sha) {
    exists base ::
      && base in dag.trees && local in dag.trees && preserved in dag.trees
      && dag.Contains(local, base) && dag.Contains(preserved, base)
      && CarriesAll(dag.trees[base], dag.trees[preserved], dag.trees[local])
  }

  /** Relative to the merge base `pick`, the preserved head has every local change. */
  predicate Contained(dag: Dag, pick: Sha, local: Sha, preserved: Sha) {
    && local != preserved && dag.Contains(local, pick) && dag.Contains(preserved, pick)
    && {pick, local, preserved} <= dag.trees.Keys
    && MergePreserves(dag.trees[pick], dag.trees[preserved], dag.trees[local])
  }

  lemma ContainedCarries(dag: Dag, pick: Sha, local: Sha, preserved: Sha)
    requires {pick, local, preserved} <= dag.trees.Keys
    ensures MergePreserves(dag.trees[pick], dag.trees[preserved], dag.trees[local])
            <==> CarriesAll(dag.trees[pick], dag.trees[preserved], dag.trees[local])
  {
    MergeDecidesContainment(dag.trees[pick], dag.trees[preserved], dag.trees[local]);
  }

  method ContainsLocalWork(s: Session, local: Sha, preserved: Sha) returns (yes: bool)
    requires s.Valid()
    modifies s
    ensures s.Onward() && s.AnchorsKept()
    ensures s.Alone() ==> s.w == old(s.w)
    ensures yes ==> local != preserved && NothingMissing(s.dag, local, preserved)
    ensures Smooth(old(s.script)) && {local, preserved} <= s.w.wt.objects ==>
              (yes <==> Contained(s.dag, s.script.rest.pick, local, preserved))
  {
    hide Session.Valid, Quiet, Awake, Calm, Sighted, Smooth, Blind, CarriesAll, MergePreserves;
    s.Levels();
    s.InsideTrees(s.script.rest.pick);
    s.Inside(local, s.script.rest.pick);
    if {s.script.rest.pick, local, preserved} <= s.dag.trees.Keys {
      ContainedCarries(s.dag, s.script.rest.pick, local, preserved);
    }
    if local == preserved { return false; }
    var base := s.MergeBase(local, preserved);
    if base.None? { return false; }
    yes := s.MergeIsNoop(base.value, preserved, local);
  }

  /** What anchoring the local head comes to. */
  function LocalAnchored(wt: Repo, run: nat, head: Sha): Option<Refusal> {
    match Alias(wt, LocalAnchor, run)
    case Conflict => Some(AliasConflict(false))
    case Found(_, sha) => if sha == head then None else Some(PreserveFailed)
    case Absent => None
  }

  /** Create-only anchor for the pre-recovery local head; its own earlier anchor is accepted. */
  method AnchorLocal(s: Session, run: nat, head: Sha) returns (why: Option<Refusal>, ghost pin: Ref)
    requires s.Valid()
    modifies s
    ensures s.Onward()
    ensures why.Some? ==> why.value in {AliasConflict(false), PreserveFailed}
    ensures pin == Anchor(LocalAnchor, run, false) && (why.None? ==> s.w.wt.Get(pin) == Some(head))
    ensures s.Alone() ==>
              Undisturbed(old(s.w), s.w) && s.w.runs == old(s.w.runs) && s.w.gate == old(s.w).gate
              && s.w.head == old(s.w).head
    ensures forall x: Ref :: IsPrivate(x) && x != Anchor(LocalAnchor, run, false) ==>
              s.w.wt.Get(x) == old(s.w).wt.Get(x)
    ensures Smooth(old(s.script)) && head in old(s.w).wt.objects ==> why == LocalAnchored(old(s.w).wt, run, head)
  {
    hide Session.Valid, Quiet, Awake, Calm, Sighted, Smooth, Blind, Undisturbed;
    s.Levels();
    UndisturbedByItself(s.w);
    pin := Anchor(LocalAnchor, run, false);
    var first := s.ReadAlias(LocalAnchor, run);
    match first {
      case Conflict => return Some(AliasConflict(false)), pin;
      case Absent =>
      case Found(_, sha) =>
        if sha != head { return Some(PreserveFailed), pin; }
    }
    if !first.Found? || first.ref != Anchor(LocalAnchor, run, false) {
      var created := s.CreateAnchor(LocalAnchor, run, head);
      if !created { return Some(PreserveFailed), pin; }
    }
    var now := s.ReadAlias(LocalAnchor, run);
    match now {
      case Conflict => why := Some(AliasConflict(false));
      case Absent => why := Some(PreserveFailed);
      case Found(_, sha) => why := if sha == head then None else Some(PreserveFailed);
    }
  }

  lemma SwapUndone(a: World, branch: nat, to: Sha, from: Sha)
    requires a.wt.Get(Branch(branch)) == Some(from)
    ensures Undisturbed(a, a.(wt := a.wt.Put(Branch(branch), to).Put(Branch(branch), from)))
  {
  }

  /** Rewrite the files under the swapped branch, or undo the swap by the reverse swap. */
  method Rewrite(s: Session, branch: nat, head: Sha, preserved: Sha, ghost pinHead: Ref, ghost pinPreserved: Ref)
    returns (why: Option<Refusal>)
    requires s.Valid()
    requires {head, preserved} <= s.dag.trees.Keys
    requires pinHead.Anchor? && s.w.wt.Get(pinHead) == Some(head)
    requires pinPreserved.Anchor? && s.w.wt.Get(pinPreserved) == Some(preserved)
    requires s.call.moving && s.call.undo && s.call.pin == pinHead && s.call.goal == preserved
    modifies s
    ensures s.Onward() && s.AnchorsKept()
    ensures why.Some? ==> why.value.AssumptionsChanged? || why.value.WorktreeBusy?
    ensures s.Alone() && why.Some? ==>
              s.w == if BeforeAnyMove(why.value) then old(s.w).(wt := old(s.w).wt.Put(Branch(branch), head))
                  else old(s.w)
    ensures s.Alone() && why.None? ==>
              s.w == old(s.w).(files := TwoTree(old(s.w).files, s.dag.trees[head], s.dag.trees[preserved]))
    ensures Smooth(old(s.script)) && old(s.w).head == On(branch)
              && TwoTreeOk(old(s.w).files, s.dag.trees[head], s.dag.trees[preserved]) ==>
              why.None?
  {
    hide Session.Valid, Quiet, Awake, Calm, Sighted, Smooth, Blind, TwoTree, TwoTreeOk;
    s.Levels();
    var now := s.CurrentBranch();
    if now != Some(branch) {
      var restored := s.SwapBranch(branch, head, preserved, pinPreserved);
      return Some(AssumptionsChanged(restored));
    }
    var rewritten := s.ReadTree(head, preserved, pinHead);
    if !rewritten {
      var restored := s.SwapBranch(branch, head, preserved, pinPreserved);
      return Some(WorktreeBusy(restored));
    }
    why := None;
  }

  /**
   * The two guarded commands of an adoption: swap the branch, then rewrite the
   * files. The reverse swap of a refusal only ever replaces the preserved
   * head, so it never overwrites a concurrent commit.
   */
  method SwapAndRewrite(s: Session, branch: nat, head: Sha, preserved: Sha, ghost pinHead: Ref, ghost pinPreserved: Ref)
    returns (why: Option<Refusal>)
    requires s.Valid()
    requires {head, preserved} <= s.dag.trees.Keys
    requires pinHead.Anchor? && s.w.wt.Get(pinHead) == Some(head)
    requires pinPreserved.Anchor? && s.w.wt.Get(pinPreserved) == Some(preserved)
    requires s.call.moving && s.call.undo && s.call.pin == pinHead && s.call.goal == preserved
    modifies s
    ensures s.Onward() && s.AnchorsKept()
    ensures why.Some? ==> why.value.AssumptionsChanged? || why.value.WorktreeBusy?
    ensures s.Alone() ==> s.w.runs == old(s.w.runs)
    ensures s.Alone() && why.Some? && BeforeAnyMove(why.value) ==> Undisturbed(old(s.w), s.w)
    ensures s.Alone() && why.None? ==>
              s.w == old(s.w).(wt := old(s.w).wt.Put(Branch(branch), preserved),
                               files := TwoTree(old(s.w).files, s.dag.trees[head], s.dag.trees[preserved]))
    ensures Smooth(old(s.script)) && ReadyAt(s.dag, old(s.w), branch, head) && preserved in old(s.w).wt.objects ==>
              why.None?
  {
    hide Session.Valid, Quiet, Awake, Calm, Sighted, Smooth, Blind, Undisturbed, TwoTree, TwoTreeOk, ReadyAt;
    s.Levels();
    UndisturbedByItself(s.w);
    ReadySwaps(s.dag, s.w, branch, head, preserved);
    var before := s.CurrentBranch();
    if before != Some(branch) { return Some(AssumptionsChanged(true)); }
    var swapped := s.SwapBranch(branch, preserved, head, pinHead);
    if !swapped { return Some(AssumptionsChanged(true)); }
    if s.Alone() { SwapUndone(old(s.w), branch, preserved, head); }
    why := Rewrite(s, branch, head, preserved, pinHead, pinPreserved);
  }

  lemma ReadyStays(dag: Dag, a: World, b: World, branch: nat, local: Sha, head: Sha)
    requires Undisturbed(a, b)
    ensures ReadyAt(dag, a, branch, local) <==> ReadyAt(dag, b, branch, local)
    ensures head in a.wt.objects ==> head in b.wt.objects
  {
  }

  lemma ReadySwaps(dag: Dag, w: World, branch: nat, head: Sha, preserved: Sha)
    requires {head, preserved} <= dag.trees.Keys
    ensures ReadyAt(dag, w, branch, head) ==>
              && w.head == On(branch) && w.wt.Get(Branch(branch)) == Some(head)
              && TwoTreeOk(w.files, dag.trees[head], dag.trees[preserved])
              && TwoTree(w.files, dag.trees[head], dag.trees[preserved]) == dag.trees[preserved]
              && w.(wt := w.wt.Put(Branch(branch), preserved), files := dag.trees[preserved]).Clean(dag)
              && w.(wt := w.wt.Put(Branch(branch), preserved), files := dag.trees[preserved]).HeadCommit()
                   == Some(preserved)
  {
    if ReadyAt(dag, w, branch, head) { TwoTreeExact(dag.trees[head], dag.trees[preserved]); }
  }

  /** Adopt a preserved head that provably carries every local change. */
  method Adopt(s: Session, run: Run, branch: nat, local: Sha, ghost pin: Ref) returns (r: Report)
    requires s.Valid() && Aimed(s, run)
    requires PinsHead(s.w.wt, run, pin)
    modifies s
    ensures s.Ahead() && Concluded(s.call, run, r) && s.call.gateMove.None?
    ensures s.call.moving ==> NothingMissing(s.dag, local, run.head)
    ensures s.Alone() ==> MoveOutcome(s.dag, old(s.w), s.w, run, r)
    ensures Calm(old(s.script)) && r.Recovered? ==> Tells(s.dag, s.hasGate, s.w, run, r.facts)
    ensures Smooth(old(s.script)) && ReadyAt(s.dag, old(s.w), branch, local)
              && Contained(s.dag, s.script.rest.pick, local, run.head) ==>
              match LocalAnchored(old(s.w).wt, run.id, local)
              case Some(why) => r == Refused(why)
              case None => Done(s.w, run, r)
  {
    hide Session.Valid, Quiet, Awake, Calm, Sighted, Smooth, Blind, Undisturbed, FactsOf, NothingMissing, Stamped,
         TwoTree, Tells, World.Clean, MoveOutcome, LocalAnchored, Contained, Done, ReadyAt;
    s.Levels();
    s.Named(pin, run.head);
    var blocked, pinHead := PrepareAdoption(s, run.id, branch, local, run.head);
    if blocked.Some? {
      r := Refused(blocked.value);
      if s.Alone() { MoveRefused(s.dag, old(s.w), s.w, run, r); }
      return;
    }
    ghost var w1 := s.w;
    if s.Alone() { ReadyStays(s.dag, old(s.w), w1, branch, local, run.head); }
    r := MoveAdopted(s, run, branch, local, pinHead, pin);
    if s.Alone() { MoveAfter(s.dag, old(s.w), w1, s.w, run, r); }
  }

  lemma MoveAfter(dag: Dag, a: World, m: World, b: World, run: Run, r: Report)
    requires Undisturbed(a, m) && m.runs == a.runs && m.gate == a.gate && m.head == a.head
    requires MoveOutcome(dag, m, b, run, r)
    ensures MoveOutcome(dag, a, b, run, r)
  {
    hide Stamped, World.Clean;
    if r.Refused? && BeforeAnyMove(r.why) { UndisturbedChains(a, m, b); }
  }

  /** Both heads are anchored: move the branch and the files, and observe that they arrived. */
  method MoveAdopted(s: Session, run: Run, branch: nat, local: Sha, ghost pinHead: Ref, ghost pin: Ref)
      returns (r: Report)
    requires s.Valid() && Aimed(s, run)
    requires PinsHead(s.w.wt, run, pin) && {local, run.head} <= s.dag.trees.Keys
    requires pinHead == Anchor(LocalAnchor, run.id, false) && s.w.wt.Get(pinHead) == Some(local)
    modifies s
    ensures s.Ahead() && Concluded(s.call, run, r) && s.call.gateMove.None?
    ensures s.Alone() ==> MoveOutcome(s.dag, old(s.w), s.w, run, r)
    ensures Calm(old(s.script)) && r.Recovered? ==> Tells(s.dag, s.hasGate, s.w, run, r.facts)
    ensures Smooth(old(s.script)) && ReadyAt(s.dag, old(s.w), branch, local) ==> Done(s.w, run, r)
  {
    hide Session.Valid, Quiet, Awake, Calm, Sighted, Smooth, Blind, Undisturbed, FactsOf, Stamped, TwoTree, Tells,
         World.Clean,
         MoveOutcome, Done, ReadyAt;
    s.Levels();
    s.Named(pin, run.head);
    ReadySwaps(s.dag, s.w, branch, local, run.head);
    s.SetOut(pinHead, true);
    var why := SwapAndRewrite(s, branch, local, run.head, pinHead, pin);
    if why.Some? {
      r := Refused(why.value);
      if s.Alone() { MoveRefused(s.dag, old(s.w), s.w, run, r); }
      return;
    }
    ghost var m := s.w;
    r := FinishMove(s, run);
    if s.Alone() { MoveFinished(s.dag, old(s.w), m, s.w, run, r); }
  }

  /** Recheck, prove containment, and anchor the local head. */
  method PrepareAdoption(s: Session, run: nat, branch: nat, local: Sha, preserved: Sha)
      returns (why: Option<Refusal>, ghost pin: Ref)
    requires s.Valid()
    modifies s
    ensures s.Onward()
    ensures why.Some? ==> why.value in {AssumptionsChanged(true), AliasConflict(false), PreserveFailed}
    ensures why.None? ==> NothingMissing(s.dag, local, preserved) && {local, preserved} <= s.dag.trees.Keys
    ensures pin == Anchor(LocalAnchor, run, false) && (why.None? ==> s.w.wt.Get(pin) == Some(local))
    ensures s.Alone() ==>
              Undisturbed(old(s.w), s.w) && s.w.runs == old(s.w.runs) && s.w.gate == old(s.w).gate
              && s.w.head == old(s.w).head
    ensures forall x: Ref :: IsPrivate(x) && x != Anchor(LocalAnchor, run, false) ==>
              s.w.wt.Get(x) == old(s.w).wt.Get(x)
    ensures Smooth(old(s.script)) && ReadyAt(s.dag, old(s.w), branch, local) && preserved in old(s.w).wt.objects
              && Contained(s.dag, s.script.rest.pick, local, preserved) ==>
              why == LocalAnchored(old(s.w).wt, run, local)
  {
    hide Session.Valid, Quiet, Awake, Calm, Sighted, Smooth, Blind, Undisturbed, NothingMissing, LocalAnchored,
         Contained, World.Clean;
    s.Levels();
    UndisturbedByItself(s.w);
    s.Inside(local, local);
    pin := Anchor(LocalAnchor, run, false);
    var same := StillAsSeen(s, branch, local);
    if !same { return Some(AssumptionsChanged(true)), pin; }
    var contained := ContainsLocalWork(s, local, preserved);
    if !contained { return Some(AssumptionsChanged(true)), pin; }
    MissingNothingExists(s.dag, local, preserved);
    why, pin := AnchorLocal(s, run, local);
  }

  lemma MissingNothingExists(dag: Dag, local: Sha, preserved: Sha)
    requires NothingMissing(dag, local, preserved)
    ensures {local, preserved} <= dag.trees.Keys
  {
  }

  // ----- the decision matrix -----

  /**
   * The local head has not reached the recorded one: fast-forward if it is behind,
   * adopt what provably has all its changes.
   */
  function MoveAnswer(dag: Dag, wt: Repo, pick: Sha, run: Run, local: Sha, clean: bool): Answer {
    if dag.Contains(run.head, local) then if clean then HeadFollows else Refuses(DirtyWorktree)
    else if !Contained(dag, pick, local, run.head) then Refuses(Diverged)
    else if !clean then Refuses(DirtyWorktree)
    else match LocalAnchored(wt, run.id, local)
      case Some(why) => Refuses(why)
      case None => HeadFollows
  }

  lemma ReadyForwards(dag: Dag, w: World, branch: nat, local: Sha, to: Sha)
    requires dag.Valid() && w.Valid(dag)
    ensures ReadyAt(dag, w, branch, local) && to in w.wt.objects && dag.Contains(to, local)
              && !dag.Contains(local, to) ==>
              CanFastForward(dag, w, to)
  {
  }

  lemma PinnedIsThere(s: Session, run: Run, branch: nat, local: Sha, pin: Ref)
    requires s.Valid() && PinsHead(s.w.wt, run, pin)
    ensures run.head in s.w.wt.objects && (s.w.HeadCommit() == Some(local) ==> local in s.w.wt.objects)
    ensures ReadyAt(s.dag, s.w, branch, local) && s.dag.Contains(run.head, local)
              && !s.dag.Contains(local, run.head) ==>
              CanFastForward(s.dag, s.w, run.head)
  {
    s.WorldIsValid();
    ReadyForwards(s.dag, s.w, branch, local, run.head);
  }

  lemma MoveFollows(dag: Dag, a: World, b: World, run: Run, branch: nat, local: Sha, r: Report)
    requires MoveOutcome(dag, a, b, run, r)
    ensures Done(b, run, r) ==> Follows(dag, HeadFollows, a, b, run, branch, local, r)
    ensures r.Refused? ==> Follows(dag, Refuses(r.why), a, b, run, branch, local, r)
  {
  }

  /** The local head has not reached the recorded head: fast-forward to it, adopt it, or refuse. */
  method MoveOnto(s: Session, run: Run, branch: nat, local: Sha, clean: bool, ghost pin: Ref) returns (r: Report)
    requires s.Valid() && Aimed(s, run)
    requires PinsHead(s.w.wt, run, pin)
    modifies s
    ensures s.Ahead() && Concluded(s.call, run, r) && s.call.gateMove.None?
    ensures s.call.moving ==> clean && (s.dag.Contains(run.head, local) || NothingMissing(s.dag, local, run.head))
    ensures s.Alone() ==> MoveOutcome(s.dag, old(s.w), s.w, run, r)
    ensures Calm(old(s.script)) && r.Recovered? ==> Tells(s.dag, s.hasGate, s.w, run, r.facts)
    ensures Smooth(old(s.script)) && At(s.dag, old(s.w), branch, local, clean) && !s.dag.Contains(local, run.head) ==>
              Follows(s.dag, MoveAnswer(s.dag, old(s.w).wt, s.script.rest.pick, run, local, clean), old(s.w), s.w, run,
                  branch,
                local, r)
  {
    hide Session.Valid, Quiet, Awake, Calm, Sighted, Smooth, Blind, Undisturbed, Tells, Stamped, NothingMissing,
         World.Clean, World.HeadCommit, Contained, LocalAnchored, Done, CanFastForward, Follows, MoveOutcome;
    s.Levels();
    PinnedIsThere(s, run, branch, local, pin);
    UndisturbedByItself(s.w);
    var behind := s.IsAncestor(local, run.head);
    if behind {
      if clean { r := FastForward(s, run, branch, local, pin); } else { r := Refused(DirtyWorktree); }
    } else {
      var contained := ContainsLocalWork(s, local, run.head);
      if !contained { r := Refused(Diverged); }
      else if !clean { r := Refused(DirtyWorktree); }
      else { r := Adopt(s, run, branch, local, pin); }
    }
    if r in {Refused(DirtyWorktree), Refused(Diverged)}
        && s.w == old(s.w) { MoveRefused(s.dag, old(s.w), s.w, run, r); }
    if s.Alone() { MoveFollows(s.dag, old(s.w), s.w, run, branch, local, r); }
  }

  /** HEAD moved onto the recorded head and the run was stamped, or a refusal left all in place. */
  lemma MovedOutcome(dag: Dag, hasGate: bool, a: World, b: World, run: Run, branch: nat, local: Sha, r: Report)
    requires MoveOutcome(dag, a, b, run, r)
    ensures QuietOutcome(dag, a, b, run, r)
    ensures LocalHead(a) == Some(local) && (r.Recovered? ==> Tells(dag, hasGate, b, run, r.facts)) ==>
              CalmOutcome(dag, hasGate, a, b, run, branch, r)
  {
    hide Stamped, Tells, Names;
  }

  /** The recorded head is anchored; choose by its relation to the local head. */
  method ByRelation(s: Session, run: Run, branch: nat, local: Sha, clean: bool, gateHead: Sha, keepLocal: bool,
      ghost pin: Ref) returns (r: Report)
    requires s.Valid() && Aimed(s, run)
    requires local in s.dag.history && gateHead != NO_SHA
    requires PinsHead(s.w.wt, run, pin)
    modifies s
    ensures s.Ahead() && Concluded(s.call, run, r) && (s.call.gateMove.Some? ==> keepLocal)
    ensures s.call.moving ==>
              !keepLocal && clean && (s.dag.Contains(run.head, local) || NothingMissing(s.dag, local, run.head))
    ensures s.Alone() && LocalHead(old(s.w)) == Some(local) ==> QuietOutcome(s.dag, old(s.w), s.w, run, r)
    ensures s.Alone() ==> forall k :: CutAt(s, k) ==>
              GateCut(old(s.w), Moment(s.entry, s.log, k), run.id, branch, local)
    ensures Calm(old(s.script)) && Names(Alias(old(s.w).wt, RecoverAnchor, run.id), run.head)
              && LocalHead(old(s.w)) == Some(local) && old(s.w).gate.Get(Branch(branch)) == Some(gateHead) ==>
              CalmOutcome(s.dag, s.hasGate, old(s.w), s.w, run, branch, r)
    ensures Smooth(old(s.script)) && keepLocal && gateHead == local ==> Completed(old(s.w), s.w, run, r)
    ensures Smooth(old(s.script)) && keepLocal && gateHead == run.head
              && SwapReady(s.dag, old(s.w), run.id, branch, local, run.head) ==>
              SwapCut(s, old(s.w), run.id, branch, local)
    ensures Smooth(old(s.script)) && s.hasGate && At(s.dag, old(s.w), branch, local, clean)
              && !s.dag.Contains(local, run.head)
              && old(s.w).gate.Get(Branch(branch)) == Some(gateHead) ==>
              Follows(s.dag,
                if keepLocal then KeepAnswer(s.dag, old(s.w).wt, run.id, local, gateHead)
                else MoveAnswer(s.dag, old(s.w).wt, s.script.rest.pick, run, local, clean),
                old(s.w), s.w, run, branch, local, r)
  {
    hide Session.Valid, Quiet, Awake, Calm, Sighted, Smooth, Blind, QuietOutcome, CalmOutcome, Undisturbed, Stamped,
         Tells, Carries, GateCut, NothingMissing, SwapCut, Completed, Follows, KeepAnswer, MoveAnswer, World.Clean;
    s.Levels();
    s.SelfContained(local);
    var reached := local == run.head;
    if !reached { reached := s.IsAncestor(run.head, local); }
    if reached {
      r := Finish(s, run, false);
      if s.Alone() { FinishOutcome(s.dag, s.hasGate, old(s.w), s.w, run, branch, r); }
    } else if keepLocal {
      var _ := s.IsAncestor(local, run.head);
      r := KeepLocal(s, run, branch, local, gateHead);
    } else {
      r := MoveOnto(s, run, branch, local, clean, pin);
      if s.Alone() { MovedOutcome(s.dag, s.hasGate, old(s.w), s.w, run, branch, local, r); }
    }
  }

  lemma OutcomeAfter(dag: Dag, a: World, m: World, b: World, run: Run, r: Report)
    requires Undisturbed(a, m) && m.runs == a.runs
    requires QuietOutcome(dag, m, b, run, r)
    ensures QuietOutcome(dag, a, b, run, r)
  {
    hide Stamped;
    if r.Refused? && BeforeAnyMove(r.why) { UndisturbedChains(a, m, b); }
  }

  lemma CalmAfter(dag: Dag, hasGate: bool, a: World, m: World, b: World, run: Run, branch: nat, r: Report)
    requires Undisturbed(a, m)
    requires CalmOutcome(dag, hasGate, m, b, run, branch, r)
    ensures CalmOutcome(dag, hasGate, a, b, run, branch, r)
  {
  }

  /**
   * The world a keep-local recovery leaves if it is cut short after the gate
   * moved: the recorded head is anchored, unless the gate was frozen at the
   * submitted head.
   */
  ghost predicate Cut(a: World, runs: seq<Run>, c: World, run: Run, branch: nat, local: Sha) {
    && OnlyGateMoved(a, c, branch, local) && c.runs == runs
    && a.gate.Get(Branch(branch)).Some? && a.gate.Get(Branch(branch)) != Some(local)
    && Alias(c.wt, LocalAnchor, run.id) == Alias(a.wt, LocalAnchor, run.id)
    && (Names(Alias(c.wt, RecoverAnchor, run.id), run.head) || run.submitted == a.gate.Get(Branch(branch)))
  }

  lemma CutAfter(a: World, m: World, c: World, run: Run, branch: nat, local: Sha)
    requires Undisturbed(a, m) && m.runs == a.runs && GateCut(m, c, run.id, branch, local)
    requires Alias(m.wt, LocalAnchor, run.id) == Alias(a.wt, LocalAnchor, run.id)
    requires Names(Alias(m.wt, RecoverAnchor, run.id), run.head) || run.submitted == a.gate.Get(Branch(branch))
    ensures Cut(a, a.runs, c, run, branch, local)
  {
  }

  /** What the lookup of the recovery anchor said is so. */
  predicate AsRead(w: World, run: Run, anchored: bool) {
    if anchored then Names(Alias(w.wt, RecoverAnchor, run.id), run.head) else Alias(w.wt, RecoverAnchor, run.id).Absent?
  }

  /** Rescue the recorded head of a frozen gate if it survives anywhere. */
  method RescueStranded(s: Session, run: Run, anchored: bool) returns (why: Option<Refusal>)
    requires s.Valid() && Writes(s, run.id)
    modifies s
    ensures s.Grown() && s.call == old(s.call)
    ensures anchored || Free(old(s.w).wt, RecoverAnchor, run.id) ==> s.overwrites == old(s.overwrites)
    ensures anchored ==> why.None? && s.w == old(s.w) && s.script == old(s.script) && s.log == old(s.log)
    ensures why.Some? ==> why.value in {AliasConflict(false), PreserveFailed}
    ensures s.Alone() ==> Undisturbed(old(s.w), s.w) && s.w.runs == old(s.w.runs)
    ensures Calm(old(s.script)) && AsRead(old(s.w), run, anchored) && s.hasGate && why.None? ==>
              PreservedIsSafe(s.dag, s.w, run)
    ensures forall x: Ref :: IsPrivate(x) && x != Anchor(RecoverAnchor, run.id, false) ==>
              s.w.wt.Get(x) == old(s.w).wt.Get(x)
    ensures Smooth(old(s.script)) && AsRead(old(s.w), run, anchored) && s.hasGate ==>
              && why.None?
              && (Alias(s.w.wt, RecoverAnchor, run.id).Absent? || Names(Alias(s.w.wt, RecoverAnchor, run.id), run.head))
  {
    hide Session.Valid, Quiet, Awake, Calm, Sighted, Smooth, Blind, Undisturbed;
    s.Levels();
    UndisturbedByItself(s.w);
    why := None;
    if !anchored { why := AnchorStranded(s, run.id, run.head); }
  }

  /** The gate is frozen at the submitted head: the pipeline adopted nothing, so rescue what survives. */
  method FrozenRow(s: Session, run: Run, branch: nat, local: Sha, gateHead: Sha, keepLocal: bool, anchored: bool)
      returns (r: Report)
    requires s.Valid() && s.hasGate && Aimed(s, run)
    requires local in s.dag.history && gateHead != NO_SHA && run.submitted == Some(gateHead)
    modifies s
    ensures s.SameCall() && (anchored || Free(old(s.w).wt, RecoverAnchor, run.id) ==> s.Tidy())
    ensures Concluded(s.call, run, r) && !s.call.moving && (s.call.gateMove.Some? ==> keepLocal)
    ensures s.Alone() && LocalHead(old(s.w)) == Some(local) ==> QuietOutcome(s.dag, old(s.w), s.w, run, r)
    ensures s.Alone() && old(s.w).gate.Get(Branch(branch)) == Some(gateHead) ==>
              forall k :: CutAt(s, k) ==> Cut(old(s.w), old(s.w.runs), Moment(s.entry, s.log, k), run, branch, local)
    ensures Calm(old(s.script)) && AsRead(old(s.w), run, anchored)
              && LocalHead(old(s.w)) == Some(local) && old(s.w).gate.Get(Branch(branch)) == Some(gateHead) ==>
              CalmOutcome(s.dag, s.hasGate, old(s.w), s.w, run, branch, r)
    ensures Smooth(old(s.script)) && keepLocal && anchored && gateHead == local ==> Completed(old(s.w), s.w, run, r)
    ensures Smooth(old(s.script)) && AsRead(old(s.w), run, anchored) && CheckedOut(old(s.w), branch, local)
              && old(s.w).gate.Get(Branch(branch)) == Some(gateHead) && gateHead != run.head ==>
              Follows(s.dag, FrozenAnswer(s.dag, old(s.w).wt, run.id, local, gateHead, keepLocal), old(s.w), s.w, run,
                  branch,
                local, r)
  {
    hide Session.Valid, Quiet, Awake, Calm, Sighted, Smooth, Blind, PreservedIsSafe, Undisturbed, QuietOutcome,
         CalmOutcome, Stamped, GateCut, Cut, Names, Completed, AsRead, Follows,
         FrozenAnswer, CheckedOut, Alias, LocalHead;
    s.Levels();
    UndisturbedByItself(s.w);
    var why := RescueStranded(s, run, anchored);
    if why.Some? {
      r := Refused(why.value);
      if s.Alone() { RefusedOutcome(s.dag, s.hasGate, old(s.w), s.w, run, branch, r); }
    } else {
      ghost var m := s.w;
      RescueKeepsAnswer(s.dag, old(s.w), m, run, local, gateHead, keepLocal, anchored);
      if s.Alone() {
        SameLocal(old(s.w), m, branch);
        SameCheckedOut(old(s.w), m, branch, local);
      }
      r := ReturnFrozen(s, run, branch, local, gateHead, keepLocal);
      if s.Alone() && LocalHead(old(s.w)) == Some(local) {
        OutcomeAfter(s.dag, old(s.w), m, s.w, run, r);
      }
      if Smooth(old(s.script)) && AsRead(old(s.w), run, anchored) && CheckedOut(old(s.w), branch, local)
         && old(s.w).gate.Get(Branch(branch)) == Some(gateHead) && gateHead != run.head {
        FollowsAfter(s.dag, FrozenAnswer(s.dag, m.wt, run.id, local, gateHead, keepLocal), old(s.w), m, s.w, run,
            branch, local,
          r);
      }
      if Calm(old(s.script)) && AsRead(old(s.w), run, anchored)
         && LocalHead(old(s.w)) == Some(local) && old(s.w).gate.Get(Branch(branch)) == Some(gateHead) {
        CalmAfter(s.dag, s.hasGate, old(s.w), m, s.w, run, branch, r);
      }
      if s.Alone() && old(s.w).gate.Get(Branch(branch)) == Some(gateHead) {
        forall k | CutAt(s, k)
          ensures Cut(old(s.w), old(s.w.runs), Moment(s.entry, s.log, k), run, branch, local)
        {
          CutAfter(old(s.w), m, Moment(s.entry, s.log, k), run, branch, local);
        }
      }
    }
  }

  lemma SameCheckedOut(a: World, b: World, branch: nat, local: Sha)
    requires Undisturbed(a, b)
    ensures CheckedOut(a, branch, local) <==> CheckedOut(b, branch, local)
  {
  }

  /** Rescuing the recorded head changes nothing about the answer, which is about another commit. */
  lemma RescueKeepsAnswer(dag: Dag, a: World, m: World, run: Run, local: Sha, gateHead: Sha, keepLocal: bool,
      anchored: bool)
    requires forall x: Ref :: IsPrivate(x) && x != Anchor(RecoverAnchor, run.id, false) ==> m.wt.Get(x) == a.wt.Get(x)
    ensures Alias(m.wt, LocalAnchor, run.id) == Alias(a.wt, LocalAnchor, run.id)
    ensures AsRead(a, run, anchored) && gateHead != run.head
            && (Alias(m.wt, RecoverAnchor, run.id).Absent? || Names(Alias(m.wt, RecoverAnchor, run.id), run.head)) ==>
              FrozenAnswer(dag, m.wt, run.id, local, gateHead, keepLocal)
                  == FrozenAnswer(dag, a.wt, run.id, local, gateHead, keepLocal)
  {
  }

  lemma SameLocal(a: World, b: World, branch: nat)
    requires Undisturbed(a, b)
    ensures LocalHead(b) == LocalHead(a) && b.gate.Get(Branch(branch)) == a.gate.Get(Branch(branch))
  {
  }

  /** The pipeline adopted nothing: the local head is kept, or is returned where it contains the frozen one. */
  function FrozenAnswer(dag: Dag, wt: Repo, run: nat, local: Sha, gateHead: Sha, keepLocal: bool): Answer {
    if keepLocal then KeepAnswer(dag, wt, run, local, gateHead)
    else if dag.Contains(local, gateHead) then StaysHere
    else Refuses(GateDiverged)
  }

  method ReturnFrozen(s: Session, run: Run, branch: nat, local: Sha, gateHead: Sha, keepLocal: bool) returns (r: Report)
    requires s.Valid() && Aimed(s, run)
    requires local in s.dag.history && gateHead != NO_SHA
    modifies s
    ensures s.Ahead() && Concluded(s.call, run, r) && !s.call.moving && (s.call.gateMove.Some? ==> keepLocal)
    ensures s.Alone() && LocalHead(old(s.w)) == Some(local) ==> QuietOutcome(s.dag, old(s.w), s.w, run, r)
    ensures s.Alone() ==> forall k :: CutAt(s, k) ==>
              GateCut(old(s.w), Moment(s.entry, s.log, k), run.id, branch, local)
    ensures Calm(old(s.script)) && LocalHead(old(s.w)) == Some(local)
              && old(s.w).gate.Get(Branch(branch)) == Some(gateHead) && PreservedIsSafe(s.dag, old(s.w), run) ==>
              CalmOutcome(s.dag, s.hasGate, old(s.w), s.w, run, branch, r)
    ensures r.Recovered? ==> !r.changed
    ensures Smooth(old(s.script)) && keepLocal && gateHead == local ==> Completed(old(s.w), s.w, run, r)
    ensures Smooth(old(s.script)) && s.hasGate && CheckedOut(old(s.w), branch, local)
              && old(s.w).gate.Get(Branch(branch)) == Some(gateHead) ==>
              Follows(s.dag, FrozenAnswer(s.dag, old(s.w).wt, run.id, local, gateHead, keepLocal), old(s.w), s.w, run,
                  branch,
                local, r)
  {
    hide Session.Valid, Quiet, Awake, Calm, Sighted, Smooth, Blind, QuietOutcome, CalmOutcome, Undisturbed, Stamped,
         Tells, Carries, GateCut, Completed, Follows, KeepAnswer, World.HeadCommit;
    s.Levels();
    UndisturbedByItself(s.w);
    s.SelfContained(local);
    CheckedOutIsThere(s, branch, local);
    if keepLocal {
      r := KeepLocal(s, run, branch, local, gateHead);
    } else {
      var contains := local == gateHead;
      if !contains { contains := s.IsAncestor(gateHead, local); }
      if contains {
        r := Finish(s, run, false);
        StayFollows(s.dag, old(s.w), s.w, run, branch, local, r);
        if s.Alone() { FinishOutcome(s.dag, s.hasGate, old(s.w), s.w, run, branch, r); }
      } else {
        r := Refused(GateDiverged);
        RefuseFollows(s.dag, old(s.w), s.w, run, branch, local, GateDiverged);
        if s.Alone() { RefusedOutcome(s.dag, s.hasGate, old(s.w), s.w, run, branch, r); }
      }
    }
  }

  /** The gate branch is at the kept head, which does not contain the recorded one. */
  predicate GateAtLocal(dag: Dag, hasGate: bool, w: World, run: Run, branch: nat, local: Sha) {
    && hasGate && w.gate.Get(Branch(branch)) == Some(local)
    && !dag.Contains(local, run.head)
    && !Alias(w.wt, LocalAnchor, run.id).Conflict?
  }

  lemma GateAtLocalHasGate(dag: Dag, hasGate: bool, w: World, run: Run, branch: nat, local: Sha)
    requires GateAtLocal(dag, hasGate, w, run, branch, local)
    ensures hasGate
  {
  }

  /** What such a world must show for a keep-local recovery to complete. */
  predicate Resumable(w: World, run: Run, local: Sha) {
    Names(Alias(w.wt, RecoverAnchor, run.id), run.head) && (run.verified || run.submitted == Some(local))
  }

  /**
   * The gate branch was read: it is frozen at the submitted head, elsewhere, at the
   * recorded head or already at the kept one.
   */
  function ReadAnswer(dag: Dag, wt: Repo, pick: Sha, run: Run, local: Sha, clean: bool, gateHead: Sha,
      keepLocal: bool): Answer {
    if run.submitted == Some(gateHead) && gateHead != run.head
        then FrozenAnswer(dag, wt, run.id, local, gateHead, keepLocal)
    else if gateHead == run.head || (keepLocal && gateHead == local && Alias(wt, RecoverAnchor, run.id).Found?) then
      AnchorAnswer(dag, wt, pick, run, local, clean, gateHead, keepLocal)
    else Refuses(GateDiverged)
  }

  /** The branch does not contain the recorded head: the gate must be there, and no anchor in the way. */
  function GateAnswer(dag: Dag, hasGate: bool, w: World, pick: Sha, run: Run, branch: nat, local: Sha, clean: bool,
      keepLocal: bool): Answer
  {
    if !hasGate then Refuses(GateUnavailable)
    else match w.gate.Get(Branch(branch))
      case None => Refuses(GateUnavailable)
      case Some(gateHead) =>
        match RecoverAnchored(w.wt, run.id, run.head)
        case Some(why) => Refuses(why)
        case None => ReadAnswer(dag, w.wt, pick, run, local, clean, gateHead, keepLocal)
  }

  /**
   * The whole decision for a run with its head settled, by what the world is when
   * the call begins. An unfinished adoption comes first; a branch that contains the
   * recorded head is returned as it is; else the gate decides.
   */
  function Matrix(dag: Dag, hasGate: bool, w: World, pick: Sha, run: Run, branch: nat, local: Sha, clean: bool,
      keepLocal: bool): Answer
  {
    match Alias(w.wt, LocalAnchor, run.id)
    case Conflict => Refuses(AliasConflict(false))
    case Found(_, sha) =>
      if sha != run.head && local == run.head && !clean then Refuses(IncompleteAdoption)
      else ReachAnswer(dag, hasGate, w, pick, run, branch, local, clean, keepLocal)
    case Absent => ReachAnswer(dag, hasGate, w, pick, run, branch, local, clean, keepLocal)
  }

  function ReachAnswer(dag: Dag, hasGate: bool, w: World, pick: Sha, run: Run, branch: nat, local: Sha, clean: bool,
      keepLocal: bool): Answer
  {
    if dag.Contains(local, run.head) then
      match RecoverAnchored(w.wt, run.id, run.head) { case Some(why) => Refuses(why) case None => StaysHere }
    else GateAnswer(dag, hasGate, w, pick, run, branch, local, clean, keepLocal)
  }

  /** Anchor the recorded head from the gate branch that still carries it, then choose by relation. */
  method FromGate(s: Session, run: Run, branch: nat, local: Sha, clean: bool, keepLocal: bool) returns (r: Report)
    requires s.Valid() && Aimed(s, run)
    requires local in s.dag.history
    modifies s
    ensures s.Ahead() && Concluded(s.call, run, r) && (s.call.gateMove.Some? ==> keepLocal && s.hasGate)
    ensures s.call.moving ==>
              !keepLocal && clean && (s.dag.Contains(run.head, local) || NothingMissing(s.dag, local, run.head))
    ensures s.Alone() && LocalHead(old(s.w)) == Some(local) ==> QuietOutcome(s.dag, old(s.w), s.w, run, r)
    ensures Calm(old(s.script)) ==> forall k :: CutAt(s, k) ==>
              Cut(old(s.w), old(s.w.runs), Moment(s.entry, s.log, k), run, branch, local)
    ensures Calm(old(s.script)) && LocalHead(old(s.w)) == Some(local) ==>
              CalmOutcome(s.dag, s.hasGate, old(s.w), s.w, run, branch, r)
    ensures Calm(old(s.script)) && GateAtLocal(s.dag, s.hasGate, old(s.w), run, branch, local)
              && run.submitted != Some(local) && !Names(Alias(old(s.w).wt, RecoverAnchor, run.id), run.head) ==>
              !Settles(r)
    ensures Smooth(old(s.script)) && keepLocal && GateAtLocal(s.dag, s.hasGate, old(s.w), run, branch, local)
              && Names(Alias(old(s.w).wt, RecoverAnchor, run.id), run.head) ==>
              Completed(old(s.w), s.w, run, r)
    ensures Smooth(old(s.script)) && keepLocal && s.hasGate
              && SwapReady(s.dag, old(s.w), run.id, branch, local, run.head) ==>
              SwapCut(s, old(s.w), run.id, branch, local)
    ensures Smooth(old(s.script)) && At(s.dag, old(s.w), branch, local, clean) && !s.dag.Contains(local, run.head) ==>
              Follows(s.dag,
                  GateAnswer(s.dag, s.hasGate, old(s.w), s.script.rest.pick, run, branch, local, clean, keepLocal),
                old(s.w), s.w, run, branch, local, r)
  {
    hide Session.Valid, Quiet, Awake, Calm, Sighted, Smooth, Blind, QuietOutcome, CalmOutcome, Undisturbed, Stamped,
         GateCut, Cut, NothingMissing, Completed, SwapCut, Follows, ReadAnswer, At, World.Clean;
    s.Levels();
    s.SelfContained(local);
    UndisturbedByItself(s.w);
    var gateHead := s.GateHead(branch);
    var alias := Absent;
    if gateHead.Some? { alias := s.ReadAlias(RecoverAnchor, run.id); }
    if s.Alone() {
      forall x: Refusal | !Settles(Refused(x))
        ensures QuietOutcome(s.dag, old(s.w), s.w, run, Refused(x))
        ensures CalmOutcome(s.dag, s.hasGate, old(s.w), s.w, run, branch, Refused(x))
      {
        RefusedOutcome(s.dag, s.hasGate, old(s.w), s.w, run, branch, Refused(x));
      }
    }
    forall why ensures Follows(s.dag, Refuses(why), old(s.w), s.w, run, branch, local, Refused(why)) {
      RefuseFollows(s.dag, old(s.w), s.w, run, branch, local, why);
    }
    if gateHead.None? { return Refused(GateUnavailable); }
    var anchored := false;
    ghost var pin := Anchor(RecoverAnchor, run.id, false);
    match alias {
      case Conflict => return Refused(AliasConflict(false));
      case Absent =>
      case Found(ref, sha) =>
        if sha != run.head { return Refused(PreserveFailed); }
        anchored := true;
        pin := ref;
    }
    r := FromRead(s, run, branch, local, clean, gateHead.value, keepLocal, anchored, pin);
  }

  /**
   * The gate branch and the recovery anchor were read: the gate is frozen, resumed,
   * elsewhere or at the recorded head.
   */
  method FromRead(s: Session, run: Run, branch: nat, local: Sha, clean: bool, gateHead: Sha, keepLocal: bool,
      anchored: bool, ghost pin: Ref) returns (r: Report)
    requires s.Valid() && Aimed(s, run) && s.hasGate
    requires local in s.dag.history && gateHead != NO_SHA && (anchored ==> PinsHead(s.w.wt, run, pin))
    modifies s
    ensures s.SameCall() && (anchored || Free(old(s.w).wt, RecoverAnchor, run.id) ==> s.Tidy())
    ensures Concluded(s.call, run, r) && (s.call.gateMove.Some? ==> keepLocal)
    ensures s.call.moving ==>
              !keepLocal && clean && (s.dag.Contains(run.head, local) || NothingMissing(s.dag, local, run.head))
    ensures s.Alone() && LocalHead(old(s.w)) == Some(local) ==> QuietOutcome(s.dag, old(s.w), s.w, run, r)
    ensures Calm(old(s.script)) && AsRead(old(s.w), run, anchored)
              && old(s.w).gate.Get(Branch(branch)) == Some(gateHead) ==>
              && (forall k :: CutAt(s, k) ==>
                   Cut(old(s.w), old(s.w.runs), Moment(s.entry, s.log, k), run, branch, local))
              && (LocalHead(old(s.w)) == Some(local) ==> CalmOutcome(s.dag, s.hasGate, old(s.w), s.w, run, branch, r))
    ensures gateHead == local && local != run.head && !anchored && run.submitted != Some(local) ==>
              r == Refused(GateDiverged)
    ensures Smooth(old(s.script)) && keepLocal && anchored && gateHead == local && local != run.head ==>
              Completed(old(s.w), s.w, run, r)
    ensures Smooth(old(s.script)) && keepLocal && anchored && gateHead == run.head
              && SwapReady(s.dag, old(s.w), run.id, branch, local, run.head) ==>
              SwapCut(s, old(s.w), run.id, branch, local)
    ensures Smooth(old(s.script)) && AsRead(old(s.w), run, anchored) && At(s.dag, old(s.w), branch, local, clean)
              && !s.dag.Contains(local, run.head) && old(s.w).gate.Get(Branch(branch)) == Some(gateHead) ==>
              Follows(s.dag, ReadAnswer(s.dag, old(s.w).wt, s.script.rest.pick, run, local, clean, gateHead, keepLocal),
                  old(s.w),
                s.w, run, branch, local, r)
  {
    hide Session.Valid, Quiet, Awake, Calm, Sighted, Smooth, Blind, QuietOutcome, CalmOutcome, Undisturbed, Stamped,
         GateCut, Cut, NothingMissing, Completed, SwapCut, SwapReady, AsRead, Follows, FrozenAnswer, AnchorAnswer,
             CheckedOut, At;
    s.Levels();
    UndisturbedByItself(s.w);
    AtIsCheckedOut(s.dag, s.w, branch, local, clean);
    ReadIsFound(s.w, run, anchored);
    if run.submitted == Some(gateHead) && gateHead != run.head {
      r := FrozenRow(s, run, branch, local, gateHead, keepLocal, anchored);
    } else if gateHead != run.head && !(keepLocal && anchored && gateHead == local) {
      r := Refused(GateDiverged);
      RefuseFollows(s.dag, old(s.w), s.w, run, branch, local, GateDiverged);
      RefusedOutcome(s.dag, s.hasGate, old(s.w), s.w, run, branch, r);
    } else {
      r := FromAnchor(s, run, branch, local, clean, gateHead, keepLocal, anchored, pin);
    }
  }

  /** The recorded head anchored: the kept head stays or the gate follows it; without keeping, HEAD may follow. */
  function AnchorAnswer(dag: Dag, wt: Repo, pick: Sha, run: Run, local: Sha, clean: bool, gateHead: Sha,
      keepLocal: bool): Answer {
    if !keepLocal then MoveAnswer(dag, wt, pick, run, local, clean)
    else if gateHead == local then StaysHere
    else GateFollows
  }

  lemma AnchoredAnswer(dag: Dag, a: World, m: World, pick: Sha, run: Run, branch: nat, local: Sha, clean: bool,
      gateHead: Sha,
      keepLocal: bool)
    requires forall x: Ref :: IsPrivate(x) && x != Anchor(RecoverAnchor, run.id, false) ==> m.wt.Get(x) == a.wt.Get(x)
    requires Names(Alias(m.wt, RecoverAnchor, run.id), run.head) && gateHead in {run.head, local}
    ensures (if keepLocal then KeepAnswer(dag, m.wt, run.id, local, gateHead)
              else MoveAnswer(dag, m.wt, pick, run, local, clean))
            == if keepLocal && gateHead != local && dag.Contains(local, gateHead) then GateFollows
               else AnchorAnswer(dag, a.wt, pick, run, local, clean, gateHead, keepLocal)
    ensures Undisturbed(a, m) ==> (At(dag, a, branch, local, clean) <==> At(dag, m, branch, local, clean))
  {
    hide Contained;
  }

  lemma AtIsCheckedOut(dag: Dag, w: World, branch: nat, local: Sha, clean: bool)
    ensures At(dag, w, branch, local, clean) ==> CheckedOut(w, branch, local)
  {
  }

  lemma ReadIsFound(w: World, run: Run, anchored: bool)
    ensures AsRead(w, run, anchored) ==> (anchored <==> Alias(w.wt, RecoverAnchor, run.id).Found?)
  {
  }

  lemma PinIsNamed(a: World, m: World, run: Run, anchored: bool)
    requires AsRead(a, run, anchored)
    requires if anchored then m == a else m.wt.Get(Anchor(RecoverAnchor, run.id, false)) == Some(run.head)
    requires forall x: Ref :: IsPrivate(x) && x != Anchor(RecoverAnchor, run.id, false) ==> m.wt.Get(x) == a.wt.Get(x)
    ensures Names(Alias(m.wt, RecoverAnchor, run.id), run.head)
              && Alias(m.wt, LocalAnchor, run.id) == Alias(a.wt, LocalAnchor, run.id)
  {
  }

  /** The recorded head is anchored from the gate branch, unless it is already. */
  method EnsureAnchored(s: Session, run: Run, branch: nat, anchored: bool, ghost pin: Ref)
      returns (ok: bool, ghost at: Ref)
    requires s.Valid() && Aimed(s, run) && (anchored ==> PinsHead(s.w.wt, run, pin))
    modifies s
    ensures s.Grown() && s.call == old(s.call)
    ensures anchored || Free(old(s.w).wt, RecoverAnchor, run.id) ==> s.Tidy()
    ensures s.Alone() ==> Undisturbed(old(s.w), s.w) && s.w.runs == old(s.w.runs)
    ensures ok ==> PinsHead(s.w.wt, run, at)
    ensures anchored ==> ok && at == pin && s.w == old(s.w) && s.script == old(s.script) && s.log == old(s.log)
    ensures Calm(old(s.script)) && ok && AsRead(old(s.w), run, anchored) ==>
              && Names(Alias(s.w.wt, RecoverAnchor, run.id), run.head)
              && Alias(s.w.wt, LocalAnchor, run.id) == Alias(old(s.w).wt, LocalAnchor, run.id)
    ensures Smooth(old(s.script)) && (anchored || old(s.w).gate.Get(Branch(branch)) == Some(run.head)) ==> ok
    ensures forall x: Ref :: IsPrivate(x) && x != Anchor(RecoverAnchor, run.id, false) ==>
              s.w.wt.Get(x) == old(s.w).wt.Get(x)
  {
    hide Session.Valid, Quiet, Awake, Calm, Sighted, Smooth, Blind, Undisturbed, AsRead, Names, Alias;
    s.Levels();
    UndisturbedByItself(s.w);
    ok, at := true, pin;
    if !anchored {
      ok := AnchorFromGate(s, run, branch);
      at := Anchor(RecoverAnchor, run.id, false);
    }
    if ok && AsRead(old(s.w), run, anchored) { PinIsNamed(old(s.w), s.w, run, anchored); }
  }

  /** Anchor the recorded head unless it is, then choose by its relation to the local head. */
  method FromAnchor(s: Session, run: Run, branch: nat, local: Sha, clean: bool, gateHead: Sha, keepLocal: bool,
      anchored: bool, ghost pin: Ref) returns (r: Report)
    requires s.Valid() && Aimed(s, run)
    requires local in s.dag.history && gateHead != NO_SHA && (anchored ==> PinsHead(s.w.wt, run, pin))
    modifies s
    ensures s.SameCall() && (anchored || Free(old(s.w).wt, RecoverAnchor, run.id) ==> s.Tidy())
    ensures Concluded(s.call, run, r) && (s.call.gateMove.Some? ==> keepLocal)
    ensures s.call.moving ==>
              !keepLocal && clean && (s.dag.Contains(run.head, local) || NothingMissing(s.dag, local, run.head))
    ensures s.Alone() && LocalHead(old(s.w)) == Some(local) ==> QuietOutcome(s.dag, old(s.w), s.w, run, r)
    ensures Calm(old(s.script)) && AsRead(old(s.w), run, anchored) ==>
              forall k :: CutAt(s, k) ==> Cut(old(s.w), old(s.w.runs), Moment(s.entry, s.log, k), run, branch, local)
    ensures Calm(old(s.script)) && AsRead(old(s.w), run, anchored)
              && LocalHead(old(s.w)) == Some(local) && old(s.w).gate.Get(Branch(branch)) == Some(gateHead) ==>
              CalmOutcome(s.dag, s.hasGate, old(s.w), s.w, run, branch, r)
    ensures Smooth(old(s.script)) && keepLocal && anchored && gateHead == local ==> Completed(old(s.w), s.w, run, r)
    ensures Smooth(old(s.script)) && keepLocal && anchored && gateHead == run.head
              && SwapReady(s.dag, old(s.w), run.id, branch, local, run.head) ==>
              SwapCut(s, old(s.w), run.id, branch, local)
    ensures Smooth(old(s.script)) && s.hasGate && AsRead(old(s.w), run, anchored)
              && At(s.dag, old(s.w), branch, local, clean)
              && !s.dag.Contains(local, run.head) && old(s.w).gate.Get(Branch(branch)) == Some(gateHead)
              && (gateHead == run.head || (keepLocal && anchored && gateHead == local)) ==>
              Follows(s.dag,
                  AnchorAnswer(s.dag, old(s.w).wt, s.script.rest.pick, run, local, clean, gateHead, keepLocal),
                old(s.w), s.w, run, branch, local, r)
  {
    hide Session.Valid, Quiet, Awake, Calm, Sighted, Smooth, Blind, QuietOutcome, CalmOutcome, Undisturbed, Stamped,
         GateCut, Cut, NothingMissing, Completed, SwapCut, SwapReady, Follows, KeepAnswer, MoveAnswer, AnchorAnswer, At,
             World.Clean,
         Alias, Names, LocalHead, PinsHead, AsRead, World.HeadCommit, Concluded;
    s.Levels();
    UndisturbedByItself(s.w);
    ghost var at;
    var ok;
    ok, at := EnsureAnchored(s, run, branch, anchored, pin);
    if !ok {
      r := Refused(PreserveFailed);
      NothingConcluded(s, run, r);
      if s.Alone() { RefusedOutcome(s.dag, s.hasGate, old(s.w), s.w, run, branch, r); }
      return;
    }
    ghost var m := s.w;
    ghost var ans := AnchorAnswer(s.dag, old(s.w).wt, s.script.rest.pick, run, local, clean, gateHead, keepLocal);
    if s.Alone() { SameLocal(old(s.w), m, branch); }
    if Calm(old(s.script)) && AsRead(old(s.w), run, anchored) && gateHead in {run.head, local} {
      AnchoredAnswer(s.dag, old(s.w), m, s.script.rest.pick, run, branch, local, clean, gateHead, keepLocal);
    }
    r := ByRelation(s, run, branch, local, clean, gateHead, keepLocal, at);
    if s.Alone() { AfterAnchoring(s, old(s.w), m, run, branch, local, ans, r); }
  }

  lemma AfterAnchoring(s: Session, a: World, m: World, run: Run, branch: nat, local: Sha, ans: Answer, r: Report)
    requires Undisturbed(a, m) && m.runs == a.runs
    ensures QuietOutcome(s.dag, m, s.w, run, r) ==> QuietOutcome(s.dag, a, s.w, run, r)
    ensures CalmOutcome(s.dag, s.hasGate, m, s.w, run, branch, r) ==>
              CalmOutcome(s.dag, s.hasGate, a, s.w, run, branch, r)
    ensures Follows(s.dag, ans, m, s.w, run, branch, local, r) ==> Follows(s.dag, ans, a, s.w, run, branch, local, r)
    ensures Alias(m.wt, LocalAnchor, run.id) == Alias(a.wt, LocalAnchor, run.id)
              && Names(Alias(m.wt, RecoverAnchor, run.id), run.head) ==>
              forall c :: GateCut(m, c, run.id, branch, local) ==> Cut(a, a.runs, c, run, branch, local)
  {
    hide Undisturbed, QuietOutcome, CalmOutcome, Follows, GateCut, Cut, Alias, Names;
    if QuietOutcome(s.dag, m, s.w, run, r) { OutcomeAfter(s.dag, a, m, s.w, run, r); }
    if CalmOutcome(s.dag, s.hasGate, m, s.w, run, branch, r) { CalmAfter(s.dag, s.hasGate, a, m, s.w, run, branch, r); }
    if Follows(s.dag, ans, m, s.w, run, branch, local, r) {
        FollowsAfter(s.dag, ans, a, m, s.w, run, branch, local, r); }
    if Alias(m.wt, LocalAnchor, run.id) == Alias(a.wt, LocalAnchor, run.id)
        && Names(Alias(m.wt, RecoverAnchor, run.id), run.head) {
      forall c | GateCut(m, c, run.id, branch, local)
        ensures Cut(a, a.runs, c, run, branch, local)
      {
        CutAfter(a, m, c, run, branch, local);
      }
    }
  }

  method AnchorFromGate(s: Session, run: Run, branch: nat) returns (ok: bool)
    requires s.Valid() && Writes(s, run.id)
    modifies s
    ensures s.Grown() && s.call == old(s.call)
    ensures Free(old(s.w).wt, RecoverAnchor, run.id) ==> s.overwrites == old(s.overwrites)
    ensures ok ==> s.w.wt.Get(Anchor(RecoverAnchor, run.id, false)) == Some(run.head)
    ensures s.Alone() ==> Undisturbed(old(s.w), s.w) && s.w.runs == old(s.w.runs)
    ensures forall x: Ref :: IsPrivate(x) && x != Anchor(RecoverAnchor, run.id, false) ==>
              s.w.wt.Get(x) == old(s.w).wt.Get(x)
    ensures Smooth(old(s.script)) && old(s.w).gate.Get(Branch(branch)) == Some(run.head) ==> ok
  {
    hide Session.Valid, Quiet, Awake, Calm, Sighted, Smooth, Blind, Undisturbed;
    s.Levels();
    ok := s.FetchGateBranch(branch, RecoverAnchor, run.id);
    if ok {
      var anchored := s.AnchorCommit(RecoverAnchor, run.id);
      ok := anchored == Some(run.head);
    }
  }

  /** Custody is stamped and the recovery anchor names the recorded head, whatever it named before. */
  function BlindlyReturned(w: World, run: Run): World {
    w.(wt := w.wt.Put(Anchor(RecoverAnchor, run.id, false), run.head), runs := Stamped(w.runs, run.id))
  }

  /** Recovery of a run that owns the branch, once its recorded head is settled. */
  method RecoverOwned(s: Session, run: Run, branch: nat, local: Sha, clean: bool, keepLocal: bool) returns (r: Report)
    requires s.Valid() && Aimed(s, run)
    requires local in s.dag.history
    modifies s
    ensures s.Ahead() && Concluded(s.call, run, r)
    ensures s.call.moving ==>
              !keepLocal && clean && (s.dag.Contains(run.head, local) || NothingMissing(s.dag, local, run.head))
    ensures s.Alone() && LocalHead(old(s.w)) == Some(local) ==> QuietOutcome(s.dag, old(s.w), s.w, run, r)
    ensures Calm(old(s.script)) && LocalHead(old(s.w)) == Some(local) ==>
              && CalmOutcome(s.dag, s.hasGate, old(s.w), s.w, run, branch, r)
              && (s.call.gateMove.Some? ==>
                   keepLocal && s.hasGate && !s.dag.Contains(local, run.head)
                   && !Alias(old(s.w).wt, LocalAnchor, run.id).Conflict?)
              && forall k :: CutAt(s, k) ==> Cut(old(s.w), old(s.w.runs), Moment(s.entry, s.log, k), run, branch, local)
    ensures Calm(old(s.script)) && GateAtLocal(s.dag, s.hasGate, old(s.w), run, branch, local)
              && run.submitted != Some(local) && !Names(Alias(old(s.w).wt, RecoverAnchor, run.id), run.head) ==>
              !Settles(r)
    ensures Smooth(old(s.script)) && keepLocal && GateAtLocal(s.dag, s.hasGate, old(s.w), run, branch, local)
              && Names(Alias(old(s.w).wt, RecoverAnchor, run.id), run.head) ==>
              Completed(old(s.w), s.w, run, r)
    ensures Smooth(old(s.script)) && keepLocal && s.hasGate
              && SwapReady(s.dag, old(s.w), run.id, branch, local, run.head)
              && !Alias(old(s.w).wt, LocalAnchor, run.id).Conflict? ==>
              SwapCut(s, old(s.w), run.id, branch, local)
    ensures Blind(old(s.script)) && LocalHead(old(s.w)) == Some(local) && s.dag.Contains(local, run.head) ==>
              r.Recovered? && s.w == BlindlyReturned(old(s.w), run)
    ensures Smooth(old(s.script)) && At(s.dag, old(s.w), branch, local, clean) ==>
              Follows(s.dag,
                  Matrix(s.dag, s.hasGate, old(s.w), s.script.rest.pick, run, branch, local, clean, keepLocal),
                old(s.w), s.w, run, branch, local, r)
  {
    hide Session.Valid, Quiet, Awake, Calm, Sighted, Smooth, Blind, QuietOutcome, CalmOutcome, Undisturbed, Stamped,
         Cut, NothingMissing, Completed, SwapCut, BlindlyReturned, Names, Concluded, Follows, ReachAnswer, At,
             World.Clean;
    s.Levels();
    s.SelfContained(local);
    UndisturbedByItself(s.w);
    var alias := s.ReadAlias(LocalAnchor, run.id);
    var refusal: Option<Refusal> := None;
    match alias {
      case Conflict => refusal := Some(AliasConflict(false));
      case Absent =>
      case Found(_, sha) => if sha != run.head && local == run.head && !clean { refusal := Some(IncompleteAdoption); }
    }
    if refusal.None? {
      r := ByReach(s, run, branch, local, clean, keepLocal);
    } else {
      r := Refused(refusal.value);
      NothingConcluded(s, run, r);
      RefuseFollows(s.dag, old(s.w), s.w, run, branch, local, refusal.value);
      if s.Alone() { RefusedOutcome(s.dag, s.hasGate, old(s.w), s.w, run, branch, r); }
    }
  }

  lemma NothingConcluded(s: Session, run: Run, r: Report)
    requires s.Untouched() && r.Refused? && !Settles(r)
    ensures Concluded(s.call, run, r) && forall k :: !CutAt(s, k)
  {
  }

  /** Return at once if the branch contains the recorded head, else consult the gate. */
  method ByReach(s: Session, run: Run, branch: nat, local: Sha, clean: bool, keepLocal: bool) returns (r: Report)
    requires s.Valid() && Aimed(s, run)
    requires local in s.dag.history
    modifies s
    ensures s.Ahead() && Concluded(s.call, run, r)
    ensures s.call.moving ==>
              !keepLocal && clean && (s.dag.Contains(run.head, local) || NothingMissing(s.dag, local, run.head))
    ensures s.Alone() && LocalHead(old(s.w)) == Some(local) ==> QuietOutcome(s.dag, old(s.w), s.w, run, r)
    ensures Calm(old(s.script)) && LocalHead(old(s.w)) == Some(local) ==>
              && CalmOutcome(s.dag, s.hasGate, old(s.w), s.w, run, branch, r)
              && (s.call.gateMove.Some? ==> keepLocal && s.hasGate && !s.dag.Contains(local, run.head))
              && forall k :: CutAt(s, k) ==> Cut(old(s.w), old(s.w.runs), Moment(s.entry, s.log, k), run, branch, local)
    ensures Calm(old(s.script)) && GateAtLocal(s.dag, s.hasGate, old(s.w), run, branch, local)
              && run.submitted != Some(local) && !Names(Alias(old(s.w).wt, RecoverAnchor, run.id), run.head) ==>
              !Settles(r)
    ensures Smooth(old(s.script)) && keepLocal && GateAtLocal(s.dag, s.hasGate, old(s.w), run, branch, local)
              && Names(Alias(old(s.w).wt, RecoverAnchor, run.id), run.head) ==>
              Completed(old(s.w), s.w, run, r)
    ensures Smooth(old(s.script)) && keepLocal && s.hasGate
              && SwapReady(s.dag, old(s.w), run.id, branch, local, run.head) ==>
              SwapCut(s, old(s.w), run.id, branch, local)
    ensures Blind(old(s.script)) && LocalHead(old(s.w)) == Some(local) && s.dag.Contains(local, run.head) ==>
              r.Recovered? && s.w == BlindlyReturned(old(s.w), run)
    ensures Smooth(old(s.script)) && At(s.dag, old(s.w), branch, local, clean) ==>
              Follows(s.dag,
                  ReachAnswer(s.dag, s.hasGate, old(s.w), s.script.rest.pick, run, branch, local, clean, keepLocal),
                old(s.w), s.w, run, branch, local, r)
  {
    hide Session.Valid, Quiet, Awake, Calm, Sighted, Smooth, Blind, QuietOutcome, CalmOutcome, Undisturbed, Stamped,
         Cut, NothingMissing, Completed, SwapCut, BlindlyReturned, Names, Alias, Concluded, Follows, GateAnswer,
             RecoverAnchored, At, CheckedOut;
    s.Levels();
    s.SelfContained(local);
    s.Inside(local, run.head);
    UndisturbedByItself(s.w);
    AtIsCheckedOut(s.dag, s.w, branch, local, clean);
    CheckedOutIsThere(s, branch, local);
    var reached := s.Has(run.head);
    if reached && local != run.head { reached := s.IsAncestor(run.head, local); }
    if reached {
      r := ReturnReached(s, run, branch, local);
    } else if !s.hasGate {
      r := Refused(GateUnavailable);
      NothingConcluded(s, run, r);
      NoGateRefuses(s.dag, s.hasGate, old(s.w), s.script.rest.pick, run, branch, local, clean, keepLocal);
      RefuseFollows(s.dag, old(s.w), s.w, run, branch, local, GateUnavailable);
      if s.Alone() { RefusedOutcome(s.dag, s.hasGate, old(s.w), s.w, run, branch, r); }
    } else {
      r := FromGate(s, run, branch, local, clean, keepLocal);
    }
  }

  lemma NoGateRefuses(dag: Dag, hasGate: bool, w: World, pick: Sha, run: Run, branch: nat, local: Sha, clean: bool,
      keepLocal: bool)
    requires !hasGate
    ensures GateAnswer(dag, hasGate, w, pick, run, branch, local, clean, keepLocal) == Refuses(GateUnavailable)
  {
  }

  /** The branch already contains the recorded head: pin it and return custody. */
  method ReturnReached(s: Session, run: Run, branch: nat, local: Sha) returns (r: Report)
    requires s.Valid() && Aimed(s, run)
    requires local in s.dag.history
    modifies s
    ensures s.Ahead() && Concluded(s.call, run, r) && !s.call.moving && s.call.gateMove.None?
    ensures s.Alone() && LocalHead(old(s.w)) == Some(local) ==> QuietOutcome(s.dag, old(s.w), s.w, run, r)
    ensures Calm(old(s.script)) && LocalHead(old(s.w)) == Some(local) ==>
              CalmOutcome(s.dag, s.hasGate, old(s.w), s.w, run, branch, r)
    ensures Blind(old(s.script)) && run.head in old(s.w).wt.objects ==>
              r.Recovered? && s.w == BlindlyReturned(old(s.w), run)
    ensures Smooth(old(s.script)) && CheckedOut(old(s.w), branch, local) && run.head in old(s.w).wt.objects ==>
              Follows(s.dag,
                match RecoverAnchored(old(s.w).wt, run.id, run.head) {
                    case Some(why) => Refuses(why) case None => StaysHere },
                old(s.w), s.w, run, branch, local, r)
  {
    hide Session.Valid, Quiet, Awake, Calm, Sighted, Smooth, Blind, QuietOutcome, CalmOutcome, Undisturbed, Stamped,
         Tells, Carries, Follows, RecoverAnchored, Completed, CheckedOut;
    s.Levels();
    var why := AnchorReachable(s, run.id, run.head);
    if why.Some? {
      r := Refused(why.value);
      RefuseFollows(s.dag, old(s.w), s.w, run, branch, local, why.value);
      if s.Alone() { RefusedOutcome(s.dag, s.hasGate, old(s.w), s.w, run, branch, r); }
    } else {
      ghost var m := s.w;
      r := Finish(s, run, false);
      StayFollows(s.dag, m, s.w, run, branch, local, r);
      if s.Alone() {
        if Follows(s.dag, StaysHere, m, s.w, run, branch, local, r) {
          FollowsAfter(s.dag, StaysHere, old(s.w), m, s.w, run, branch, local, r);
        }
        FinishOutcome(s.dag, s.hasGate, m, s.w, run, branch, r);
        OutcomeAfter(s.dag, old(s.w), m, s.w, run, r);
      }
      if Calm(old(s.script)) { CalmAfter(s.dag, s.hasGate, old(s.w), m, s.w, run, branch, r); }
    }
  }

  // ----- the whole call -----

  /**
   * A run's own head is settled if it is verified or the gate is at it or frozen; a
   * gate head that does not descend from it settles none.
   */
  predicate SettlesFrom(dag: Dag, gateHead: Option<Sha>, run: Run, settled: Option<Run>) {
    && (run.verified ==> settled == Some(run))
    && (!run.verified && gateHead.Some? ==>
          && (gateHead == run.submitted || gateHead.value == run.head ==> settled == Some(run))
          && (gateHead != run.submitted && gateHead.value != run.head && !dag.Contains(gateHead.value, run.head) ==>
               settled.None?))
  }

  lemma ResumeSettles(dag: Dag, hasGate: bool, w: World, run: Run, branch: nat, local: Sha, settled: Option<Run>)
    requires dag.Valid() && local in dag.history
    requires GateAtLocal(dag, hasGate, w, run, branch, local)
              && SettlesFrom(dag, w.gate.Get(Branch(branch)), run, settled)
    ensures Resumable(w, run, local) ==> settled == Some(run) && Names(Alias(w.wt, RecoverAnchor, run.id), run.head)
    ensures !Resumable(w, run, local) && run.submitted != Some(local) ==>
              settled.None? || (settled == Some(run) && !Names(Alias(w.wt, RecoverAnchor, run.id), run.head))
  {
  }

  /**
   * The run as it is recovered: its own head if that is verified or the gate is at
   * it or frozen, else a gate head that descends from it.
   */
  function SettledHead(dag: Dag, hasGate: bool, w: World, run: Run, branch: nat): Option<Run> {
    if run.verified then Some(run)
    else if !hasGate then None
    else match w.gate.Get(Branch(branch))
      case None => None
      case Some(gateHead) =>
        if gateHead == run.head || run.submitted == Some(gateHead) then Some(run)
        else if dag.Contains(gateHead, run.head) then Some(run.(head := gateHead))
        else None
  }

  /** A gate head that descends from the recorded one is recorded in its place. */
  method PromoteToGate(s: Session, run: Run, gateHead: Sha) returns (ok: bool)
    requires s.Valid()
    modifies s
    ensures s.Onward() && s.AnchorsKept()
    ensures ok ==> s.dag.Contains(gateHead, run.head)
    ensures s.Alone() ==>
              s.w == if ok then old(s.w).(runs := Promoted(old(s.w).runs, run.id, gateHead)) else old(s.w)
    ensures Awake(old(s.script)) && ok ==> gateHead in old(s.w).gate.objects
    ensures Calm(old(s.script)) && !s.dag.Contains(gateHead, run.head) ==> !ok
    ensures Smooth(old(s.script)) && run in old(s.w).runs && gateHead in old(s.w).gate.objects && gateHead != NO_SHA ==>
              ok == s.dag.Contains(gateHead, run.head)
  {
    hide Session.Valid, Quiet, Awake, Calm, Sighted, Smooth, Blind, Promoted;
    s.Levels();
    ok := s.GateIsAncestor(run.head, gateHead);
    if ok { ok := s.SetRunHead(run.id, gateHead); }
  }

  /** A terminal run without a verified head adopts a gate head that descends from its recorded one. */
  method SettleHead(s: Session, run: Run, branch: nat) returns (settled: Option<Run>)
    requires s.Valid()
    modifies s
    ensures s.Onward() && s.AnchorsKept()
    ensures settled.Some? ==> settled.value == run.(head := settled.value.head)
    ensures settled.Some? && settled.value.head != run.head ==>
              !run.verified && s.hasGate && s.dag.Contains(settled.value.head, run.head)
    ensures s.Alone() && settled.Some? && settled.value.head != run.head ==> settled.value.head in old(s.w).gate.objects
    ensures s.Alone() ==> s.w == if settled.Some? && settled.value.head != run.head
                                 then old(s.w).(runs := Promoted(old(s.w).runs, run.id, settled.value.head))
                                     else old(s.w)
    ensures run.verified ==> settled == Some(run) && s.w == old(s.w) && s.script == old(s.script)
    ensures Calm(old(s.script)) && s.hasGate ==> SettlesFrom(s.dag, old(s.w).gate.Get(Branch(branch)), run, settled)
    ensures Smooth(old(s.script)) && run in old(s.w).runs ==>
              settled == SettledHead(s.dag, s.hasGate, old(s.w), run, branch)
  {
    hide Session.Valid, Quiet, Awake, Calm, Sighted, Smooth, Blind, Promoted, World.HeadCommit;
    s.Levels();
    if run.verified { return Some(run); }
    if !s.hasGate { return None; }
    var gateHead := s.GateHead(branch);
    if gateHead.None? { return None; }
    var frozen := run.submitted.Some? && run.submitted.value != NO_SHA && gateHead == run.submitted
        && gateHead.value != run.head;
    if gateHead.value == run.head || frozen { return Some(run); }
    var recorded := PromoteToGate(s, run, gateHead.value);
    settled := if recorded then Some(run.(head := gateHead.value)) else None;
  }

  lemma OwnedIsUnpublished(r: Run)
    requires Classify(r) == PipelineOwned && r.status.Terminal? && !r.returned && PushFieldsTogether(r)
    requires Selectable(r.branch, r)
    ensures Unpublished(r)
  {
  }

  /** The records after this call returned custody of `subject`. */
  ghost predicate ReturnsCustodyOf(a: World, b: World, subject: Run, branch: nat) {
    exists i: nat ::
      && i < |a.runs| && |b.runs| == |a.runs|
      && a.runs[i].id == subject.id && a.runs[i].branch == branch
      && a.runs[i].status.Terminal? && !a.runs[i].returned && Classify(a.runs[i]) == PipelineOwned
           && Selectable(branch, a.runs[i])
      && b.runs[i] == a.runs[i].(head := subject.head, verified := b.runs[i].verified, returned := true)
      && forall k :: 0 <= k < |a.runs| && k != i ==> b.runs[k] == a.runs[k]
  }

  /** Every return of custody settles exactly one more unpublished run of the branch. */
  lemma ReturnLowersUnpublished(a: World, b: World, subject: Run, branch: nat)
    requires ReturnsCustodyOf(a, b, subject, branch)
    requires forall r :: r in a.runs ==> PushFieldsTogether(r)
    ensures UnpublishedCount(b.runs, branch) == UnpublishedCount(a.runs, branch) - 1
  {
    var i: nat :|
      && i < |a.runs| && |b.runs| == |a.runs|
      && a.runs[i].id == subject.id && a.runs[i].branch == branch
      && a.runs[i].status.Terminal? && !a.runs[i].returned && Classify(a.runs[i]) == PipelineOwned
           && Selectable(branch, a.runs[i])
      && b.runs[i] == a.runs[i].(head := subject.head, verified := b.runs[i].verified, returned := true)
      && forall k :: 0 <= k < |a.runs| && k != i ==> b.runs[k] == a.runs[k];
    OwnedIsUnpublished(a.runs[i]);
    SettlingOneLowersCount(a.runs, b.runs, i, branch);
  }

  lemma ReturnRecorded(a: World, b: World, run: Run, settled: Run)
    requires DistinctIds(a.runs) && run in a.runs
    requires run.status.Terminal? && !run.returned && Classify(run) == PipelineOwned && Selectable(run.branch, run)
    requires settled == run.(head := settled.head)
    requires b.runs == Stamped(if settled.head == run.head then a.runs
              else Promoted(a.runs, run.id, settled.head), run.id)
    ensures ReturnsCustodyOf(a, b, settled, run.branch)
  {
    var i: nat :| i < |a.runs| && a.runs[i] == run;
    forall k | 0 <= k < |a.runs| && k != i
      ensures b.runs[k] == a.runs[k]
    {
      assert a.runs[k].id != run.id;
    }
  }

  /** A view of a branch held by a terminal run whose head was never published. */
  predicate Stranded(v: View) {
    v.run.Some? && v.head.Some? && !v.run.value.returned && v.run.value.status.Terminal? && v.standing == PipelineOwned
  }

  /** The head to recover is the recorded one, or for an unverified run a gate head that descends from it. */
  predicate SettledFrom(dag: Dag, hasGate: bool, a: World, run: Run, subject: Run) {
    && subject == run.(head := subject.head)
    && (subject.head == run.head
         || (!run.verified && hasGate && dag.Contains(subject.head, run.head) && subject.head in a.gate.objects))
  }

  /** The records once the head is settled. */
  function SettledRuns(runs: seq<Run>, run: Run, subject: Run): seq<Run> {
    if subject.head == run.head then runs else Promoted(runs, run.id, subject.head)
  }

  /** Why HEAD may leave `local` for `head`. */
  ghost predicate Warranted(dag: Dag, local: Sha, head: Sha) {
    dag.Contains(head, local) || NothingMissing(dag, local, head)
  }

  /**
   * A move of HEAD onto the subject's head, from a commit that head contains or the
   * local anchor names, or its undoing.
   */
  ghost predicate MovesOnto(dag: Dag, s: Step, seen: View, subject: Option<Run>) {
    && subject.Some? && seen.head.Some? && seen.clean && Warranted(dag, seen.head.value, subject.value.head)
    && var left := s.before.wt.Get(Anchor(LocalAnchor, subject.value.id, false));
       || (&& s.after.HeadCommit() == Some(subject.value.head) && s.before.HeadCommit().Some?
           && (dag.Contains(subject.value.head, s.before.HeadCommit().value) || s.before.HeadCommit() == left))
       || (s.before.HeadCommit() == Some(subject.value.head) && s.after.HeadCommit() == left)
  }

  /** One of our steps since moment `n` moves HEAD. */
  ghost predicate HeadMoved(log: seq<Step>, n: nat) {
    exists k :: n <= k < |log| && log[k].Own() && MovesHead(log[k])
  }

  /** Step `k` stamps the subject; after a move, HEAD was seen at its head and the worktree then clean before it. */
  ghost predicate SettledAt(dag: Dag, entry: World, log: seq<Step>, n: nat, k: nat, r: Report, subject: Option<Run>) {
    && n <= k < |log| && subject.Some? && Settles(r) && StampStep(log[k], subject.value.id)
    && (HeadMoved(log, n) || (r.Recovered? && r.changed) ==> Arrived(dag, entry, log, n, k, subject.value.head))
  }

  /**
   * What a call's own steps since moment `n` may do, whoever interferes. They
   * lose nothing, but for writes over an anchor of the subject's that named
   * another commit, and such a write loses something exactly when nothing else
   * holds that commit.
   */
  ghost predicate OwnSteps(dag: Dag, entry: World, log: seq<Step>, n: nat, r: Report, seen: View,
      subject: Option<Run>) {
    && LosesAsTold(dag, log, n) && n <= |log|
    && (NoneOverwritten(log, n) ==> AnchorsStay(Moment(entry, log, n), Moment(entry, log, |log|)))
    && (forall k :: n <= k < |log| && log[k].Own() ==>
          && !log[k].actor.Exposed?
          && (log[k].actor.Overwrote? ==> subject.Some? && Overwritable(subject.value.id, log[k].actor.anchor))
          && (MovesHead(log[k]) ==> MovesOnto(dag, log[k], seen, subject))
          && (Returns(log[k]) ==> SettledAt(dag, entry, log, n, k, r, subject)))
    && (subject.Some? && Settles(r) ==> exists k :: SettledAt(dag, entry, log, n, k, r, subject))
  }

  lemma UntouchedSteps(s: Session, n: nat, r: Report, seen: View)
    requires s.Valid() && s.Untouched() && !s.call.aimed && s.call.start == n
    ensures OwnSteps(s.dag, s.entry, s.log, n, r, seen, None) && !HeadMoved(s.log, n)
  {
    hide MovesHead, Returns, MovesGate, Chain, Outsiders, Overwrites, Arrived, LosesAsTold, AnchorsStay;
    KeptSince(s, n);
    forall k | n <= k < |s.log| && s.log[k].Own()
      ensures !s.log[k].actor.Exposed? && !s.log[k].actor.Overwrote? && !MovesHead(s.log[k]) && !Returns(s.log[k])
    {
      assert InBounds(s.dag, s.call, s.log[k], k);
    }
  }

  lemma ConcludedSteps(s: Session, n: nat, r: Report, seen: View, subject: Run)
    requires s.Valid() && s.call.start == n && s.call.id == subject.id && s.call.goal == subject.head
    requires Concluded(s.call, subject, r)
    requires s.call.moving ==> seen.head.Some? && seen.clean && Warranted(s.dag, seen.head.value, subject.head)
    ensures OwnSteps(s.dag, s.entry, s.log, n, r, seen, Some(subject)) && (!s.call.moving ==> !HeadMoved(s.log, n))
  {
    hide MovesHead, Returns, MovesGate, Chain, Outsiders, Overwrites, Arrived, StampStep, Warranted, LosesAsTold,
         AnchorsStay;
    KeptSince(s, n);
    forall k | n <= k < |s.log| && s.log[k].Own()
      ensures !s.log[k].actor.Exposed?
      ensures s.log[k].actor.Overwrote? ==> Overwritable(subject.id, s.log[k].actor.anchor)
      ensures MovesHead(s.log[k]) ==> s.call.moving && MovesOnto(s.dag, s.log[k], seen, Some(subject))
      ensures Returns(s.log[k]) ==> s.call.stamp == Some(k)
    {
      assert InBounds(s.dag, s.call, s.log[k], k);
    }
    if s.call.stamp.Some? {
      assert SettledAt(s.dag, s.entry, s.log, n, s.call.stamp.value, r, Some(subject));
    }
  }

  /** A view whose run was already returned, or whose outcome released the branch: recovery is a no-op. */
  method Acknowledge(s: Session, v: View) returns (r: Report)
    requires s.Valid()
    requires v.run.Some? && (v.run.value.returned || v.standing == UserOwned)
    modifies s
    ensures s.Onward()
    ensures s.Alone() ==> s.w == old(s.w)
    ensures r.Recovered? ==> !r.changed
    ensures r.Refused? ==> r.why == AliasConflict(false) && v.run.value.returned
    ensures !v.run.value.returned ==> r == Recovered(false, NO_FACTS)
    ensures Calm(old(s.script)) && v.head == LocalHead(s.w) && v.run.value.returned ==>
              Acknowledged(s.dag, s.hasGate, s.w, r, v.run.value)
  {
    hide Session.Valid, Quiet, Awake, Calm, Sighted, Smooth, Blind, FactsOf;
    s.Levels();
    r := Recovered(false, NO_FACTS);
    if v.run.value.returned {
      var facts := AttachUnclaimed(s, v.run.value, v.head);
      r := if facts.Some? then Recovered(false, facts.value) else Refused(AliasConflict(false));
    }
  }

  /** What settling the head and recovering the run leave behind when nobody interferes. */
  ghost predicate QuietSubject(dag: Dag, hasGate: bool, a: World, b: World, r: Report, run: Run, branch: nat,
      subject: Run) {
    && SettledFrom(dag, hasGate, a, run, subject)
    && (r.Refused? && BeforeAnyMove(r.why) ==> Undisturbed(a, b))
    && (if Settles(r) then ReturnsCustodyOf(a, b, subject, branch) else b.runs == SettledRuns(a.runs, run, subject))
    && (Settles(r) ==> b.head == a.head && StayedOrArrived(dag, a, b, subject.head))
    && (r.Recovered? && r.changed ==> b.HeadCommit() == Some(subject.head) && b.Clean(dag))
    && (r.Recovered? && !r.changed ==> b.files == a.files && b.HeadCommit() == a.HeadCommit())
  }

  lemma SubjectOutcome(dag: Dag, hasGate: bool, a: World, m: World, b: World, r: Report, run: Run, branch: nat,
      subject: Run)
    requires DistinctIds(a.runs) && run in a.runs
    requires run.status.Terminal? && !run.returned && Classify(run) == PipelineOwned && Selectable(run.branch, run)
              && run.branch == branch
    requires SettledFrom(dag, hasGate, a, run, subject)
    requires m == a.(runs := SettledRuns(a.runs, run, subject))
    requires QuietOutcome(dag, m, b, subject, r)
    ensures QuietSubject(dag, hasGate, a, b, r, run, branch, subject)
  {
    hide Classify, Stamped, Promoted, World.Clean, ReturnsCustodyOf;
    if Settles(r) { ReturnRecorded(a, b, run, subject); }
    if r.Refused? && BeforeAnyMove(r.why) { assert Undisturbed(a, m); UndisturbedChains(a, m, b); }
  }

  /** The call can be cut short only in worlds that `Cut` describes. */
  ghost predicate CutsAre(s: Session, a: World, run: Run, subject: Run, branch: nat, local: Sha, keepLocal: bool)
    reads s
  {
    && (s.call.gateMove.Some? ==>
          keepLocal && s.hasGate && !s.dag.Contains(local, subject.head) && !Alias(a.wt, LocalAnchor, run.id).Conflict?)
    && forall k :: CutAt(s, k) ==>
         Cut(a, SettledRuns(a.runs, run, subject), Moment(s.entry, s.log, k), subject, branch, local)
  }

  lemma CalmSettled(s: Session, a: World, m: World, r: Report, run: Run, subject: Run, branch: nat, local: Sha,
      keepLocal: bool)
    requires m == a.(runs := SettledRuns(a.runs, run, subject)) && subject.id == run.id
    requires CalmOutcome(s.dag, s.hasGate, m, s.w, subject, branch, r)
    requires s.call.gateMove.Some? ==>
              keepLocal && s.hasGate && !s.dag.Contains(local, subject.head)
              && !Alias(m.wt, LocalAnchor, subject.id).Conflict?
    requires forall k :: CutAt(s, k) ==> Cut(m, m.runs, Moment(s.entry, s.log, k), subject, branch, local)
    ensures CalmOutcome(s.dag, s.hasGate, a, s.w, subject, branch, r)
    ensures CutsAre(s, a, run, subject, branch, local, keepLocal)
  {
    hide SettledRuns, CutAt;
  }

  /** Every condition of a keep-local return that moves the gate to the local head. */
  predicate CanSwap(s: Session, w: World, v: View) {
    && v.run.Some? && v.head.Some? && s.hasGate && !Alias(w.wt, LocalAnchor, v.run.value.id).Conflict?
    && SwapReady(s.dag, w, v.run.value.id, v.branch, v.head.value, v.run.value.head)
  }

  /** The records have no say in it. */
  lemma RunsDoNotDecide(dag: Dag, hasGate: bool, a: World, m: World, b: World, pick: Sha, run: Run, branch: nat,
      local: Sha,
      clean: bool, keepLocal: bool, r: Report)
    requires m == a.(runs := m.runs)
    ensures At(dag, a, branch, local, clean) <==> At(dag, m, branch, local, clean)
    ensures Follows(dag, Matrix(dag, hasGate, m, pick, run, branch, local, clean, keepLocal), m, b, run, branch, local,
              r)
            <==> Follows(dag, Matrix(dag, hasGate, a, pick, run, branch, local, clean, keepLocal), a, b, run, branch,
                local, r)
  {
    hide ReadAnswer, Done;
  }

  /** Recover a stranded run with its head settled, from the world `a` in which the head was settled. */
  method RecoverSettled(s: Session, v: View, subject: Run, keepLocal: bool, ghost a: World) returns (r: Report)
    requires s.Valid() && Aimed(s, subject)
    requires Stranded(v) && v.head.value in s.dag.history && subject == v.run.value.(head := subject.head)
    requires Classify(v.run.value) == v.standing && v.run.value.branch == v.branch && Selectable(v.branch, v.run.value)
    modifies s
    ensures s.Ahead() && Concluded(s.call, subject, r)
    ensures s.call.moving ==> !keepLocal && v.clean && Warranted(s.dag, v.head.value, subject.head)
    ensures s.Alone() && old(s.w) == a.(runs := SettledRuns(a.runs, v.run.value, subject))
              && SettledFrom(s.dag, s.hasGate, a, v.run.value, subject)
              && LocalHead(a) == v.head && v.run.value in a.runs && DistinctIds(a.runs) ==>
              QuietSubject(s.dag, s.hasGate, a, s.w, r, v.run.value, v.branch, subject)
    ensures Calm(old(s.script)) && old(s.w) == a.(runs := SettledRuns(a.runs, v.run.value, subject))
              && LocalHead(a) == v.head ==>
              && CalmOutcome(s.dag, s.hasGate, a, s.w, subject, v.branch, r)
              && CutsAre(s, a, v.run.value, subject, v.branch, v.head.value, keepLocal)
    ensures Calm(old(s.script)) && GateAtLocal(s.dag, s.hasGate, old(s.w), subject, v.branch, v.head.value)
              && subject.submitted != v.head && !Names(Alias(old(s.w).wt, RecoverAnchor, subject.id), subject.head) ==>
              !Settles(r)
    ensures Smooth(old(s.script)) && keepLocal
              && GateAtLocal(s.dag, s.hasGate, old(s.w), subject, v.branch, v.head.value)
              && Names(Alias(old(s.w).wt, RecoverAnchor, subject.id), subject.head) ==>
              Completed(old(s.w), s.w, subject, r)
    ensures Smooth(old(s.script)) && keepLocal && subject == v.run.value && CanSwap(s, old(s.w), v) ==>
              SwapCut(s, old(s.w), subject.id, v.branch, v.head.value)
    ensures Blind(old(s.script)) && LocalHead(old(s.w)) == v.head && s.dag.Contains(v.head.value, subject.head) ==>
              r.Recovered? && s.w == BlindlyReturned(old(s.w), subject)
    ensures Smooth(old(s.script)) && At(s.dag, a, v.branch, v.head.value, v.clean)
              && old(s.w) == a.(runs := SettledRuns(a.runs, v.run.value, subject)) ==>
              Follows(s.dag,
                  Matrix(s.dag, s.hasGate, a, s.script.rest.pick, subject, v.branch, v.head.value, v.clean, keepLocal),
                a, s.w, subject, v.branch, v.head.value, r)
  {
    hide Session.Valid, Quiet, Awake, Calm, Sighted, Smooth, Blind, Stamped, Promoted, Classify, QuietOutcome,
         CalmOutcome, QuietSubject, Cut, Names, NothingMissing, GateAtLocal, Concluded, DistinctIds, Selectable,
         SettledFrom, CutsAre, CutAt, SettledRuns, Completed, SwapReady, SwapCut, BlindlyReturned, Alias,
         StayedOrArrived, Follows, Matrix, At;
    s.Levels();
    r := RecoverOwned(s, subject, v.branch, v.head.value, v.clean, keepLocal);
    if old(s.w) == a.(runs := SettledRuns(a.runs, v.run.value, subject)) {
      RunsDoNotDecide(s.dag, s.hasGate, a, old(s.w), s.w, s.script.rest.pick, subject, v.branch, v.head.value, v.clean,
          keepLocal,
        r);
    }
    if old(s.w) == a.(runs := SettledRuns(a.runs, v.run.value, subject)) && LocalHead(a) == v.head {
      if s.Alone() && SettledFrom(s.dag, s.hasGate, a, v.run.value, subject) && v.run.value in a.runs
          && DistinctIds(a.runs) {
        SubjectOutcome(s.dag, s.hasGate, a, old(s.w), s.w, r, v.run.value, v.branch, subject);
      }
      if Calm(old(s.script)) {
        CalmSettled(s, a, old(s.w), r, v.run.value, subject, v.branch, v.head.value, keepLocal);
      }
    }
  }

  /** Settle the recorded head. */
  method SettleFor(s: Session, run: Run, branch: nat, ghost local: Sha) returns (settled: Option<Run>)
    requires s.Valid() && local in s.dag.history
    modifies s
    ensures s.Onward()
    ensures settled.Some? ==> settled.value == run.(head := settled.value.head)
    ensures s.Alone() && settled.Some? ==> SettledFrom(s.dag, s.hasGate, old(s.w), run, settled.value)
    ensures s.Alone() ==>
              s.w == if settled.Some? then old(s.w).(runs := SettledRuns(old(s.w).runs, run, settled.value))
              else old(s.w)
    ensures run.verified ==> settled == Some(run) && s.w == old(s.w) && s.script == old(s.script)
    ensures Calm(old(s.script)) && GateAtLocal(s.dag, s.hasGate, old(s.w), run, branch, local) ==>
              && (Resumable(old(s.w), run, local) ==>
                   settled == Some(run) && Names(Alias(old(s.w).wt, RecoverAnchor, run.id), run.head))
              && (!Resumable(old(s.w), run, local) && run.submitted != Some(local) ==>
                   settled.None?
                       || (settled == Some(run) && !Names(Alias(old(s.w).wt, RecoverAnchor, run.id), run.head)))
    ensures Smooth(old(s.script)) && run in old(s.w).runs ==>
              settled == SettledHead(s.dag, s.hasGate, old(s.w), run, branch)
  {
    hide Session.Valid, Quiet, Awake, Calm, Sighted, Smooth, Blind, Promoted, SettlesFrom, SettledHead, GateAtLocal,
         Resumable, Names, Alias, Stamped;
    s.Levels();
    s.DagIsValid();
    settled := SettleHead(s, run, branch);
    if Calm(old(s.script)) && GateAtLocal(s.dag, s.hasGate, old(s.w), run, branch, local) {
      GateAtLocalHasGate(s.dag, s.hasGate, old(s.w), run, branch, local);
      ResumeSettles(s.dag, s.hasGate, old(s.w), run, branch, local, settled);
    }
  }

  /** Settle the recorded head, and turn the call to it. */
  method SettleAndAim(s: Session, run: Run, branch: nat, ghost local: Sha) returns (settled: Option<Run>)
    requires s.Valid() && s.Untouched() && !s.call.aimed && local in s.dag.history
    modifies s
    ensures s.Grown() && s.overwrites == old(s.overwrites) && s.Untouched() && s.call.start == old(s.call).start
    ensures if settled.Some? then Aimed(s, settled.value) else !s.call.aimed
    ensures settled.Some? ==> settled.value == run.(head := settled.value.head)
    ensures s.Alone() && settled.Some? ==> SettledFrom(s.dag, s.hasGate, old(s.w), run, settled.value)
    ensures s.Alone() ==>
              s.w == if settled.Some? then old(s.w).(runs := SettledRuns(old(s.w).runs, run, settled.value))
              else old(s.w)
    ensures run.verified ==> settled == Some(run) && s.w == old(s.w) && s.script == old(s.script)
    ensures Calm(old(s.script)) && GateAtLocal(s.dag, s.hasGate, old(s.w), run, branch, local) ==>
              && (Resumable(old(s.w), run, local) ==>
                   settled == Some(run) && Names(Alias(old(s.w).wt, RecoverAnchor, run.id), run.head))
              && (!Resumable(old(s.w), run, local) && run.submitted != Some(local) ==>
                   settled.None?
                       || (settled == Some(run) && !Names(Alias(old(s.w).wt, RecoverAnchor, run.id), run.head)))
    ensures Smooth(old(s.script)) && run in old(s.w).runs ==>
              settled == SettledHead(s.dag, s.hasGate, old(s.w), run, branch)
  {
    hide Session.Valid, Quiet, Awake, Calm, Sighted, Smooth, Blind, Promoted, SettlesFrom, SettledHead, GateAtLocal,
         Resumable, Names, Alias, SettledFrom, SettledRuns;
    s.Levels();
    settled := SettleFor(s, run, branch, local);
    if settled.Some? { s.Aim(settled.value.head, settled.value.id); }
  }

  /** What the matrix says of the run with its head settled is what comes of the call. */
  ghost predicate Decided(dag: Dag, hasGate: bool, pick: Sha, a: World, b: World, v: View, subject: Option<Run>,
      keepLocal: bool,
      r: Report)
    requires Stranded(v)
  {
    match SettledHead(dag, hasGate, a, v.run.value, v.branch)
    case None => subject.None? && r == Refused(UnverifiedHead) && b == a
    case Some(run) =>
      && subject == Some(run)
      && Follows(dag, Matrix(dag, hasGate, a, pick, run, v.branch, v.head.value, v.clean, keepLocal), a, b, run,
           v.branch,
           v.head.value, r)
  }

  /** Settle the recorded head of a stranded run, then recover it. */
  method RecoverStranded(s: Session, v: View, keepLocal: bool) returns (r: Report, ghost subject: Option<Run>)
    requires s.Valid() && s.Untouched() && !s.call.aimed
    requires Stranded(v) && v.head.value in s.dag.history
    requires Classify(v.run.value) == v.standing && v.run.value.branch == v.branch && Selectable(v.branch, v.run.value)
    modifies s
    ensures s.Grown() && s.Tidy() && s.call.start == old(s.call).start
    ensures subject.None? ==> r == Refused(UnverifiedHead) && s.Untouched() && !s.call.aimed
    ensures subject.Some? ==>
              && s.call.id == subject.value.id && s.call.goal == subject.value.head
                   && Concluded(s.call, subject.value, r)
              && (s.call.moving ==> !keepLocal && v.clean && Warranted(s.dag, v.head.value, subject.value.head))
    ensures s.Alone() && subject.None? ==> s.w == old(s.w)
    ensures s.Alone() && subject.Some? ==> SettledFrom(s.dag, s.hasGate, old(s.w), v.run.value, subject.value)
    ensures s.Alone() && LocalHead(old(s.w)) == v.head && v.run.value in old(s.w).runs && DistinctIds(old(s.w).runs)
              && subject.Some? ==>
              QuietSubject(s.dag, s.hasGate, old(s.w), s.w, r, v.run.value, v.branch, subject.value)
    ensures Calm(old(s.script)) && LocalHead(old(s.w)) == v.head && subject.Some? ==>
              && CalmOutcome(s.dag, s.hasGate, old(s.w), s.w, subject.value, v.branch, r)
              && CutsAre(s, old(s.w), v.run.value, subject.value, v.branch, v.head.value, keepLocal)
    ensures Smooth(old(s.script)) && keepLocal
              && GateAtLocal(s.dag, s.hasGate, old(s.w), v.run.value, v.branch, v.head.value) ==>
              && (Resumable(old(s.w), v.run.value, v.head.value) ==>
                   subject == v.run && Completed(old(s.w), s.w, v.run.value, r))
              && (!Resumable(old(s.w), v.run.value, v.head.value) && v.run.value.submitted != v.head ==> !Settles(r))
    ensures Smooth(old(s.script)) && keepLocal && v.run.value.verified && CanSwap(s, old(s.w), v) ==>
              subject == v.run && SwapCut(s, old(s.w), v.run.value.id, v.branch, v.head.value)
    ensures Blind(old(s.script)) && LocalHead(old(s.w)) == v.head && v.run.value.verified
              && s.dag.Contains(v.head.value, v.run.value.head) ==>
              r.Recovered? && subject == v.run && s.w == BlindlyReturned(old(s.w), v.run.value)
    ensures Smooth(old(s.script)) && At(s.dag, old(s.w), v.branch, v.head.value, v.clean)
              && v.run.value in old(s.w).runs ==>
              Decided(s.dag, s.hasGate, s.script.rest.pick, old(s.w), s.w, v, subject, keepLocal, r)
  {
    hide Session.Valid, Quiet, Awake, Calm, Sighted, Smooth, Blind, Stamped, Promoted, Classify, QuietOutcome,
         CalmOutcome, QuietSubject, Cut, Names, NothingMissing, GateAtLocal, Resumable, SettlesFrom, Concluded,
         DistinctIds, Selectable, CutsAre, Completed, SwapReady, SwapCut, BlindlyReturned, Follows, Matrix, At,
             SettledHead, LocalHead, SettledFrom, CanSwap;
    s.Levels();
    var settled := SettleAndAim(s, v.run.value, v.branch, v.head.value);
    subject := settled;
    if settled.None? {
      r := Refused(UnverifiedHead);
      return;
    }
    r := RecoverSettled(s, v, settled.value, keepLocal, old(s.w));
  }

  /** A whole call with nobody interfering. */
  ghost predicate QuietRecovery(dag: Dag, hasGate: bool, a: World, b: World, r: Report, seen: View,
      subject: Option<Run>) {
    match subject
    case None => b == a && (r.Recovered? ==> !r.changed) && (r.Refused? ==> BeforeAnyMove(r.why))
    case Some(run) => Stranded(seen) && QuietSubject(dag, hasGate, a, b, r, seen.run.value, seen.branch, run)
  }

  /** A whole call with nobody interfering and every query answered. */
  ghost predicate CalmRecovery(dag: Dag, hasGate: bool, a: World, b: World, r: Report, seen: View,
      subject: Option<Run>) {
    && (subject.Some? ==>
          && Stranded(seen) && SettledFrom(dag, hasGate, a, seen.run.value, subject.value)
          && CalmOutcome(dag, hasGate, a, b, subject.value, seen.branch, r))
    && (r.Recovered? && subject.None? ==> seen.run.Some? && (seen.run.value.returned || seen.standing == UserOwned))
    && (seen.run.Some? && seen.run.value.returned ==> subject.None? && Acknowledged(dag, hasGate, b, r, seen.run.value))
    && (seen.run.Some? && !seen.run.value.returned && seen.standing == UserOwned ==>
         subject.None? && r == Recovered(false, NO_FACTS))
  }

  /** The answer to recovering a run whose custody was already returned. */
  predicate Acknowledged(dag: Dag, hasGate: bool, w: World, r: Report, run: Run) {
    if AnchorsConflict(w.wt, run.id)
    then r == Refused(AliasConflict(false))
    else r == Recovered(false, FactsOf(dag, w, hasGate, run))
  }

  /** Where there is nothing to recover, and where the run is not over. */
  predicate Dispatched(v: View, r: Report, subject: Option<Run>) {
    var acknowledged := v.run.Some? && (v.run.value.returned || v.standing == UserOwned);
    && (!acknowledged && (v.run.None? || v.standing != PipelineOwned) ==> subject.None? && r == Refused(NotApplicable))
    && (!acknowledged && v.run.Some? && v.standing == PipelineOwned && !v.run.value.status.Terminal? ==>
         subject.None? && r == Refused(RunActive))
  }

  /** There is nothing to recover, or not yet. */
  method Concede(s: Session, v: View) returns (r: Report)
    requires s.Valid() && !Stranded(v) && (v.run.Some? ==> v.head.Some?)
    modifies s
    ensures s.Onward()
    ensures Dispatched(v, r, None)
    ensures s.Alone() ==> QuietRecovery(s.dag, s.hasGate, old(s.w), s.w, r, v, None)
    ensures Calm(old(s.script)) && v.head == LocalHead(s.w) ==>
              CalmRecovery(s.dag, s.hasGate, old(s.w), s.w, r, v, None)
  {
    hide Session.Valid, Quiet, Awake, Calm, Sighted, Smooth, Blind, Acknowledged, FactsOf;
    s.Levels();
    if v.run.Some? && (v.run.value.returned || v.standing == UserOwned) {
      r := Acknowledge(s, v);
    } else if v.standing != PipelineOwned || v.run.None? {
      r := Refused(NotApplicable);
    } else {
      r := Refused(RunActive);
    }
  }

  /**
   * `Recover`. `seen` is what inspection reported and `subject` the run this
   * call set out to recover, with its settled head; a call that refused early
   * or had nothing left to do has none.
   */
  method Recover(s: Session, keepLocal: bool, contextRefuses: bool)
      returns (r: Report, ghost seen: View, ghost subject: Option<Run>)
    requires s.Valid()
    modifies s
    ensures s.Grown() && s.Tidy()
    ensures OwnSteps(s.dag, s.entry, s.log, |old(s.log)|, r, seen, subject)
    ensures keepLocal ==> !HeadMoved(s.log, |old(s.log)|)
    ensures Sighted(old(s.script)) ==> NoneOverwritten(s.log, |old(s.log)|)
    ensures if contextRefuses then r == Refused(GateContext) else Dispatched(seen, r, subject)
    ensures s.Alone() ==> QuietRecovery(s.dag, s.hasGate, old(s.w), s.w, r, seen, subject)
    ensures Awake(old(s.script)) && !contextRefuses ==> Reports(s, old(s.w), seen)
    ensures Calm(old(s.script)) && !contextRefuses ==>
              && CalmRecovery(s.dag, s.hasGate, old(s.w), s.w, r, seen, subject)
              && (subject.None? ==> s.call.gateMove.None?)
              && (subject.Some? ==>
                   CutsAre(s, old(s.w), seen.run.value, subject.value, seen.branch, seen.head.value, keepLocal))
    ensures Smooth(old(s.script)) && !contextRefuses && keepLocal && Stranded(seen)
              && GateAtLocal(s.dag, s.hasGate, old(s.w), seen.run.value, seen.branch, seen.head.value) ==>
              && (Resumable(old(s.w), seen.run.value, seen.head.value) ==>
                   subject == seen.run && Completed(old(s.w), s.w, seen.run.value, r))
              && (!Resumable(old(s.w), seen.run.value, seen.head.value) && seen.run.value.submitted != seen.head ==>
                   !Settles(r))
    ensures Smooth(old(s.script)) && !contextRefuses && keepLocal && Stranded(seen) && seen.run.value.verified
              && CanSwap(s, old(s.w), seen) ==>
              subject == seen.run && SwapCut(s, old(s.w), seen.run.value.id, seen.branch, seen.head.value)
    // Where every command the repositories permit succeeds, the matrix decides.
    ensures Smooth(old(s.script)) && !contextRefuses && Stranded(seen) ==>
              Decided(s.dag, s.hasGate, s.script.rest.pick, old(s.w), s.w, seen, subject, keepLocal, r)
    // Where no lookup of a private ref is answered, the recovery anchor is overwritten.
    ensures Blind(old(s.script)) && !contextRefuses && Stranded(seen) && seen.run.value.verified
              && s.dag.Contains(seen.head.value, seen.run.value.head) ==>
              r.Recovered? && subject == seen.run && s.w == BlindlyReturned(old(s.w), seen.run.value)
  {
    hide Session.Valid, Quiet, Awake, Calm, Sighted, Smooth, Blind, Classify, CalmOutcome, QuietSubject, Undisturbed,
         Acknowledged, OwnSteps, Concluded, CutsAre, GateAtLocal, Resumable, Warranted, Reports, Completed, CanSwap,
         SwapCut, BlindlyReturned, NoneOverwritten, SettledFrom, Stamped, FactsOf, Selectable, Settles, HeadMoved,
             Glimpsed, Decided, At;
    s.Levels();
    s.RunsDistinct();
    UndisturbedByItself(s.w);
    seen, subject := View(0, None, false, None, AmbiguousContext), None;
    s.Counted();
    ghost var before := s.log;
    s.Begin();
    if contextRefuses {
      r := Refused(GateContext);
      UntouchedSteps(s, |old(s.log)|, r, seen);
      TidySteps(s, before);
      return;
    }
    var v := Inspect(s);
    seen := v;
    ReportsHead(s, s.w, v);
    if v.run.Some? && !v.run.value.returned && v.standing == PipelineOwned && v.run.value.status.Terminal? {
      r, subject := RecoverStranded(s, v, keepLocal);
    } else {
      r := Concede(s, v);
    }
    if subject.None? {
      UntouchedSteps(s, |old(s.log)|, r, seen);
    } else {
      ConcludedSteps(s, |old(s.log)|, r, seen, subject.value);
    }
    TidySteps(s, before);
  }

  lemma ReportsHead(s: Session, w: World, v: View)
    ensures Reports(s, w, v) ==> v.head == LocalHead(w)
    ensures Reports(s, w, v) && v.head.Some? ==> At(s.dag, w, v.branch, v.head.value, v.clean)
  {
  }

  /**
   * Whatever a calm return leaves out of the branch, its report names: the head
   * recorded when the call began, and the gate head let go.
   */
  lemma RecoveryAccounts(dag: Dag, hasGate: bool, a: World, b: World, r: Report, seen: View, subject: Run)
    requires dag.Valid() && b.Valid(dag)
    requires CalmRecovery(dag, hasGate, a, b, r, seen, Some(subject)) && r.Recovered?
    ensures HeadAccounted(dag, b, r.facts, seen.run.value.head)
    ensures var was := a.gate.Get(Branch(seen.branch));
            was.Some? && b.gate.Get(Branch(seen.branch)) != was ==> GateHeadAccounted(dag, b, r.facts, was.value)
  {
    hide Stranded;
    FactsAccount(dag, b, hasGate, subject);
  }
}
