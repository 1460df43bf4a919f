/**
 * One service call at work: the git and database commands it issues, each an
 * atomic step that outside actors may precede. The log keeps every
 * intermediate world, so a statement about it covers every crash point.
 */
module Commands {
  import opened Options
  import opened Objects
  import opened Runs
  import opened Worlds

  /**
   * `Exposed` is our own unguarded reset meeting a world other than the one last
   * checked; `Overwrote` our own write of a private anchor that named another
   * commit, which happens when the lookup of the anchor was not answered.
   */
  datatype Actor = Ours | Outside | Exposed | Overwrote(anchor: Ref, now: Sha)

  datatype Step = Step(before: World, after: World, actor: Actor) {
    predicate Own() { !actor.Outside? }
  }

  ghost predicate StepOk(dag: Dag, s: Step) {
    && s.before.Valid(dag) && s.after.Valid(dag)
    && match s.actor
       case Ours => Lossless(dag, s.before, s.after) && AnchorsStay(s.before, s.after)
       case Outside => Allowed(dag, s.before, s.after)
       case Exposed => exists to :: to in s.before.wt.objects && s.after == Reset(dag, s.before, to)
       case Overwrote(r, c) =>
         && r.Anchor? && Taken(s.before.wt, r, c) && s.before.wt.objects <= s.after.wt.objects
         && s.after == s.before.(wt := Rewritten(s.before.wt, s.after.wt.objects, r, c))
  }

  /** The ref names another commit than `c`. */
  predicate Taken(wt: Repo, r: Ref, c: Sha) {
    wt.Get(r).Some? && wt.Get(r) != Some(c)
  }

  function Rewritten(wt: Repo, objects: set<Sha>, r: Ref, c: Sha): Repo {
    Repo(objects, wt.refs[r := c])
  }

  /** What the step replaces is held by something else as well. */
  ghost predicate Spared(dag: Dag, s: Step) {
    match s.actor
    case Ours => true
    case Outside => false
    case Exposed => s.after.HeadCommit().Some? && ResetSpares(dag, s.before, s.after.HeadCommit().value)
    case Overwrote(r, c) => s.before.wt.Get(r).Some? && HeldWithout(dag, s.before, r, c, s.before.wt.Get(r).value)
  }

  /** Whoever interferes, a step of our own loses nothing exactly when what it replaces is held elsewhere. */
  lemma OwnStepKeepsIff(dag: Dag, s: Step)
    requires dag.Valid() && StepOk(dag, s) && s.Own()
    ensures Lossless(dag, s.before, s.after) <==> Spared(dag, s)
  {
    hide Lossless, ResetSpares, HeldWithout;
    match s.actor {
      case Ours =>
      case Exposed =>
        var to :| to in s.before.wt.objects && s.after == Reset(dag, s.before, to);
        ResetIsValid(dag, s.before, to);
        ResetKeepsIff(dag, s.before, to);
      case Overwrote(r, c) => OverwriteKeepsIff(dag, s.before, s.after.wt.objects, r, c);
    }
  }

  /** From moment `n` on, each step of our own loses nothing exactly when it is spared. */
  ghost predicate LosesAsTold(dag: Dag, log: seq<Step>, n: nat) {
    forall k :: n <= k < |log| && log[k].Own() ==> (Lossless(dag, log[k].before, log[k].after) <==> Spared(dag, log[k]))
  }

  /** An unbroken history from `entry` to `now`; our own steps lose nothing unless exposed. */
  ghost predicate Chain(dag: Dag, entry: World, log: seq<Step>, now: World) {
    && (log == [] ==> entry == now)
    && (log != [] ==> log[0].before == entry && log[|log| - 1].after == now)
    && (forall i :: 0 < i < |log| ==> log[i].before == log[i - 1].after)
    && (forall i :: 0 <= i < |log| ==> StepOk(dag, log[i]))
  }

  /** The world after the first `k` steps. */
  ghost function Moment(entry: World, log: seq<Step>, k: nat): World
    requires k <= |log|
  {
    if k == 0 then entry else log[k - 1].after
  }

  lemma ChainGrows(dag: Dag, entry: World, log: seq<Step>, s: Step)
    requires Chain(dag, entry, log, s.before) && StepOk(dag, s)
    ensures Chain(dag, entry, log + [s], s.after)
  {
    hide StepOk;
    var longer := log + [s];
    forall i | 0 <= i < |longer|
      ensures StepOk(dag, longer[i])
    {
      assert i < |log| ==> longer[i] == log[i];
    }
  }

  /**
   * A commit held at the start is held at every later moment, wherever the call
   * was cut short, unless an outside step lost that commit, or one of our own
   * that is not spared.
   */
  lemma {:induction false} NothingLostAnywhere(dag: Dag, entry: World, log: seq<Step>, now: World, k: nat, c: Sha)
    requires dag.Valid() && Chain(dag, entry, log, now) && k < |log|
    requires forall i :: 0 <= i < |log| && !Spared(dag, log[i]) && Held(dag, log[i].before, c) ==>
              Held(dag, log[i].after, c)
    requires Held(dag, entry, c)
    ensures Held(dag, log[k].after, c)
  {
    hide Held, Spared;
    if k > 0 {
      NothingLostAnywhere(dag, entry, log, now, k - 1, c);
      assert log[k].before == log[k - 1].after;
    }
    assert StepOk(dag, log[k]);
    if Spared(dag, log[k]) {
      SparedIsOwn(dag, log[k]);
      OwnStepKeepsIff(dag, log[k]);
    }
  }

  lemma SparedIsOwn(dag: Dag, s: Step)
    requires Spared(dag, s)
    ensures s.Own()
  {
  }

  datatype AliasRead = Conflict | Absent | Found(ref: Ref, sha: Sha)

  /** Canonical spelling first, then the legacy one; different commits conflict. */
  function Alias(wt: Repo, kind: AnchorKind, run: nat): AliasRead {
    Resolved(kind, run, wt.Get(Anchor(kind, run, false)), wt.Get(Anchor(kind, run, true)))
  }

  /** What the lookups of the two spellings amount to; one that was not answered counts as absent. */
  function Resolved(kind: AnchorKind, run: nat, canonical: Option<Sha>, legacy: Option<Sha>): AliasRead {
    match (canonical, legacy)
    case (Some(c), Some(l)) => if c == l then Found(Anchor(kind, run, false), c) else Conflict
    case (Some(c), None) => Found(Anchor(kind, run, false), c)
    case (None, Some(l)) => Found(Anchor(kind, run, true), l)
    case (None, None) => Absent
  }

  predicate Names(a: AliasRead, c: Sha) {
    a.Found? && a.sha == c
  }

  /** Spellings that disagree conflict; where none does, what one of them names is found, the canonical one first. */
  lemma AliasTells(wt: Repo, kind: AnchorKind, run: nat)
    ensures
      var canonical, legacy := wt.Get(Anchor(kind, run, false)), wt.Get(Anchor(kind, run, true));
      var read := Alias(wt, kind, run);
      && (read == Conflict <==> None !in {canonical, legacy} && canonical != legacy)
      && (read == Absent <==> canonical == None && legacy == None)
      && (read.Found? ==>
            && Some(read.sha) in {canonical, legacy}
            && read.ref == Anchor(kind, run, canonical == None))
  {
  }

  /** Every anchor still names its commit. */
  ghost predicate AnchorsStay(a: World, b: World) {
    forall r: Ref :: r.Anchor? && a.wt.Get(r).Some? ==> b.wt.Get(r) == a.wt.Get(r)
  }

  /**
   * The checked-out branch, files and refs are as before, but for private anchors,
   * which name commits that already existed.
   */
  ghost predicate WorktreeUndisturbed(a: World, b: World) {
    && b.head == a.head && b.files == a.files && b.busy == a.busy && b.remote == a.remote
    && (forall r: Ref :: !r.Anchor? ==> b.wt.Get(r) == a.wt.Get(r))
    && (forall r: Ref :: r.Anchor? && a.wt.Get(r).Some? ==> b.wt.Get(r).Some?)
    && (forall r: Ref :: r.Anchor? && b.wt.Get(r).Some? && b.wt.Get(r) != a.wt.Get(r) ==>
         b.wt.Get(r).value in a.wt.objects + a.gate.objects)
    && b.wt.objects + b.gate.objects == a.wt.objects + a.gate.objects
    && a.wt.objects <= b.wt.objects && a.gate.objects <= b.gate.objects
  }

  /** And every gate ref but its staging refs is as before. */
  ghost predicate Undisturbed(a: World, b: World) {
    WorktreeUndisturbed(a, b) && forall r: Ref :: !r.Staging? ==> b.gate.Get(r) == a.gate.Get(r)
  }

  /** And so is every gate ref but its staging refs and one branch. */
  ghost predicate OnlyGateMoved(a: World, b: World, branch: nat, to: Sha) {
    && WorktreeUndisturbed(a, b)
    && (forall r: Ref :: !r.Staging? && r != Branch(branch) ==> b.gate.Get(r) == a.gate.Get(r))
    && b.gate.Get(Branch(branch)) == Some(to)
  }

  lemma UndisturbedByAnchor(w: World, r: Ref, c: Sha)
    requires r.Anchor? && c in w.wt.objects
    ensures Undisturbed(w, w.(wt := w.wt.Put(r, c)))
  {
  }

  lemma UndisturbedByItself(w: World)
    ensures Undisturbed(w, w)
  {
  }

  lemma UndisturbedChains(a: World, b: World, c: World)
    requires Undisturbed(a, b) && Undisturbed(b, c)
    ensures Undisturbed(a, c)
  {
  }

  ghost predicate NoneOverwritten(log: seq<Step>, n: nat) {
    forall k :: n <= k < |log| ==> !log[k].actor.Overwrote?
  }

  /** While none is overwritten, the anchors go on naming their commits, whoever interferes. */
  lemma {:induction false} AnchorsStaySince(dag: Dag, entry: World, log: seq<Step>, now: World, n: nat, k: nat)
    requires Chain(dag, entry, log, now) && n <= k <= |log|
    requires forall i :: n <= i < k ==> !log[i].actor.Overwrote?
    ensures AnchorsStay(Moment(entry, log, n), Moment(entry, log, k))
    decreases k
  {
    if n < k {
      AnchorsStaySince(dag, entry, log, now, n, k - 1);
      assert StepOk(dag, log[k - 1]) && log[k - 1].before == Moment(entry, log, k - 1);
    }
  }

  // ----- watching one call -----

  function Outsiders(log: seq<Step>): nat {
    if log == [] then 0 else Outsiders(log[..|log| - 1]) + if log[|log| - 1].actor.Outside? then 1 else 0
  }

  lemma {:induction false} OutsidersSince(log: seq<Step>, n: nat)
    requires n <= |log|
    ensures Outsiders(log) >= Outsiders(log[..n])
    ensures Outsiders(log) > Outsiders(log[..n]) ==> exists k :: n <= k < |log| && log[k].actor.Outside?
    decreases |log|
  {
    if n == |log| {
      assert log[..n] == log;
    } else {
      var m := |log| - 1;
      assert log[..m][..n] == log[..n];
      OutsidersSince(log[..m], n);
      if Outsiders(log[..m]) > Outsiders(log[..n]) {
        var k :| n <= k < m && log[..m][k].actor.Outside?;
        assert log[k].actor.Outside?;
      }
    }
  }

  function Overwrites(log: seq<Step>): nat {
    if log == [] then 0 else Overwrites(log[..|log| - 1]) + if log[|log| - 1].actor.Overwrote? then 1 else 0
  }

  lemma {:induction false} OverwritesSince(log: seq<Step>, n: nat)
    requires n <= |log|
    ensures Overwrites(log) >= Overwrites(log[..n])
    ensures Overwrites(log) == Overwrites(log[..n]) <==> forall k :: n <= k < |log| ==> !log[k].actor.Overwrote?
    decreases |log|
  {
    if n == |log| {
      assert log[..n] == log;
    } else {
      var m := |log| - 1;
      assert log[..m][..n] == log[..n];
      OverwritesSince(log[..m], n);
      assert forall k :: n <= k < m ==> log[..m][k] == log[k];
    }
  }

  lemma OutsidersPush(log: seq<Step>, s: Step)
    ensures Outsiders(log + [s]) == Outsiders(log) + if s.actor.Outside? then 1 else 0
    ensures Overwrites(log + [s]) == Overwrites(log) + if s.actor.Overwrote? then 1 else 0
  {
    assert (log + [s])[..|log|] == log;
  }

  predicate MovesHead(s: Step) {
    s.after.HeadCommit() != s.before.HeadCommit()
  }

  /** Custody of some run is returned. */
  predicate Returns(s: Step) {
    exists i :: 0 <= i < |s.before.runs| && i < |s.after.runs| && !s.before.runs[i].returned && s.after.runs[i].returned
  }

  /** A gate ref other than a staging ref changes. */
  ghost predicate MovesGate(s: Step) {
    exists r: Ref :: !r.Staging? && s.after.gate.Get(r) != s.before.gate.Get(r)
  }

  /**
   * What one service call is about: the log position it began at, whether it has
   * turned to a run, the commit it may move HEAD to, the run it may stamp, the ref that pins the commit HEAD
   * leaves, whether a move may be taken back, and what it has done so far.
   */
  datatype Call = Call(start: nat, aimed: bool, goal: Sha, id: nat, pin: Ref, undo: bool, moving: bool,
      stamp: Option<nat>, gateMove: Option<nat>, exposure: Option<nat>)

  /** HEAD goes to the goal, from a commit the goal contains or the pin names; or back from the goal to that commit. */
  predicate HeadMoveOk(dag: Dag, call: Call, s: Step) {
    if s.actor.Exposed? then s.after.HeadCommit() == Some(call.goal)
    else
      || (&& s.after.HeadCommit() == Some(call.goal) && s.before.HeadCommit().Some?
          && (dag.Contains(call.goal, s.before.HeadCommit().value)
               || s.before.wt.Get(call.pin) == s.before.HeadCommit()))
      || (call.undo && s.before.HeadCommit() == Some(call.goal) && s.after.HeadCommit() == s.before.wt.Get(call.pin))
  }

  /** Between the moments `n` and `k` HEAD was at `c`, and then the worktree was clean. */
  ghost predicate Arrived(dag: Dag, entry: World, log: seq<Step>, n: nat, k: nat, c: Sha)
    requires k <= |log|
  {
    exists i, j :: n <= i <= j <= k && Moment(entry, log, i).HeadCommit() == Some(c) && Moment(entry, log, j).Clean(dag)
  }

  lemma ArrivedStays(dag: Dag, entry: World, log: seq<Step>, longer: seq<Step>, n: nat, k: nat, c: Sha)
    requires k <= |log| <= |longer| && forall i :: 0 <= i < |log| ==> longer[i] == log[i]
    ensures Arrived(dag, entry, log, n, k, c) <==> Arrived(dag, entry, longer, n, k, c)
  {
    assert forall i :: 0 <= i <= k ==> Moment(entry, longer, i) == Moment(entry, log, i);
    if Arrived(dag, entry, log, n, k, c) {
      var i, j :| n <= i <= j <= k && Moment(entry, log, i).HeadCommit() == Some(c) && Moment(entry, log, j).Clean(dag);
      assert Moment(entry, longer, i).HeadCommit() == Some(c) && Moment(entry, longer, j).Clean(dag);
    }
    if Arrived(dag, entry, longer, n, k, c) {
      var i, j :| n <= i <= j <= k && Moment(entry, longer, i).HeadCommit() == Some(c)
          && Moment(entry, longer, j).Clean(dag);
      assert Moment(entry, log, i).HeadCommit() == Some(c) && Moment(entry, log, j).Clean(dag);
    }
  }

  lemma ArrivedLater(dag: Dag, entry: World, log: seq<Step>, n: nat, k: nat, later: nat, c: Sha)
    requires k <= later <= |log| && Arrived(dag, entry, log, n, k, c)
    ensures Arrived(dag, entry, log, n, later, c)
  {
  }

  lemma ArrivedAt(dag: Dag, entry: World, log: seq<Step>, n: nat, i: nat, j: nat, c: Sha)
    requires n <= i <= j <= |log| && Moment(entry, log, i).HeadCommit() == Some(c) && Moment(entry, log, j).Clean(dag)
    ensures Arrived(dag, entry, log, n, |log|, c)
  {
  }

  /** The stamp of run `id`: no more than its custody mark changes. */
  predicate StampStep(s: Step, id: nat) {
    s.actor.Ours? && s.after == s.before.(runs := Stamped(s.before.runs, id))
  }

  /** Our step `k` does only what the call is about. */
  ghost predicate InBounds(dag: Dag, call: Call, s: Step, k: nat) {
    && (MovesHead(s) ==> call.moving && HeadMoveOk(dag, call, s))
    && (Returns(s) ==> call.stamp == Some(k))
    && (MovesGate(s) ==> call.gateMove == Some(k))
    && (s.actor.Exposed? ==> call.exposure == Some(k))
    && (s.actor.Overwrote? ==> MayWrite(call, s.actor.anchor))
  }

  /** The call turned to a run, and may write this anchor of it. */
  predicate MayWrite(call: Call, r: Ref) {
    call.aimed && Overwritable(call.id, r)
  }

  /** The anchors of a run that are written without an expected old value. */
  predicate Overwritable(id: nat, r: Ref) {
    r.Anchor? && !r.legacy && r.run == id && r.kind in {RecoverAnchor, AbandonedAnchor, SyncAnchor}
  }

  /** All our steps since the call began are in bounds; a moving call stamps only after it arrived. */
  ghost predicate Watched(dag: Dag, entry: World, log: seq<Step>, call: Call) {
    && call.start <= |log|
    && (forall k :: call.start <= k < |log| && log[k].Own() ==> InBounds(dag, call, log[k], k))
    && (call.stamp.Some? ==>
          && call.start <= call.stamp.value < |log| && StampStep(log[call.stamp.value], call.id)
          && (call.moving ==> Arrived(dag, entry, log, call.start, call.stamp.value, call.goal)))
    && (call.gateMove.Some? ==> call.start <= call.gateMove.value < |log| && log[call.gateMove.value].actor.Ours?)
  }

  /** One more step, which is outside or in bounds; `call` may gain a stamp or a gate move by it. */
  lemma WatchedGrows(dag: Dag, entry: World, log: seq<Step>, call: Call, s: Step, now: Call)
    requires Watched(dag, entry, log, call)
    requires now == call.(stamp := now.stamp, gateMove := now.gateMove, exposure := now.exposure)
    requires now.stamp == call.stamp || (call.stamp.None? && now.stamp == Some(|log|) && StampStep(s, call.id)
                                         && (call.moving ==> Arrived(dag, entry, log, call.start, |log|, call.goal)))
    requires now.gateMove == call.gateMove || (call.gateMove.None? && now.gateMove == Some(|log|) && s.actor.Ours?)
    requires now.exposure == call.exposure || (call.exposure.None? && now.exposure == Some(|log|))
    requires s.Own() ==> InBounds(dag, now, s, |log|)
    ensures Watched(dag, entry, log + [s], now)
  {
    hide MovesHead, Returns, MovesGate, Arrived, StampStep;
    var longer := log + [s];
    forall k | now.start <= k < |longer| && longer[k].Own()
      ensures InBounds(dag, now, longer[k], k)
    {
      if k < |log| {
        assert longer[k] == log[k];
        assert InBounds(dag, call, log[k], k);
      }
    }
    if now.stamp.Some? && now.moving {
      ArrivedStays(dag, entry, log, longer, now.start, now.stamp.value, now.goal);
    }
  }

  class Session {
    const dag: Dag
    const target: Target
    const hasGate: bool
    ghost const entry: World
    var w: World
    var script: Script
    ghost var log: seq<Step>
    ghost var outsiders: nat
    ghost var overwrites: nat
    ghost var call: Call

    constructor (dag: Dag, target: Target, hasGate: bool, w: World, script: Script)
      requires dag.Valid() && w.Valid(dag)
      ensures Valid() && entry == w && this.w == w && this.script == script && log == []
      ensures this.dag == dag && this.target == target && this.hasGate == hasGate
    {
      this.dag, this.target, this.hasGate := dag, target, hasGate;
      this.entry, this.w, this.script, this.log := w, w, script, [];
      this.outsiders, this.overwrites := 0, 0;
      this.call := Call(0, false, NO_SHA, 0, Branch(0), false, false, None, None, None);
    }

    ghost predicate Valid()
      reads this
    {
      && dag.Valid() && w.Valid(dag)
      && Chain(dag, entry, log, w) && w == Moment(entry, log, |log|)
      && outsiders == Outsiders(log) && overwrites == Overwrites(log) && Watched(dag, entry, log, call)
      && (Smooth(script) ==> Calm(script)) && (Calm(script) ==> Awake(script)) && (Calm(script) ==> Sighted(script))
      && (Blind(script) ==> Awake(script)) && (Awake(script) ==> Quiet(script))
    }

    lemma Levels()
      requires Valid()
      ensures (Smooth(script) ==> Calm(script)) && (Calm(script) ==> Awake(script))
                && (Calm(script) ==> Sighted(script))
      ensures (Blind(script) ==> Awake(script)) && (Awake(script) ==> Quiet(script))
    {
    }

    lemma Now()
      requires Valid()
      ensures w == Moment(entry, log, |log|)
    {
    }

    lemma Recorded()
      requires Valid()
      ensures Chain(dag, entry, log, w) && w == Moment(entry, log, |log|)
    {
    }

    lemma Counted()
      requires Valid()
      ensures outsiders == Outsiders(log) && overwrites == Overwrites(log)
    {
    }

    lemma WorldIsValid()
      requires Valid()
      ensures dag.Valid() && w.Valid(dag)
    {
    }

    lemma DagIsValid()
      requires Valid()
      ensures dag.Valid()
    {
    }

    lemma Started()
      requires Valid()
      ensures call.start <= |log|
    {
    }

    /** A commit in the worktree repository brings its whole history with it, and HEAD is at one. */
    lemma Inside(c: Sha, a: Sha)
      requires Valid()
      ensures w.HeadCommit() == Some(c) ==> c in w.wt.objects && c in dag.history
      ensures c in w.wt.objects && dag.Contains(c, a) ==> a in w.wt.objects
    {
    }

    /** What a ref names is there. */
    lemma Named(r: Ref, c: Sha)
      requires Valid()
      ensures w.wt.Get(r) == Some(c) ==> c in w.wt.objects
    {
    }

    /** Every commit in the worktree repository has a tree. */
    lemma InsideTrees(c: Sha)
      requires Valid()
      ensures c in w.wt.objects ==> c in dag.trees
    {
    }

    lemma RunsDistinct()
      requires Valid()
      ensures DistinctIds(w.runs)
    {
    }

    lemma SelfContained(c: Sha)
      requires Valid() && c in dag.history
      ensures dag.Contains(c, c)
    {
    }

    /** Every command leaves the history valid, only extends it, and keeps a quiet script quiet. */
    twostate predicate Grown()
      reads this
    {
      && Valid()
      && |old(log)| <= |log|
      && (forall i :: 0 <= i < |old(log)| ==> log[i] == old(log)[i])
      && old(outsiders) <= outsiders && old(overwrites) <= overwrites
      && (Awake(old(script)) ==> Awake(script)) && (Blind(old(script)) ==> Blind(script))
      && (Quiet(old(script)) ==> Quiet(script) && outsiders == old(outsiders))
      && script.rest == old(script).rest
      && (Calm(old(script)) ==> Calm(script)) && (Sighted(old(script)) ==> Sighted(script))
      && (Smooth(old(script)) ==> Smooth(script))
    }

    /** And stays with the same call. */
    twostate predicate SameCall()
      reads this
    {
      Grown() && call.start == old(call).start && call.aimed == old(call).aimed && call.goal == old(call).goal
          && call.id == old(call).id
    }

    /** And overwrites no anchor when every query is answered, whoever interferes. */
    twostate predicate Ahead()
      reads this
    {
      SameCall() && Tidy()
    }

    /** And does nothing of what the call watches for but moving HEAD within bounds. */
    twostate predicate Onward()
      reads this
    {
      Grown() && call == old(call) && overwrites == old(overwrites)
    }

    /** When every query is answered, no anchor is overwritten. */
    twostate predicate Tidy()
      reads this
    {
      Sighted(old(script)) ==> overwrites == old(overwrites)
    }

    /** It may have written anchors, but overwrites none when every query is answered. */
    twostate predicate Anchoring()
      reads this
    {
      Grown() && call == old(call) && Tidy()
    }

    /** No outside step came in between. */
    twostate predicate Alone()
      reads this
    {
      outsiders == old(outsiders)
    }

    /** The call has done nothing yet that is watched. */
    ghost predicate Untouched()
      reads this
    {
      !call.moving && call.stamp.None? && call.gateMove.None? && call.exposure.None?
    }

    /** A service call begins. */
    ghost method Begin()
      requires Valid()
      modifies this`call
      ensures Grown() && Untouched() && !call.aimed && call.start == |log|
    {
      hide Chain, Moment, Outsiders, Overwrites, Quiet, Awake, Calm, Sighted, Smooth, Blind, World.Valid, Dag.Valid;
      call := Call(|log|, false, NO_SHA, 0, Branch(0), false, false, None, None, None);
    }

    /** The call turns to this commit and this run. */
    ghost method Aim(goal: Sha, id: nat)
      requires Valid() && Untouched() && !call.aimed
      modifies this`call
      ensures Grown() && Untouched() && call == old(call).(aimed := true, goal := goal, id := id)
    {
      hide Chain, Moment, Outsiders, Overwrites, Quiet, Awake, Calm, Sighted, Smooth, Blind, World.Valid, Dag.Valid;
      call := call.(aimed := true, goal := goal, id := id);
    }

    /** From here on the call may move HEAD, leaving a commit that `pin` names. */
    ghost method SetOut(pin: Ref, undo: bool)
      requires Valid() && Untouched()
      modifies this`call
      ensures Ahead() && call == old(call).(pin := pin, undo := undo, moving := true)
    {
      hide Chain, Moment, Outsiders, Overwrites, Quiet, Awake, Calm, Sighted, Smooth, Blind, World.Valid, Dag.Valid;
      call := call.(pin := pin, undo := undo, moving := true);
    }

    twostate predicate AnchorsKept()
      reads this
    {
      forall r: Ref :: IsPrivate(r) ==> w.wt.Get(r) == old(w).wt.Get(r)
    }

    /** Outside actors take their turn. */
    method Await() returns (turn: Turn)
      requires Valid()
      modifies this
      ensures Onward()
      ensures AnchorsKept()
      ensures Alone() ==> w == old(w) && log == old(log)
      ensures Awake(old(script)) ==> !turn.deaf
      ensures Sighted(old(script)) ==> !turn.deaf && !turn.blind
      ensures Blind(old(script)) ==> turn.blind && !turn.fails
      ensures Smooth(old(script)) ==> !turn.fails && turn.pick == script.rest.pick
    {
      hide Watched, Outsiders, Overwrites, Moment, Chain, Lossless, InBounds, Arrived, StampStep;
      turn := script.rest;
      if script.turns != [] {
        turn := script.turns[0];
        script := script.(turns := script.turns[1..]);
      }
      ScriptAdvances(old(script), script, turn);
      if turn.outside.Some? && Allowed(dag, w, turn.outside.value) {
        Record(turn.outside.value, Outside, call);
        w := turn.outside.value;
      }
    }

    static lemma ScriptAdvances(a: Script, b: Script, turn: Turn)
      requires if a.turns == [] then b == a && turn == a.rest else turn == a.turns[0] && b == a.(turns := a.turns[1..])
      ensures a.Has(turn) && forall t :: b.Has(t) ==> a.Has(t)
    {
    }

    /** One more step is on record. */
    ghost method Record(after: World, actor: Actor, now: Call)
      requires Valid() && StepOk(dag, Step(w, after, actor))
      requires now == call.(stamp := now.stamp, gateMove := now.gateMove, exposure := now.exposure)
      requires now.stamp == call.stamp
                || (call.stamp.None? && now.stamp == Some(|log|) && StampStep(Step(w, after, actor), call.id)
                                           && (call.moving ==> Arrived(dag, entry, log, call.start, |log|, call.goal)))
      requires now.gateMove == call.gateMove || (call.gateMove.None? && now.gateMove == Some(|log|) && actor.Ours?)
      requires now.exposure == call.exposure || (call.exposure.None? && now.exposure == Some(|log|))
      requires !actor.Outside? ==> InBounds(dag, now, Step(w, after, actor), |log|)
      modifies this`log, this`outsiders, this`overwrites, this`call
      ensures log == old(log) + [Step(w, after, actor)] && call == now
      ensures outsiders == old(outsiders) + if actor.Outside? then 1 else 0
      ensures overwrites == old(overwrites) + if actor.Overwrote? then 1 else 0
      ensures Chain(dag, entry, log, after) && Moment(entry, log, |log|) == after && Watched(dag, entry, log, call)
      ensures outsiders == Outsiders(log) && overwrites == Overwrites(log)
    {
      hide InBounds, StepOk, StampStep, Arrived;
      ChainGrows(dag, entry, log, Step(w, after, actor));
      WatchedGrows(dag, entry, log, call, Step(w, after, actor), now);
      OutsidersPush(log, Step(w, after, actor));
      log := log + [Step(w, after, actor)];
      outsiders := outsiders + if actor.Outside? then 1 else 0;
      overwrites := overwrites + if actor.Overwrote? then 1 else 0;
      call := now;
    }

    /** The effect of one command of ours. */
    method Take(after: World, ghost actor: Actor, ghost now: Call)
      requires Valid() && StepOk(dag, Step(w, after, actor)) && !actor.Outside?
      requires now == call.(stamp := now.stamp, gateMove := now.gateMove, exposure := now.exposure)
      requires now.stamp == call.stamp
                || (call.stamp.None? && now.stamp == Some(|log|) && StampStep(Step(w, after, actor), call.id)
                                           && (call.moving ==> Arrived(dag, entry, log, call.start, |log|, call.goal)))
      requires now.gateMove == call.gateMove || (call.gateMove.None? && now.gateMove == Some(|log|) && actor.Ours?)
      requires now.exposure == call.exposure || (call.exposure.None? && now.exposure == Some(|log|))
      requires InBounds(dag, now, Step(w, after, actor), |log|)
      modifies this
      ensures Grown() && Alone() && call == now && w == after && script == old(script)
      ensures log == old(log) + [Step(old(w), after, actor)]
      ensures overwrites == old(overwrites) + if actor.Overwrote? then 1 else 0
    {
      hide Watched, Outsiders, Overwrites, Chain, InBounds, StampStep, Arrived, Lossless;
      Record(after, actor, now);
      w := after;
    }

    /** The effect of one command of ours that neither moves HEAD or the gate's branches nor returns custody. */
    method Become(after: World)
      requires Valid() && after.Valid(dag) && Lossless(dag, w, after)
      requires after.HeadCommit() == w.HeadCommit() && AnchorsStay(w, after)
      requires !Returns(Step(w, after, Ours)) && !MovesGate(Step(w, after, Ours))
      modifies this
      ensures Onward() && Alone() && w == after && script == old(script)
      ensures log == old(log) + [Step(old(w), after, Ours)]
    {
      hide Valid, AnchorsStay, Lossless, Returns, MovesGate, Arrived;
      WorldIsValid();
      Take(after, Ours, call);
    }

    /** The effect of one command that may move HEAD. */
    method BecomeMoved(after: World, ghost actor: Actor)
      requires Valid() && StepOk(dag, Step(w, after, actor)) && actor in {Ours, Exposed}
      requires actor.Exposed? ==> call.exposure.None?
      requires MovesHead(Step(w, after, actor)) ==> call.moving && HeadMoveOk(dag, call, Step(w, after, actor))
      requires after.runs == w.runs && after.gate == w.gate
      modifies this
      ensures Ahead() && Alone() && overwrites == old(overwrites) && w == after && script == old(script)
      ensures call == if actor.Exposed? then old(call).(exposure := Some(|old(log)|)) else old(call)
      ensures log == old(log) + [Step(old(w), after, actor)]
    {
      hide Valid, StepOk, Arrived;
      Take(after, actor, if actor.Exposed? then call.(exposure := Some(|log|)) else call);
    }

    // ----- queries -----

    method CurrentBranch() returns (b: Option<nat>)
      requires Valid()
      modifies this
      ensures Onward() && AnchorsKept()
      ensures Alone() ==> w == old(w) && log == old(log)
      ensures b.Some? ==> w.head == On(b.value)
      ensures Awake(old(script)) && w.head.On? ==> b == Some(w.head.branch)
    {
      hide Chain, Lossless, Quiet, Awake, Calm, Sighted, Smooth, Blind;
      var t := Await();
      b := if t.deaf || !w.head.On? then None else Some(w.head.branch);
    }

    method HeadSha() returns (c: Option<Sha>)
      requires Valid()
      modifies this
      ensures Onward() && AnchorsKept()
      ensures Alone() ==> w == old(w) && log == old(log)
      ensures c.Some? ==> c == w.HeadCommit() && c.value in w.wt.objects && c.value in dag.history
      ensures Awake(old(script)) ==> c == w.HeadCommit()
    {
      hide Chain, Lossless, Quiet, Awake, Calm, Sighted, Smooth, Blind;
      var t := Await();
      c := if t.deaf then None else w.HeadCommit();
    }

    method WorktreeClean() returns (clean: bool)
      requires Valid()
      modifies this
      ensures Onward() && AnchorsKept()
      ensures Alone() ==> w == old(w) && log == old(log)
      ensures clean ==> w.Clean(dag)
      ensures Awake(old(script)) ==> clean == w.Clean(dag)
    {
      hide Chain, Lossless, Quiet, Awake, Calm, Sighted, Smooth, Blind;
      var t := Await();
      clean := !t.deaf && w.Clean(dag);
    }

    method GateHead(branch: nat) returns (c: Option<Sha>)
      requires Valid()
      modifies this
      ensures Onward() && AnchorsKept()
      ensures Alone() ==> w == old(w) && log == old(log)
      ensures c.Some? ==>
                hasGate && c == w.gate.Get(Branch(branch)) && c.value in w.gate.objects && c.value in dag.history
                && c.value != NO_SHA
      ensures Awake(old(script)) && hasGate ==> c == w.gate.Get(Branch(branch))
    {
      hide Chain, Lossless, Quiet, Awake, Calm, Sighted, Smooth, Blind;
      var t := Await();
      c := if t.deaf || !hasGate then None else w.gate.Get(Branch(branch));
    }

    method Has(c: Sha) returns (yes: bool)
      requires Valid()
      modifies this
      ensures Onward() && AnchorsKept()
      ensures Alone() ==> w == old(w) && log == old(log)
      ensures yes ==> c in w.wt.objects
      ensures Awake(old(script)) ==> yes == (c in w.wt.objects)
    {
      hide Chain, Lossless, Quiet, Awake, Calm, Sighted, Smooth, Blind;
      var t := Await();
      yes := !t.deaf && c in w.wt.objects;
    }

    method GateHas(c: Sha) returns (yes: bool)
      requires Valid()
      modifies this
      ensures Onward() && AnchorsKept()
      ensures Alone() ==> w == old(w) && log == old(log)
      ensures yes ==> hasGate && c in w.gate.objects
      ensures Awake(old(script)) && hasGate ==> yes == (c in w.gate.objects)
    {
      hide Chain, Lossless, Quiet, Awake, Calm, Sighted, Smooth, Blind;
      var t := Await();
      yes := !t.deaf && hasGate && c in w.gate.objects;
    }

    /** `merge-base --is-ancestor a d` in the worktree repository. */
    method IsAncestor(a: Sha, d: Sha) returns (yes: bool)
      requires Valid()
      modifies this
      ensures Onward() && AnchorsKept()
      ensures Alone() ==> w == old(w) && log == old(log)
      ensures yes ==> d in w.wt.objects && dag.Contains(d, a)
      ensures Awake(old(script)) ==> yes == (d in w.wt.objects && dag.Contains(d, a))
    {
      hide Chain, Lossless, Quiet, Awake, Calm, Sighted, Smooth, Blind;
      var t := Await();
      yes := !t.deaf && d in w.wt.objects && dag.Contains(d, a);
    }

    method GateIsAncestor(a: Sha, d: Sha) returns (yes: bool)
      requires Valid()
      modifies this
      ensures Onward() && AnchorsKept()
      ensures Alone() ==> w == old(w) && log == old(log)
      ensures yes ==> d in w.gate.objects && dag.Contains(d, a)
      ensures Awake(old(script)) ==> yes == (d in w.gate.objects && dag.Contains(d, a))
    {
      hide Chain, Lossless, Quiet, Awake, Calm, Sighted, Smooth, Blind;
      var t := Await();
      yes := !t.deaf && d in w.gate.objects && dag.Contains(d, a);
    }

    /** `rev-parse` of a canonical private ref. */
    method AnchorCommit(kind: AnchorKind, run: nat) returns (c: Option<Sha>)
      requires Valid()
      modifies this
      ensures Onward() && AnchorsKept()
      ensures Alone() ==> w == old(w) && log == old(log)
      ensures c.Some? ==> c == w.wt.Get(Anchor(kind, run, false))
      ensures Awake(old(script)) ==> c == w.wt.Get(Anchor(kind, run, false))
    {
      hide Chain, Lossless, Quiet, Awake, Calm, Sighted, Smooth, Blind;
      var t := Await();
      c := if t.deaf then None else w.wt.Get(Anchor(kind, run, false));
    }

    method StagedCommit(run: nat) returns (c: Option<Sha>)
      requires Valid()
      modifies this
      ensures Onward() && AnchorsKept()
      ensures Alone() ==> w == old(w) && log == old(log)
      ensures c.Some? ==> c == w.gate.Get(Staging(run, false))
      ensures Awake(old(script)) ==> c == w.gate.Get(Staging(run, false))
    {
      hide Chain, Lossless, Quiet, Awake, Calm, Sighted, Smooth, Blind;
      var t := Await();
      c := if t.deaf then None else w.gate.Get(Staging(run, false));
    }

    /** `merge-base`: some commit reachable from both heads. */
    method MergeBase(a: Sha, b: Sha) returns (c: Option<Sha>)
      requires Valid()
      modifies this
      ensures Onward() && AnchorsKept()
      ensures Alone() ==> w == old(w) && log == old(log)
      ensures c.Some? ==> a in w.wt.objects && b in w.wt.objects && dag.Contains(a, c.value) && dag.Contains(b, c.value)
      ensures Smooth(old(script)) && {a, b} <= w.wt.objects ==>
                var pick := script.rest.pick; c == if dag.Contains(a, pick) && dag.Contains(b, pick) then Some(pick)
                    else None
    {
      hide Chain, Lossless, Quiet, Awake, Calm, Sighted, Smooth, Blind;
      var t := Await();
      c := if t.deaf || a !in w.wt.objects || b !in w.wt.objects || !dag.Contains(a, t.pick) || !dag.Contains(b, t.pick)
           then None else Some(t.pick);
    }

    /** `merge-tree` of `theirs` into `ours` yields exactly the tree of `ours`. */
    method MergeIsNoop(base: Sha, ours: Sha, theirs: Sha) returns (yes: bool)
      requires Valid()
      modifies this
      ensures Onward() && AnchorsKept()
      ensures Alone() ==> w == old(w) && log == old(log)
      ensures yes ==>
                {base, ours, theirs} <= dag.trees.Keys
                && CarriesAll(dag.trees[base], dag.trees[ours], dag.trees[theirs])
      ensures Awake(old(script)) && {base, ours, theirs} <= w.wt.objects * dag.trees.Keys
                && CarriesAll(dag.trees[base], dag.trees[ours], dag.trees[theirs]) ==>
                yes
    {
      hide Chain, Lossless, Quiet, Awake, Calm, Sighted, Smooth, Blind;
      var t := Await();
      yes := !t.deaf && {base, ours, theirs} <= w.wt.objects
             && MergePreserves(dag.trees[base], dag.trees[ours], dag.trees[theirs]);
      if {base, ours, theirs} <= dag.trees.Keys {
        MergeDecidesContainment(dag.trees[base], dag.trees[ours], dag.trees[theirs]);
      }
    }

    // ----- private anchors -----

    /** `rev-parse` of one spelling of a private ref, by the lookup that takes any failure for an absent ref. */
    method ReadSpelling(r: Ref) returns (c: Option<Sha>)
      requires Valid() && r.Anchor?
      modifies this
      ensures Onward() && AnchorsKept()
      ensures Alone() ==> w == old(w) && log == old(log)
      ensures c.Some? ==> c == w.wt.Get(r)
      ensures Sighted(old(script)) ==> c == w.wt.Get(r)
      ensures Blind(old(script)) ==> c.None?
    {
      hide Chain, Lossless, Quiet, Awake, Calm, Sighted, Smooth, Blind;
      var t := Await();
      c := if t.deaf || t.blind then None else w.wt.Get(r);
    }

    /** `resolvePrivateRefAlias`: a spelling whose lookup fails counts as absent. */
    method ReadAlias(kind: AnchorKind, run: nat) returns (a: AliasRead)
      requires Valid()
      modifies this
      ensures Onward() && AnchorsKept()
      ensures Alone() ==> w == old(w) && log == old(log)
      ensures a.Found? ==>
                a.ref in {Anchor(kind, run, false), Anchor(kind, run, true)} && w.wt.Get(a.ref) == Some(a.sha)
      ensures a.Conflict? ==> Alias(w.wt, kind, run).Conflict?
      ensures Sighted(old(script)) ==> a == Alias(w.wt, kind, run)
      ensures Blind(old(script)) ==> a.Absent?
    {
      hide Valid, Quiet, Awake, Calm, Sighted, Smooth, Blind;
      Levels();
      var canonical := ReadSpelling(Anchor(kind, run, false));
      var legacy := ReadSpelling(Anchor(kind, run, true));
      a := Resolved(kind, run, canonical, legacy);
    }

    /**
     * The effect of a write of anchor `r` with no expected old value: if the
     * anchor named another commit, that is on record.
     */
    method WriteAnchor(r: Ref, c: Sha, objects: set<Sha>)
      requires Valid() && MayWrite(call, r)
      requires w.wt.objects <= objects && RepoOk(dag, Rewritten(w.wt, objects, r, c))
      modifies this
      ensures Grown() && Alone() && call == old(call) && script == old(script)
      ensures w == old(w).(wt := Rewritten(old(w).wt, objects, r, c))
      ensures overwrites == old(overwrites) + if Taken(old(w).wt, r, c) then 1 else 0
    {
      hide Valid, Lossless, Quiet, Awake, Calm, Sighted, Smooth, Blind;
      WorldIsValid();
      var wt := Rewritten(w.wt, objects, r, c);
      if Taken(w.wt, r, c) {
        OverwriteInBounds(dag, call, w, wt, r, c, |log|);
        Take(w.(wt := wt), Overwrote(r, c), call);
      } else {
        ExtendWorktree(wt);
      }
    }

    /** `update-ref` of a canonical private ref, whatever it names. */
    method PutAnchor(kind: AnchorKind, run: nat, c: Sha) returns (ok: bool)
      requires Valid() && MayWrite(call, Anchor(kind, run, false))
      modifies this
      ensures Grown() && call == old(call)
      ensures ok ==> w.wt.Get(Anchor(kind, run, false)) == Some(c)
      ensures overwrites == old(overwrites) + if ok && Taken(old(w).wt, Anchor(kind, run, false), c) then 1 else 0
      ensures Alone() ==> Undisturbed(old(w), w) && w.runs == old(w.runs)
      ensures Alone() ==> w == (if ok then old(w).(wt := old(w).wt.Put(Anchor(kind, run, false), c)) else old(w))
      ensures Smooth(old(script)) || Blind(old(script)) ==> ok == (c in old(w).wt.objects)
      ensures forall r: Ref :: IsPrivate(r) && r != Anchor(kind, run, false) ==> w.wt.Get(r) == old(w).wt.Get(r)
    {
      hide Valid, Lossless, Quiet, Awake, Calm, Sighted, Smooth, Blind, Undisturbed;
      Levels();
      var t := Await();
      ok := !t.fails && c in w.wt.objects;
      UndisturbedByItself(w);
      if ok {
        UndisturbedByAnchor(w, Anchor(kind, run, false), c);
        WorldIsValid();
        WriteAnchor(Anchor(kind, run, false), c, w.wt.objects);
      }
    }

    /** Refs and objects of the worktree repository only grow. */
    method ExtendWorktree(wt: Repo)
      requires Valid() && RepoOk(dag, wt)
      requires w.wt.objects <= wt.objects
      requires forall r :: r in w.wt.refs ==> r in wt.refs && wt.refs[r] == w.wt.refs[r]
      requires forall r: Ref :: !r.Anchor? ==> wt.Get(r) == w.wt.Get(r)
      modifies this
      ensures Onward() && Alone() && w == old(w).(wt := wt) && script == old(script)
    {
      hide Valid, Lossless, Quiet, Awake, Calm, Sighted, Smooth, Blind;
      WorldIsValid();
      var after := w.(wt := wt);
      forall r | r in w.wt.refs && !r.Staging? ensures Held(dag, after, w.wt.refs[r]) { RefHolds(dag, after.wt, r); }
      forall r | r in w.gate.refs
          && !r.Staging? ensures Held(dag, after, w.gate.refs[r]) { RefHolds(dag, after.gate, r); }
      RefsSuffice(dag, w, after);
      Become(after);
    }

    /** Create-only `update-ref`: refuses when the canonical ref exists. */
    method CreateAnchor(kind: AnchorKind, run: nat, c: Sha) returns (ok: bool)
      requires Valid()
      modifies this
      ensures Onward()
      ensures ok ==> old(w).wt.Get(Anchor(kind, run, false)).None? && w.wt.Get(Anchor(kind, run, false)) == Some(c)
      ensures Alone() ==> Undisturbed(old(w), w) && w.runs == old(w.runs)
      ensures Alone() ==> w == (if ok then old(w).(wt := old(w).wt.Put(Anchor(kind, run, false), c)) else old(w))
      ensures Smooth(old(script)) && c in old(w).wt.objects && old(w).wt.Get(Anchor(kind, run, false)).None? ==> ok
      ensures forall r: Ref :: IsPrivate(r) && (r != Anchor(kind, run, false) || !ok) ==>
                w.wt.Get(r) == old(w).wt.Get(r)
    {
      hide Valid, Lossless, Quiet, Awake, Calm, Sighted, Smooth, Blind, Undisturbed;
      Levels();
      var t := Await();
      WorldIsValid();
      ok := !t.fails && c in w.wt.objects && Anchor(kind, run, false) !in w.wt.refs;
      UndisturbedByItself(w);
      if ok { UndisturbedByAnchor(w, Anchor(kind, run, false), c); }
      if ok { ExtendWorktree(w.wt.Put(Anchor(kind, run, false), c)); }
    }

    /** Forced fetch of the gate's branch, whatever commit it now is, into an anchor, whatever that names. */
    method FetchGateBranch(branch: nat, kind: AnchorKind, run: nat) returns (ok: bool)
      requires Valid() && MayWrite(call, Anchor(kind, run, false))
      modifies this
      ensures Grown() && call == old(call)
      ensures overwrites == old(overwrites) +
                            if ok && old(w).wt.Get(Anchor(kind, run, false)).Some?
                                && w.wt.Get(Anchor(kind, run, false)) != old(w).wt.Get(Anchor(kind, run, false))
                            then 1 else 0
      ensures Alone() ==> Undisturbed(old(w), w) && w.runs == old(w.runs)
      ensures Alone() ==>
                w == (if ok then old(w).(wt := Fetched(dag, old(w).wt, old(w).gate, Branch(branch),
                Anchor(kind, run, false))) else old(w))
      ensures ok && Alone() ==> Branch(branch) in old(w).gate.refs
      ensures Smooth(old(script)) && Branch(branch) in old(w).gate.refs ==> ok
      ensures forall r: Ref :: IsPrivate(r) && r != Anchor(kind, run, false) ==> w.wt.Get(r) == old(w).wt.Get(r)
    {
      hide Valid, Lossless, Quiet, Awake, Calm, Sighted, Smooth, Blind;
      Levels();
      var t := Await();
      WorldIsValid();
      ok := !t.fails && Branch(branch) in w.gate.refs;
      if ok {
        FetchIntoWorktree(dag, w, Branch(branch), Anchor(kind, run, false));
        WriteAnchor(Anchor(kind, run, false), w.gate.refs[Branch(branch)], w.wt.objects
            + dag.history[w.gate.refs[Branch(branch)]]);
      }
    }

    /** Forced fetch of the gate's staging ref into an anchor. */
    method FetchStaged(kind: AnchorKind, run: nat) returns (ok: bool)
      requires Valid() && MayWrite(call, Anchor(kind, run, false))
      modifies this
      ensures Grown() && call == old(call)
      ensures overwrites == old(overwrites) +
                            if ok && old(w).wt.Get(Anchor(kind, run, false)).Some?
                                && w.wt.Get(Anchor(kind, run, false)) != old(w).wt.Get(Anchor(kind, run, false))
                            then 1 else 0
      ensures Alone() ==> Undisturbed(old(w), w) && w.runs == old(w.runs)
      ensures Alone() ==>
                w == (if ok then old(w).(wt := Fetched(dag, old(w).wt, old(w).gate, Staging(run, true),
                Anchor(kind, run, false))) else old(w))
      ensures ok && Alone() ==> Staging(run, true) in old(w).gate.refs
      ensures Smooth(old(script)) && Staging(run, true) in old(w).gate.refs ==> ok
      ensures forall r: Ref :: IsPrivate(r) && r != Anchor(kind, run, false) ==> w.wt.Get(r) == old(w).wt.Get(r)
    {
      hide Valid, Lossless, Quiet, Awake, Calm, Sighted, Smooth, Blind;
      Levels();
      var t := Await();
      WorldIsValid();
      ok := !t.fails && Staging(run, true) in w.gate.refs;
      if ok {
        FetchIntoWorktree(dag, w, Staging(run, true), Anchor(kind, run, false));
        WriteAnchor(Anchor(kind, run, false), w.gate.refs[Staging(run, true)], w.wt.objects
            + dag.history[w.gate.refs[Staging(run, true)]]);
      }
    }

    // ----- gate staging refs -----

    method StageInGate(run: nat, c: Sha) returns (ok: bool)
      requires Valid()
      modifies this
      ensures Onward()
      ensures Alone() ==> Undisturbed(old(w), w) && w.runs == old(w.runs)
      ensures Alone() ==> w == (if ok then old(w).(gate := old(w).gate.Put(Staging(run, true), c)) else old(w))
      ensures Smooth(old(script)) && c in old(w).gate.objects ==> ok
      ensures AnchorsKept()
    {
      hide Valid, Lossless, Quiet, Awake, Calm, Sighted, Smooth, Blind;
      Levels();
      var t := Await();
      WorldIsValid();
      ok := !t.fails && c in w.gate.objects;
      if ok { Restage(w.gate.Put(Staging(run, true), c)); }
    }

    /** A gate-side fetch of the worktree's branch. */
    method StageLocal(run: nat, branch: nat) returns (ok: bool)
      requires Valid()
      modifies this
      ensures Onward()
      ensures Alone() ==> Undisturbed(old(w), w) && w.runs == old(w.runs)
      ensures Alone() ==>
                w == (if ok then old(w).(gate := Fetched(dag, old(w).gate, old(w).wt, Branch(branch),
                Staging(run, false))) else old(w))
      ensures ok && Alone() ==> Branch(branch) in old(w).wt.refs
      ensures Smooth(old(script)) && Branch(branch) in old(w).wt.refs ==> ok
      ensures AnchorsKept()
    {
      hide Valid, Lossless, Quiet, Awake, Calm, Sighted, Smooth, Blind;
      Levels();
      var t := Await();
      WorldIsValid();
      ok := !t.fails && Branch(branch) in w.wt.refs;
      if ok { Restage(Fetched(dag, w.gate, w.wt, Branch(branch), Staging(run, false))); }
    }

    /** Best-effort removal of a staging ref. */
    method Unstage(run: nat, forAnchor: bool)
      requires Valid()
      modifies this
      ensures Onward()
      ensures Alone() ==>
                Undisturbed(old(w), w) && w.runs == old(w.runs) && w.wt == old(w).wt
                && w.gate.objects == old(w).gate.objects
      ensures Alone() ==> |log| <= |old(log)| + 1
      ensures Smooth(old(script)) ==> w == old(w).(gate := old(w).gate.Drop(Staging(run, forAnchor)))
      ensures AnchorsKept()
    {
      hide Valid, Lossless, Quiet, Awake, Calm, Sighted, Smooth, Blind;
      Levels();
      var t := Await();
      WorldIsValid();
      if !t.fails { Restage(w.gate.Drop(Staging(run, forAnchor))); }
    }

    /** Staging refs and objects of the gate change; every other gate ref stays. */
    method Restage(gate: Repo)
      requires Valid() && RepoOk(dag, gate)
      requires w.gate.objects <= gate.objects
      requires forall r: Ref :: !r.Staging? ==> gate.Get(r) == w.gate.Get(r)
      modifies this
      ensures Onward() && Alone() && w == old(w).(gate := gate) && script == old(script) && |log| == |old(log)| + 1
    {
      hide Valid, Lossless, Quiet, Awake, Calm, Sighted, Smooth, Blind;
      WorldIsValid();
      var after := w.(gate := gate);
      forall r | r in w.wt.refs && !r.Staging? ensures Held(dag, after, w.wt.refs[r]) { RefHolds(dag, after.wt, r); }
      forall r | r in w.gate.refs && !r.Staging? ensures Held(dag, after, w.gate.refs[r]) {
        assert gate.Get(r) == w.gate.Get(r);
        RefHolds(dag, after.gate, r);
      }
      RefsSuffice(dag, w, after);
      Become(after);
    }

    // ----- compare-and-swap moves -----

    /** Move the gate branch from a commit that `to` contains or `pin` anchors. */
    method SwapGate(branch: nat, to: Sha, from: Sha, ghost pin: Ref) returns (ok: bool)
      requires Valid() && call.gateMove.None?
      requires dag.Contains(to, from) || (pin.Anchor? && w.wt.Get(pin) == Some(from))
      modifies this
      ensures Ahead() && call == old(call).(gateMove := if ok && |log| > 0 then Some(|log| - 1) else None)
      ensures Alone() ==> w == (if ok then old(w).(gate := old(w).gate.Put(Branch(branch), to)) else old(w))
      ensures Smooth(old(script)) && to in old(w).gate.objects && old(w).gate.Get(Branch(branch)) == Some(from) ==> ok
      // Whatever came before it, the swap itself found exactly `from`.
      ensures ok ==>
                && |log| > |old(log)| && log[|log| - 1].after == w
                     && log[|log| - 1].before.gate.Get(Branch(branch)) == Some(from)
                && w == log[|log| - 1].before.(gate := log[|log| - 1].before.gate.Put(Branch(branch), to))
                && (Alone() ==> log[|log| - 1].before == old(w))
                && forall r: Ref :: IsPrivate(r) ==> log[|log| - 1].before.wt.Get(r) == old(w).wt.Get(r)
      ensures AnchorsKept()
    {
      hide Valid, Lossless, Quiet, Awake, Calm, Sighted, Smooth, Blind, InBounds, StampStep, Arrived, StepOk,
           World.Valid, Dag.Valid, RepoOk;
      Levels();
      var t := Await();
      WorldIsValid();
      ok := !t.fails && to in w.gate.objects && w.gate.Get(Branch(branch)) == Some(from);
      if ok {
        var after := w.(gate := w.gate.Put(Branch(branch), to));
        GateSwapSteps(dag, w, branch, to, from, pin);
        GateSwapInBounds(dag, call.(gateMove := Some(|log|)), w, branch, to, |log|);
        Take(after, Ours, call.(gateMove := Some(|log|)));
      }
    }

    /** Move a worktree branch from a commit that `pin` anchors: onto the call's goal, or back to the commit it left. */
    method SwapBranch(branch: nat, to: Sha, from: Sha, ghost pin: Ref) returns (ok: bool)
      requires Valid()
      requires pin.Anchor? && w.wt.Get(pin) == Some(from)
      requires call.moving && call.pin.Anchor?
      requires (to == call.goal && w.wt.Get(call.pin) == Some(from))
                || (call.undo && from == call.goal && w.wt.Get(call.pin) == Some(to))
      modifies this
      ensures Onward()
      ensures Alone() ==> w == (if ok then old(w).(wt := old(w).wt.Put(Branch(branch), to)) else old(w))
      ensures Smooth(old(script)) && to in old(w).wt.objects && old(w).wt.Get(Branch(branch)) == Some(from) ==> ok
      ensures ok && Alone() ==> old(w).wt.Get(Branch(branch)) == Some(from)
      // Whatever came before it, the swap itself found exactly `from`.
      ensures ok ==>
                log != [] && log[|log| - 1].actor.Ours? && log[|log| - 1].before.wt.Get(Branch(branch)) == Some(from)
      ensures AnchorsKept()
    {
      hide Valid, Lossless, Quiet, Awake, Calm, Sighted, Smooth, Blind, World.Valid, StepOk, MovesHead, HeadMoveOk,
           RepoOk;
      Levels();
      var t := Await();
      WorldIsValid();
      ok := !t.fails && to in w.wt.objects && w.wt.Get(Branch(branch)) == Some(from);
      if ok {
        SwapSteps(dag, call, w, branch, to, from, pin);
        BecomeMoved(w.(wt := w.wt.Put(Branch(branch), to)), Ours);
      }
    }

    /** `read-tree -m -u from to`: rewrites the files or refuses untouched. */
    method ReadTree(from: Sha, to: Sha, ghost pin: Ref) returns (ok: bool)
      requires Valid()
      requires {from, to} <= dag.trees.Keys
      requires pin.Anchor? && w.wt.Get(pin) == Some(from)
      modifies this
      ensures Onward()
      ensures Alone() ==>
                w == (if ok then old(w).(files := TwoTree(old(w).files, dag.trees[from], dag.trees[to])) else old(w))
      ensures Smooth(old(script)) && TwoTreeOk(old(w).files, dag.trees[from], dag.trees[to]) ==> ok
      ensures AnchorsKept()
    {
      hide Valid, Lossless, Quiet, Awake, Calm, Sighted, Smooth, Blind;
      Levels();
      var t := Await();
      WorldIsValid();
      ok := !t.fails && TwoTreeOk(w.files, dag.trees[from], dag.trees[to]);
      if ok {
        var after := w.(files := TwoTree(w.files, dag.trees[from], dag.trees[to]));
        RefHolds(dag, after.wt, pin);
        RewriteIsLossless(dag, w, after, from, to);
        Become(after);
      }
    }

    method MoveForward(to: Sha, ghost pin: Ref)
      requires Valid() && CanFastForward(dag, w, to)
      requires pin.Anchor? && w.wt.Get(pin) == Some(to)
      requires call.moving && to == call.goal
      modifies this
      ensures Onward() && Alone() && AnchorsKept() && w == FastForwarded(dag, old(w), to) && script == old(script)
    {
      hide Valid, Lossless;
      WorldIsValid();
      FastForwardIsLossless(dag, w, to, pin);
      FastForwardKeepsAnchors(dag, w, to);
      BecomeMoved(FastForwarded(dag, w, to), Ours);
    }

    /** `merge --ff-only`: HEAD moves forward to `to`, is already past it, or nothing happens. */
    method MergeFastForward(to: Sha, ghost pin: Ref) returns (ok: bool)
      requires Valid()
      requires pin.Anchor? && w.wt.Get(pin) == Some(to)
      requires call.moving && to == call.goal
      modifies this
      ensures Onward()
      ensures Alone() ==> w == old(w) || (ok && CanFastForward(dag, old(w), to) && w == FastForwarded(dag, old(w), to))
      ensures Smooth(old(script)) && CanFastForward(dag, old(w), to) ==> ok && w == FastForwarded(dag, old(w), to)
      ensures AnchorsKept()
    {
      hide Valid, Quiet, Awake, Calm, Sighted, Smooth, Blind, FastForwarded;
      Levels();
      var t := Await();
      WorldIsValid();
      if t.fails { return false; }
      if CanFastForward(dag, w, to) {
        MoveForward(to, pin);
        return true;
      }
      ok := !w.busy && w.HeadCommit().Some? && dag.Contains(w.HeadCommit().value, to);
    }

    // ----- run records -----

    method ReadRuns() returns (runs: Option<seq<Run>>)
      requires Valid()
      modifies this
      ensures Onward() && AnchorsKept()
      ensures Alone() ==> w == old(w) && log == old(log)
      ensures runs.Some? ==> runs.value == w.runs
      ensures Awake(old(script)) ==> runs.Some?
    {
      hide Chain, Lossless, Quiet, Awake, Calm, Sighted, Smooth, Blind;
      var t := Await();
      runs := if t.deaf then None else Some(w.runs);
    }

    method GetRun(id: nat) returns (run: Option<Run>)
      requires Valid()
      modifies this
      ensures Onward() && AnchorsKept()
      ensures Alone() ==> w == old(w) && log == old(log)
      ensures run.Some? ==> run.value in w.runs && run.value.id == id
      ensures Awake(old(script)) && run.None? ==> forall r :: r in w.runs ==> r.id != id
    {
      hide Chain, Lossless, Quiet, Awake, Calm, Sighted, Smooth, Blind;
      var t := Await();
      run := None;
      if !t.deaf && exists i :: 0 <= i < |w.runs| && w.runs[i].id == id {
        var i :| 0 <= i < |w.runs| && w.runs[i].id == id;
        run := Some(w.runs[i]);
      }
    }

    /** `ls-remote` of one branch: no answer, no such branch, or its commit. */
    method LsRemote(branch: nat) returns (live: Option<Option<Sha>>)
      requires Valid()
      modifies this
      ensures Onward() && AnchorsKept()
      ensures Alone() ==> w == old(w) && log == old(log)
      ensures live.Some? ==> live.value == if branch in w.remote then Some(w.remote[branch]) else None
      ensures Awake(old(script)) ==> live.Some?
    {
      hide Chain, Lossless, Quiet, Awake, Calm, Sighted, Smooth, Blind;
      var t := Await();
      live := if t.deaf then None else Some(if branch in w.remote then Some(w.remote[branch]) else None);
    }

    /**
     * `reset --hard`. Nothing guards it: it resets whatever HEAD now is, and is
     * `exposed` when that is not the clean `expected` commit.
     */
    method ResetHard(branch: nat, expected: Sha, to: Sha, ghost pin: Ref) returns (ok: bool, ghost exposed: bool)
      requires Valid()
      requires pin.Anchor? && w.wt.Get(pin) == Some(expected)
      requires call.moving && to == call.goal && call.pin == pin && call.exposure.None?
      modifies this
      ensures Ahead() && AnchorsKept()
      ensures call == old(call).(exposure := if exposed && |log| > 0 then Some(|log| - 1) else None)
      ensures Alone() ==> w == if ok then Reset(dag, old(w), to) else old(w)
      ensures Alone() && old(w).head == On(branch) && old(w).HeadCommit() == Some(expected) && old(w).Clean(dag) ==>
                !exposed
      ensures ok && Alone() ==> to in dag.trees
      ensures Smooth(old(script)) && to in old(w).wt.objects ==> ok
      ensures ok && Alone() && old(w).HeadCommit().Some? ==> w.HeadCommit() == Some(to)
      ensures exposed ==> ok && |log| > |old(log)| && log[|log| - 1].actor.Exposed?
    {
      hide Valid, Quiet, Awake, Calm, Sighted, Smooth, Blind, Lossless, Reset, Arrived, StampStep, StepOk, World.Valid,
           Dag.Valid, World.Clean, RepoOk;
      Levels();
      var t := Await();
      WorldIsValid();
      ok := !t.fails && to in w.wt.objects;
      exposed := ok && (w.head != On(branch) || w.HeadCommit() != Some(expected) || !w.Clean(dag));
      if ok {
        ResetSteps(dag, w, branch, expected, to, pin, exposed);
        BecomeMoved(Reset(dag, w, to), if exposed then Exposed else Ours);
      }
    }

    method SetRunHead(id: nat, c: Sha) returns (ok: bool)
      requires Valid()
      modifies this
      ensures Onward()
      ensures Alone() ==> w == (if ok then old(w).(runs := Promoted(old(w).runs, id, c)) else old(w))
      ensures Smooth(old(script)) && c != NO_SHA && (exists i :: 0 <= i < |old(w).runs| && old(w).runs[i].id == id) ==>
                ok
      ensures AnchorsKept()
    {
      hide Valid, Lossless, Quiet, Awake, Calm, Sighted, Smooth, Blind;
      Levels();
      var t := Await();
      WorldIsValid();
      ok := !t.fails && c != NO_SHA && exists i :: 0 <= i < |w.runs| && w.runs[i].id == id;
      if ok {
        RecordsAreLossless(dag, w, Promoted(w.runs, id, c));
        Become(w.(runs := Promoted(w.runs, id, c)));
      }
    }

    /** A moving call stamps only after it was seen to have arrived. */
    method StampRun(id: nat) returns (ok: bool)
      requires Valid() && id == call.id && call.stamp.None?
      requires call.moving ==> Arrived(dag, entry, log, call.start, |log|, call.goal)
      modifies this
      ensures Ahead() && call == old(call).(stamp := if ok && |log| > 0 then Some(|log| - 1) else None)
      ensures Alone() ==> w == (if ok then old(w).(runs := Stamped(old(w).runs, id)) else old(w))
      ensures Alone() ==> |log| == |old(log)| + if ok then 1 else 0
      ensures ok ==> |log| > |old(log)|
      ensures Smooth(old(script)) || Blind(old(script)) ==> ok
      ensures AnchorsKept()
    {
      hide Valid, Lossless, Quiet, Awake, Calm, Sighted, Smooth, Blind, Arrived;
      ghost var seen := log;
      Levels();
      var t := Await();
      WorldIsValid();
      ok := !t.fails;
      if ok {
        if call.moving {
          ArrivedStays(dag, entry, seen, log, call.start, |seen|, call.goal);
          ArrivedLater(dag, entry, log, call.start, |seen|, |log|, call.goal);
        }
        var after := w.(runs := Stamped(w.runs, id));
        RecordsAreLossless(dag, w, Stamped(w.runs, id));
        Take(after, Ours, call.(stamp := Some(|log|)));
      }
    }
  }

  lemma KeptSince(s: Session, n: nat)
    requires s.Valid() && n <= |s.log|
    ensures LosesAsTold(s.dag, s.log, n)
    ensures NoneOverwritten(s.log, n) ==> AnchorsStay(Moment(s.entry, s.log, n), Moment(s.entry, s.log, |s.log|))
  {
    hide StepOk, Lossless, Spared, AnchorsStay, Watched, Outsiders, Overwrites;
    forall k | n <= k < |s.log| && s.log[k].Own()
      ensures Lossless(s.dag, s.log[k].before, s.log[k].after) <==> Spared(s.dag, s.log[k])
    {
      OwnStepKeepsIff(s.dag, s.log[k]);
    }
    if NoneOverwritten(s.log, n) { AnchorsStaySince(s.dag, s.entry, s.log, s.w, n, |s.log|); }
  }

  lemma TidySteps(s: Session, before: seq<Step>)
    requires s.Valid() && |before| <= |s.log| && forall i :: 0 <= i < |before| ==> s.log[i] == before[i]
    ensures s.overwrites == Overwrites(before) ==> NoneOverwritten(s.log, |before|)
  {
    assert s.log[..|before|] == before;
    OverwritesSince(s.log, |before|);
  }

  lemma RecordsAreLossless(dag: Dag, w: World, runs: seq<Run>)
    requires w.Valid(dag) && DistinctIds(runs)
    ensures w.(runs := runs).Valid(dag) && Lossless(dag, w, w.(runs := runs))
  {
  }

  /** A forced fetch of `source` from one repository into `dest` of another. */
  function Fetched(dag: Dag, into: Repo, from: Repo, source: Ref, dest: Ref): Repo {
    if source in from.refs then into.Absorb(dag, from.refs[source]).Put(dest, from.refs[source]) else into
  }

  predicate CanFastForward(dag: Dag, w: World, to: Sha) {
    && !w.busy
    && w.HeadCommit().Some?
    && {w.HeadCommit().value, to} <= w.wt.objects * dag.trees.Keys
    && dag.Contains(to, w.HeadCommit().value)
    && !dag.Contains(w.HeadCommit().value, to)
    && TwoTreeOk(w.files, dag.trees[w.HeadCommit().value], dag.trees[to])
  }

  function FastForwarded(dag: Dag, w: World, to: Sha): World
    requires w.HeadCommit().Some? && {w.HeadCommit().value, to} <= dag.trees.Keys
  {
    var files := TwoTree(w.files, dag.trees[w.HeadCommit().value], dag.trees[to]);
    match w.head
    case On(b) => w.(files := files, wt := w.wt.Put(Branch(b), to))
    case Detached(_) => w.(files := files, head := Detached(to))
  }

  lemma FastForwardKeepsAnchors(dag: Dag, w: World, to: Sha)
    requires CanFastForward(dag, w, to)
    ensures AnchorsStay(w, FastForwarded(dag, w, to))
  {
  }

  lemma SameRefsStay(a: World, b: World)
    requires a.wt == b.wt
    ensures AnchorsStay(a, b)
  {
  }

  lemma GateSwapInBounds(dag: Dag, call: Call, w: World, branch: nat, to: Sha, k: nat)
    requires call.gateMove == Some(k)
    ensures InBounds(dag, call, Step(w, w.(gate := w.gate.Put(Branch(branch), to)), Ours), k)
  {
  }

  lemma SwapSteps(dag: Dag, call: Call, w: World, branch: nat, to: Sha, from: Sha, pin: Ref)
    requires dag.Valid() && w.Valid(dag) && to in w.wt.objects && w.wt.Get(Branch(branch)) == Some(from)
    requires pin.Anchor? && w.wt.Get(pin) == Some(from) && call.pin.Anchor?
    requires (to == call.goal && w.wt.Get(call.pin) == Some(from))
              || (call.undo && from == call.goal && w.wt.Get(call.pin) == Some(to))
    ensures var s := Step(w, w.(wt := w.wt.Put(Branch(branch), to)), Ours);
            StepOk(dag, s) && (MovesHead(s) ==> HeadMoveOk(dag, call, s))
  {
    hide Lossless;
    SwapIsLossless(dag, w, branch, to, pin);
  }

  lemma OverwriteInBounds(dag: Dag, call: Call, w: World, wt: Repo, r: Ref, c: Sha, k: nat)
    requires MayWrite(call, r) && wt.Get(r) == Some(c) && forall b :: wt.Get(Branch(b)) == w.wt.Get(Branch(b))
    ensures InBounds(dag, call, Step(w, w.(wt := wt), Overwrote(r, c)), k)
  {
  }

  lemma GateSwapSteps(dag: Dag, w: World, branch: nat, to: Sha, from: Sha, pin: Ref)
    requires dag.Valid() && w.Valid(dag)
    requires to in w.gate.objects && w.gate.Get(Branch(branch)) == Some(from)
    requires dag.Contains(to, from) || (pin.Anchor? && w.wt.Get(pin) == Some(from))
    ensures StepOk(dag, Step(w, w.(gate := w.gate.Put(Branch(branch), to)), Ours))
  {
    hide Lossless;
    GateSwapIsLossless(dag, w, branch, to, from, pin);
    SameRefsStay(w, w.(gate := w.gate.Put(Branch(branch), to)));
  }

  lemma GateSwapIsLossless(dag: Dag, w: World, branch: nat, to: Sha, from: Sha, pin: Ref)
    requires dag.Valid() && w.Valid(dag)
    requires to in w.gate.objects && w.gate.Get(Branch(branch)) == Some(from)
    requires dag.Contains(to, from) || (pin.Anchor? && w.wt.Get(pin) == Some(from))
    ensures var after := w.(gate := w.gate.Put(Branch(branch), to)); after.Valid(dag) && Lossless(dag, w, after)
  {
    hide Lossless;
    var after := w.(gate := w.gate.Put(Branch(branch), to));
    RefHolds(dag, after.gate, Branch(branch));
    forall r | r in w.wt.refs && !r.Staging? ensures Held(dag, after, w.wt.refs[r]) { RefHolds(dag, after.wt, r); }
    forall r | r in w.gate.refs && !r.Staging? ensures Held(dag, after, w.gate.refs[r]) {
      if r != Branch(branch) {
        RefHolds(dag, after.gate, r);
      } else if dag.Contains(to, from) {
        HeldDownward(dag, after, to, from);
      } else {
        RefHolds(dag, after.wt, pin);
      }
    }
    RefsSuffice(dag, w, after);
  }

  lemma SwapIsLossless(dag: Dag, w: World, branch: nat, to: Sha, pin: Ref)
    requires dag.Valid() && w.Valid(dag)
    requires to in w.wt.objects && Branch(branch) in w.wt.refs
    requires pin.Anchor? && w.wt.Get(pin) == w.wt.Get(Branch(branch))
    ensures var after := w.(wt := w.wt.Put(Branch(branch), to)); after.Valid(dag) && Lossless(dag, w, after)
  {
    hide Lossless;
    var after := w.(wt := w.wt.Put(Branch(branch), to));
    RefHolds(dag, after.wt, pin);
    forall r | r in w.wt.refs && !r.Staging? ensures Held(dag, after, w.wt.refs[r]) {
      if r != Branch(branch) { RefHolds(dag, after.wt, r); }
    }
    forall r | r in w.gate.refs
        && !r.Staging? ensures Held(dag, after, w.gate.refs[r]) { RefHolds(dag, after.gate, r); }
    RefsSuffice(dag, w, after);
  }

  lemma FetchIntoWorktree(dag: Dag, w: World, source: Ref, dest: Ref)
    requires dag.Valid() && w.Valid(dag)
    requires source in w.gate.refs && dest.Anchor?
    ensures RepoOk(dag, Fetched(dag, w.wt, w.gate, source, dest))
    ensures Fetched(dag, w.wt, w.gate, source, dest)
            == Rewritten(w.wt, w.wt.objects + dag.history[w.gate.refs[source]], dest, w.gate.refs[source])
    ensures Undisturbed(w, w.(wt := Fetched(dag, w.wt, w.gate, source, dest)))
  {
    var c := w.gate.refs[source];
    var wt := Fetched(dag, w.wt, w.gate, source, dest);
    assert wt.objects == w.wt.objects + dag.history[c];
    assert wt.objects + w.gate.objects == w.wt.objects + w.gate.objects;
    forall x | x in wt.objects
      ensures x in dag.history && dag.history[x] <= wt.objects
    {
      if x !in w.wt.objects { assert x in dag.history[c]; }
    }
  }

  lemma FastForwardIsLossless(dag: Dag, w: World, to: Sha, pin: Ref)
    requires dag.Valid() && w.Valid(dag)
    requires CanFastForward(dag, w, to)
    requires pin.Anchor? && w.wt.Get(pin) == Some(to)
    ensures FastForwarded(dag, w, to).Valid(dag)
    ensures Lossless(dag, w, FastForwarded(dag, w, to))
  {
    var h := w.HeadCommit().value;
    var after := FastForwarded(dag, w, to);
    var moved := after.(files := w.files);
    RefHolds(dag, after.wt, pin);
    HeldDownward(dag, after, to, h);
    forall r | r in w.wt.refs && !r.Staging? ensures Held(dag, after, w.wt.refs[r]) {
      if w.head.On? && r == Branch(w.head.branch) { assert w.wt.refs[r] == h; } else { RefHolds(dag, after.wt, r); }
    }
    forall r | r in w.gate.refs
        && !r.Staging? ensures Held(dag, after, w.gate.refs[r]) { RefHolds(dag, after.gate, r); }
    RootsSuffice(dag, w, after);
    RewriteIsLossless(dag, moved, after, h, to);
  }

  /** Overwritten content is content of the held commit the move starts from. */
  lemma RewriteIsLossless(dag: Dag, a: World, b: World, from: Sha, to: Sha)
    requires {from, to} <= dag.trees.Keys
    requires TwoTreeOk(a.files, dag.trees[from], dag.trees[to])
    requires b == a.(files := TwoTree(a.files, dag.trees[from], dag.trees[to]))
    requires Held(dag, b, from)
    ensures Lossless(dag, a, b)
  {
    forall c | Held(dag, a, c) ensures Held(dag, b, c) {}
    forall p | Look(a.files, p) != Look(b.files, p)
      ensures exists c :: c in dag.trees && Held(dag, b, c) && Look(dag.trees[c], p) == Look(a.files, p)
    {
      assert p in dag.trees[from].Keys + dag.trees[to].Keys;
      assert Look(dag.trees[from], p) == Look(a.files, p);
    }
  }

  /** Files the checked-out commit has become those of the target; others stay unless the target has them. */
  function ResetFiles(files: Tree, from: Tree, to: Tree): (r: Tree)
    ensures forall p :: Look(r, p) == if p in to then Some(to[p]) else if p in from then None else Look(files, p)
  {
    map p | p in files.Keys + to.Keys && (p in to || p !in from) :: if p in to then to[p] else files[p]
  }

  function HeadTree(dag: Dag, w: World): Tree {
    if w.HeadCommit().Some? && w.HeadCommit().value in dag.trees then dag.trees[w.HeadCommit().value] else map[]
  }

  function Reset(dag: Dag, w: World, to: Sha): World {
    var files := ResetFiles(w.files, HeadTree(dag, w), if to in dag.trees then dag.trees[to] else map[]);
    match w.head
    case On(b) => w.(files := files, busy := false, wt := w.wt.Put(Branch(b), to))
    case Detached(_) => w.(files := files, busy := false, head := Detached(to))
  }

  lemma ResetIsValid(dag: Dag, w: World, to: Sha)
    requires w.Valid(dag) && to in w.wt.objects
    ensures Reset(dag, w, to).Valid(dag) && Reset(dag, w, to).HeadCommit() == Some(to)
    ensures Reset(dag, w, to).gate == w.gate && Reset(dag, w, to).runs == w.runs
    ensures forall r: Ref :: IsPrivate(r) ==> Reset(dag, w, to).wt.Get(r) == w.wt.Get(r)
  {
  }

  /**
   * The reset brings HEAD to the target and ends a rewrite in progress; the worktree
   * is clean afterwards exactly when no file was in it that neither commit has.
   */
  lemma ResetArrives(dag: Dag, w: World, to: Sha)
    requires w.Valid(dag) && to in w.wt.objects && to in dag.trees
    ensures
      var b := Reset(dag, w, to);
      && b.HeadCommit() == Some(to) && (b.head.On? <==> w.head.On?)
      && (b.Clean(dag) <==> forall p :: p in w.files && p !in dag.trees[to] ==> p in HeadTree(dag, w))
  {
    var b := Reset(dag, w, to);
    if forall p :: p in w.files && p !in dag.trees[to] ==> p in HeadTree(dag, w) {
      assert b.files == dag.trees[to];
    } else {
      var p :| p in w.files && p !in dag.trees[to] && p !in HeadTree(dag, w);
      assert p in b.files;
    }
  }

  lemma ResetSteps(dag: Dag, w: World, branch: nat, expected: Sha, to: Sha, pin: Ref, exposed: bool)
    requires dag.Valid() && w.Valid(dag) && to in w.wt.objects && pin.Anchor? && w.wt.Get(pin) == Some(expected)
    requires exposed || (w.head == On(branch) && w.HeadCommit() == Some(expected) && w.Clean(dag))
    ensures StepOk(dag, Step(w, Reset(dag, w, to), if exposed then Exposed else Ours))
    ensures to in dag.trees && Reset(dag, w, to).HeadCommit() == Some(to)
    ensures Reset(dag, w, to).gate == w.gate && Reset(dag, w, to).runs == w.runs
    ensures forall r: Ref :: IsPrivate(r) ==> Reset(dag, w, to).wt.Get(r) == w.wt.Get(r)
  {
    hide Lossless, Reset;
    ResetIsValid(dag, w, to);
    if !exposed { ResetIsLossless(dag, w, branch, expected, to, pin); }
  }

  lemma ResetIsLossless(dag: Dag, w: World, branch: nat, expected: Sha, to: Sha, pin: Ref)
    requires dag.Valid() && w.Valid(dag)
    requires w.head == On(branch) && w.HeadCommit() == Some(expected) && w.Clean(dag) && to in w.wt.objects
    requires pin.Anchor? && w.wt.Get(pin) == Some(expected)
    ensures Lossless(dag, w, Reset(dag, w, to))
  {
    ResetKeepsIff(dag, w, to);
    assert dag.Contains(expected, expected);
    assert HeldBeside(dag, w, to, expected);
  }

  /** Without the checked-out branch's own claim, some ref that survives a reset to `to`, or `to` itself, holds `c`. */
  ghost predicate HeldBeside(dag: Dag, w: World, to: Sha, c: Sha) {
    || (w.head.On? && dag.Contains(to, c))
    || (exists r :: r in w.wt.refs && !r.Staging? && (w.head.On? ==> r != Branch(w.head.branch))
         && dag.Contains(w.wt.refs[r], c))
    || (exists r :: r in w.gate.refs && !r.Staging? && dag.Contains(w.gate.refs[r], c))
  }

  lemma HeldAfterReset(dag: Dag, w: World, to: Sha, c: Sha)
    ensures Held(dag, Reset(dag, w, to), c) <==> HeldBeside(dag, w, to, c)
  {
    var after := Reset(dag, w, to);
    if HeldBeside(dag, w, to, c) {
      if w.head.On? && dag.Contains(to, c) {
        assert after.wt.refs[Branch(w.head.branch)] == to;
      } else if exists r ::
                  && r in w.wt.refs && !r.Staging? && (w.head.On? ==> r != Branch(w.head.branch))
                  && dag.Contains(w.wt.refs[r], c) {
        var r :| r in w.wt.refs && !r.Staging? && (w.head.On? ==> r != Branch(w.head.branch))
            && dag.Contains(w.wt.refs[r], c);
        assert after.wt.refs[r] == w.wt.refs[r];
      }
    }
    if after.wt.Holds(dag, c) {
      var r :| r in after.wt.refs && !r.Staging? && dag.Contains(after.wt.refs[r], c);
      assert w.head.On? && r == Branch(w.head.branch) ==> after.wt.refs[r] == to;
      assert !(w.head.On? && r == Branch(w.head.branch)) ==> r in w.wt.refs && w.wt.refs[r] == after.wt.refs[r];
    }
  }

  /** The branch head a reset leaves, and the content of each file it changes, are held by something that stays. */
  ghost predicate ResetSpares(dag: Dag, w: World, to: Sha) {
    && (w.head.On? && w.HeadCommit().Some? ==> HeldBeside(dag, w, to, w.HeadCommit().value))
    && (forall p :: Look(w.files, p) != Look(Reset(dag, w, to).files, p) ==>
          exists c :: c in dag.trees && HeldBeside(dag, w, to, c) && Look(dag.trees[c], p) == Look(w.files, p))
  }

  /**
   * Exactly what an unguarded reset may lose: it loses nothing if and only if
   * the branch head it leaves is held by something else, and each file it
   * overwrites or removes has its content in a commit that is.
   */
  lemma ResetKeepsIff(dag: Dag, w: World, to: Sha)
    requires dag.Valid() && w.Valid(dag) && to in w.wt.objects
    ensures Lossless(dag, w, Reset(dag, w, to)) <==> ResetSpares(dag, w, to)
  {
    hide HeldBeside;
    var after := Reset(dag, w, to);
    ResetIsValid(dag, w, to);
    forall c
      ensures Held(dag, after, c) <==> HeldBeside(dag, w, to, c)
    {
      HeldAfterReset(dag, w, to, c);
    }
    if w.head.On? && w.HeadCommit().Some? {
      RefHolds(dag, w.wt, Branch(w.head.branch));
    }
    if w.head.On? && w.HeadCommit().Some? ==> HeldBeside(dag, w, to, w.HeadCommit().value) {
      forall r | r in w.wt.refs && !r.Staging? ensures Held(dag, after, w.wt.refs[r]) {
        if !(w.head.On? && r == Branch(w.head.branch)) { RefHolds(dag, after.wt, r); }
      }
      forall r | r in w.gate.refs
          && !r.Staging? ensures Held(dag, after, w.gate.refs[r]) { RefHolds(dag, after.gate, r); }
      RootsSuffice(dag, w, after);
    }
  }

  /** A commit that landed after the last check, and an edit, are both gone after the reset. */
  lemma ResetCanLose()
    ensures
      var dag := Dag(map[1 := {1}, 2 := {1, 2}], map[1 := map[], 2 := map[7 := 20]]);
      var w := World(Repo({1, 2}, map[Branch(5) := 2]), On(5), map[7 := 21], false, Repo({}, map[]), [], map[]);
      && dag.Valid() && w.Valid(dag)
      && Held(dag, w, 2) && !Held(dag, Reset(dag, w, 1), 2)
      && Look(w.files, 7) == Some(21) && Look(Reset(dag, w, 1).files, 7) == None && forall c :: c in dag.trees ==>
           Look(dag.trees[c], 7) != Some(21)
  {
    var dag := Dag(map[1 := {1}, 2 := {1, 2}], map[1 := map[], 2 := map[7 := 20]]);
    var w := World(Repo({1, 2}, map[Branch(5) := 2]), On(5), map[7 := 21], false, Repo({}, map[]), [], map[]);
    assert dag.Contains(w.wt.refs[Branch(5)], 2);
    HeldAfterReset(dag, w, 1, 2);
  }

  /** Some ref that survives a write of `c0` over `dest`, or `c0` itself, holds `c`. */
  ghost predicate HeldWithout(dag: Dag, w: World, dest: Ref, c0: Sha, c: Sha) {
    || dag.Contains(c0, c)
    || (exists r :: r in w.wt.refs && !r.Staging? && r != dest && dag.Contains(w.wt.refs[r], c))
    || (exists r :: r in w.gate.refs && !r.Staging? && dag.Contains(w.gate.refs[r], c))
  }

  lemma HeldAfterOverwrite(dag: Dag, w: World, objects: set<Sha>, dest: Ref, c0: Sha, c: Sha)
    requires dest.Anchor?
    ensures Held(dag, w.(wt := Rewritten(w.wt, objects, dest, c0)), c) <==> HeldWithout(dag, w, dest, c0, c)
  {
    var after := w.(wt := Rewritten(w.wt, objects, dest, c0));
    if HeldWithout(dag, w, dest, c0, c) {
      if dag.Contains(c0, c) {
        assert after.wt.refs[dest] == c0;
      } else if exists r :: r in w.wt.refs && !r.Staging? && r != dest && dag.Contains(w.wt.refs[r], c) {
        var r :| r in w.wt.refs && !r.Staging? && r != dest && dag.Contains(w.wt.refs[r], c);
        assert after.wt.refs[r] == w.wt.refs[r];
      }
    }
    if after.wt.Holds(dag, c) {
      var r :| r in after.wt.refs && !r.Staging? && dag.Contains(after.wt.refs[r], c);
      assert r != dest ==> r in w.wt.refs && w.wt.refs[r] == after.wt.refs[r];
    }
  }

  /**
   * A write over a taken anchor, plain or by a forced fetch, loses nothing
   * exactly when something else holds the commit the anchor named.
   */
  lemma OverwriteKeepsIff(dag: Dag, w: World, objects: set<Sha>, dest: Ref, c0: Sha)
    requires dag.Valid() && w.Valid(dag) && w.(wt := Rewritten(w.wt, objects, dest, c0)).Valid(dag)
    requires dest.Anchor? && dest in w.wt.refs
    ensures Lossless(dag, w, w.(wt := Rewritten(w.wt, objects, dest, c0))) <==>
              HeldWithout(dag, w, dest, c0, w.wt.refs[dest])
  {
    var after := w.(wt := Rewritten(w.wt, objects, dest, c0));
    var c := w.wt.refs[dest];
    RefHolds(dag, w.wt, dest);
    HeldAfterOverwrite(dag, w, objects, dest, c0, c);
    if Held(dag, after, c) {
      forall r | r in w.wt.refs && !r.Staging? ensures Held(dag, after, w.wt.refs[r]) {
        if r != dest { RefHolds(dag, after.wt, r); }
      }
      forall r | r in w.gate.refs
          && !r.Staging? ensures Held(dag, after, w.gate.refs[r]) { RefHolds(dag, after.gate, r); }
      RootsSuffice(dag, w, after);
    }
  }
}
