/** One moment of the worktree repository, its gate and the run records, and what a step may do to it. */
module Worlds {
  import opened Options
  import opened Objects
  import opened Runs

  datatype World = World(
    wt: Repo,
    head: Head,
    files: Tree,
    busy: bool,
    gate: Repo,
    runs: seq<Run>,
    remote: map<nat, Sha>)
  {
    predicate Valid(dag: Dag) {
      && RepoOk(dag, wt)
      && RepoOk(dag, gate)
      && (head.Detached? ==> head.commit in wt.objects)
      && DistinctIds(runs)
    }

    function HeadCommit(): Option<Sha> {
      match head
      case On(b) => wt.Get(Branch(b))
      case Detached(c) => Some(c)
    }

    /** No operation in progress and the files are exactly the checked-out commit's tree. */
    predicate Clean(dag: Dag) {
      && !busy
      && HeadCommit().Some?
      && HeadCommit().value in dag.trees
      && files == dag.trees[HeadCommit().value]
    }
  }

  predicate RepoOk(dag: Dag, r: Repo) {
    && (forall c :: c in r.objects ==> c in dag.history && dag.history[c] <= r.objects)
    && (forall x :: x in r.refs ==> r.refs[x] in r.objects)
  }

  predicate IsPrivate(r: Ref) {
    r.Anchor? || r.Staging?
  }

  /** Outside actors do anything at all, except touch the private refs. */
  predicate Allowed(dag: Dag, a: World, b: World) {
    && b.Valid(dag)
    && (forall r :: r in a.wt.refs && IsPrivate(r) ==> b.wt.Get(r) == a.wt.Get(r))
    && (forall r :: r in b.wt.refs && IsPrivate(r) ==> b.wt.Get(r) == a.wt.Get(r))
    && (forall r :: r in a.gate.refs && IsPrivate(r) ==> b.gate.Get(r) == a.gate.Get(r))
    && (forall r :: r in b.gate.refs && IsPrivate(r) ==> b.gate.Get(r) == a.gate.Get(r))
  }

  /**
   * What the world outside does before the next command, and how that command
   * fares: a `deaf` query gets no answer, nor does a `blind` lookup of one
   * spelling of a private ref, a `fails` command takes no effect, and `pick` is
   * the merge base git settles on.
   */
  datatype Turn = Turn(outside: Option<World>, deaf: bool, blind: bool, fails: bool, pick: Sha)

  /** The turns of the commands to come, and the one that every command after them meets. */
  datatype Script = Script(turns: seq<Turn>, rest: Turn) {
    predicate Has(t: Turn) { t in turns || t == rest }
  }

  ghost predicate Quiet(script: Script) {
    forall t :: script.Has(t) ==> t.outside.None?
  }

  /** Every query answered, whoever interferes. */
  ghost predicate Sighted(script: Script) {
    forall t :: script.Has(t) ==> !t.deaf && !t.blind
  }

  /** No interference, and every query answered but perhaps the lookups of private refs. */
  ghost predicate Awake(script: Script) {
    Quiet(script) && forall t :: script.Has(t) ==> !t.deaf
  }

  /** No interference and every query answered. */
  ghost predicate Calm(script: Script) {
    Awake(script) && forall t :: script.Has(t) ==> !t.blind
  }

  /** Calm, every command the repositories permit succeeds, and git settles on one merge base. */
  ghost predicate Smooth(script: Script) {
    Calm(script) && forall t :: script.Has(t) ==> !t.fails && t.pick == script.rest.pick
  }

  /** No interference, no lookup of a private ref answered, and everything else answered and permitted. */
  ghost predicate Blind(script: Script) {
    Awake(script) && forall t :: script.Has(t) ==> t.blind && !t.fails
  }

  const CALM_TURN := Turn(None, false, false, false, NO_SHA)

  /** Every command meets this turn. */
  function Always(turn: Turn): Script { Script([], turn) }

  ghost predicate Held(dag: Dag, w: World, c: Sha) {
    w.wt.Holds(dag, c) || w.gate.Holds(dag, c)
  }

  /**
   * Every commit held before is held after, and a file is overwritten only
   * where a held commit has the very content it had.
   */
  ghost predicate Lossless(dag: Dag, a: World, b: World) {
    && (forall c :: Held(dag, a, c) ==> Held(dag, b, c))
    && (forall p :: Look(a.files, p) != Look(b.files, p) ==>
          exists c :: c in dag.trees && Held(dag, b, c) && Look(dag.trees[c], p) == Look(a.files, p))
  }

  /** It is enough that every ref's commit stays held. */
  lemma RootsSuffice(dag: Dag, a: World, b: World)
    requires dag.Valid() && a.Valid(dag) && b.Valid(dag)
    requires forall r :: r in a.wt.refs && !r.Staging? ==> Held(dag, b, a.wt.refs[r])
    requires forall r :: r in a.gate.refs && !r.Staging? ==> Held(dag, b, a.gate.refs[r])
    ensures forall c :: Held(dag, a, c) ==> Held(dag, b, c)
  {
    forall c | Held(dag, a, c)
      ensures Held(dag, b, c)
    {
      var root: Sha;
      if a.wt.Holds(dag, c) {
        var r :| r in a.wt.refs && !r.Staging? && dag.Contains(a.wt.refs[r], c);
        root := a.wt.refs[r];
      } else {
        var r :| r in a.gate.refs && !r.Staging? && dag.Contains(a.gate.refs[r], c);
        root := a.gate.refs[r];
      }
      HeldDownward(dag, b, root, c);
    }
  }

  /** A step that leaves the files alone and every ref's commit held loses nothing. */
  lemma RefsSuffice(dag: Dag, a: World, b: World)
    requires dag.Valid() && a.Valid(dag) && b.Valid(dag) && a.files == b.files
    requires forall r :: r in a.wt.refs && !r.Staging? ==> Held(dag, b, a.wt.refs[r])
    requires forall r :: r in a.gate.refs && !r.Staging? ==> Held(dag, b, a.gate.refs[r])
    ensures Lossless(dag, a, b)
  {
    RootsSuffice(dag, a, b);
  }

  lemma HeldDownward(dag: Dag, w: World, root: Sha, c: Sha)
    requires dag.Valid()
    requires Held(dag, w, root) && dag.Contains(root, c)
    ensures Held(dag, w, c)
  {
    if w.wt.Holds(dag, root) {
      var r :| r in w.wt.refs && !r.Staging? && dag.Contains(w.wt.refs[r], root);
      assert dag.Contains(w.wt.refs[r], c);
    } else {
      var r :| r in w.gate.refs && !r.Staging? && dag.Contains(w.gate.refs[r], root);
      assert dag.Contains(w.gate.refs[r], c);
    }
  }

  lemma RefHolds(dag: Dag, repo: Repo, r: Ref)
    requires dag.Valid() && RepoOk(dag, repo)
    requires r in repo.refs && !r.Staging?
    ensures repo.Holds(dag, repo.refs[r])
  {
    assert dag.Contains(repo.refs[r], repo.refs[r]);
  }

  // ----- files -----

  /** `read-tree -m -u`: a path the move rewrites must still hold the old or already the new content. */
  predicate TwoTreeOk(files: Tree, from: Tree, to: Tree) {
    forall p :: p in from.Keys + to.Keys && Look(from, p) != Look(to, p)
      ==> Look(files, p) == Look(from, p) || Look(files, p) == Look(to, p)
  }

  function TwoTree(files: Tree, from: Tree, to: Tree): (r: Tree)
    ensures forall p :: Look(r, p) == if Look(from, p) != Look(to, p) then Look(to, p) else Look(files, p)
  {
    map p | p in files.Keys + to.Keys && (if Look(from, p) != Look(to, p) then p in to else p in files)
      :: if Look(from, p) != Look(to, p) then to[p] else files[p]
  }

  lemma TwoTreeExact(from: Tree, to: Tree)
    ensures TwoTreeOk(from, from, to) && TwoTree(from, from, to) == to
  {
    var r := TwoTree(from, from, to);
    forall p
      ensures Look(r, p) == Look(to, p)
    {}
    SameLooks(r, to);
  }

  lemma SameLooks(a: Tree, b: Tree)
    requires forall p :: Look(a, p) == Look(b, p)
    ensures a == b
  {
    forall p
      ensures p in a <==> p in b
      ensures p in a ==> a[p] == b[p]
    {
      assert Look(a, p) == Look(b, p);
    }
  }

  // ----- three-way merge -----

  /** Path-wise three-way merge; `None` inside the outer option means the path is absent. */
  function MergedPath(base: Tree, ours: Tree, theirs: Tree, p: Path): Option<Option<Blob>> {
    if Look(base, p) == Look(theirs, p) then Some(Look(ours, p))
    else if Look(base, p) == Look(ours, p) || Look(ours, p) == Look(theirs, p) then Some(Look(theirs, p))
    else None
  }

  function MergeTree(base: Tree, ours: Tree, theirs: Tree): Option<Tree> {
    var paths := base.Keys + ours.Keys + theirs.Keys;
    if exists p :: p in paths && MergedPath(base, ours, theirs, p).None? then None
    else Some(map p | p in paths && MergedPath(base, ours, theirs, p) != Some(None) :: Blobbed(base, ours, theirs, p))
  }

  function Blobbed(base: Tree, ours: Tree, theirs: Tree, p: Path): Blob {
    match MergedPath(base, ours, theirs, p)
    case Some(Some(b)) => b
    case _ => 0
  }

  /** The merge of `theirs` into `ours` changes nothing. */
  predicate MergePreserves(base: Tree, ours: Tree, theirs: Tree) {
    MergeTree(base, ours, theirs) == Some(ours)
  }

  /** Everything `theirs` did relative to `base` is already in `ours`. */
  ghost predicate CarriesAll(base: Tree, ours: Tree, theirs: Tree) {
    forall p :: Look(theirs, p) != Look(base, p) ==> Look(ours, p) == Look(theirs, p)
  }

  lemma MergeLook(base: Tree, ours: Tree, theirs: Tree, p: Path)
    requires MergeTree(base, ours, theirs).Some?
    ensures MergedPath(base, ours, theirs, p) == Some(Look(MergeTree(base, ours, theirs).value, p))
  {
    var paths := base.Keys + ours.Keys + theirs.Keys;
    assert p in paths ==> MergedPath(base, ours, theirs, p).Some?;
  }

  /** The executable proof is exact: the merge is a no-op precisely when nothing of theirs is missing. */
  lemma MergeDecidesContainment(base: Tree, ours: Tree, theirs: Tree)
    ensures MergePreserves(base, ours, theirs) <==> CarriesAll(base, ours, theirs)
  {
    if MergePreserves(base, ours, theirs) {
      forall p | Look(theirs, p) != Look(base, p)
        ensures Look(ours, p) == Look(theirs, p)
      {
        MergeLook(base, ours, theirs, p);
      }
    }
    if CarriesAll(base, ours, theirs) {
      forall p
        ensures MergedPath(base, ours, theirs, p) == Some(Look(ours, p))
      {}
      var m := MergeTree(base, ours, theirs);
      assert m.Some?;
      forall p
        ensures Look(m.value, p) == Look(ours, p)
      {
        MergeLook(base, ours, theirs, p);
      }
      SameLooks(m.value, ours);
    }
  }
}
