/** Commits, trees, refs and the two repositories a branch lives in. */
module Objects {
  import opened Options

  /** A commit name; `NO_SHA` is the empty string the source uses for "none". */
  type Sha = nat
  const NO_SHA: Sha := 0

  type Path = nat
  type Blob = nat
  type Tree = map<Path, Blob>

  function Look(t: Tree, p: Path): Option<Blob> {
    if p in t then Some(t[p]) else None
  }

  /** Everything a commit name determines: its tree and its history, itself included. */
  datatype Dag = Dag(history: map<Sha, set<Sha>>, trees: map<Sha, Tree>) {

    ghost predicate Valid() {
      && NO_SHA !in history
      && history.Keys == trees.Keys
      && (forall c :: c in history ==> c in history[c])
      && (forall c, a :: c in history && a in history[c] ==> a in history && history[a] <= history[c])
    }

    /** `a` is `c` or an ancestor of `c`. */
    predicate Contains(c: Sha, a: Sha) {
      c in history && a in history[c]
    }
  }

  /** The private ref families; each has a canonical and a legacy spelling. */
  datatype AnchorKind = RecoverAnchor | LocalAnchor | AbandonedAnchor | SyncAnchor | SyncCache

  datatype Ref =
    | Branch(name: nat)
    | Anchor(kind: AnchorKind, run: nat, legacy: bool)
    | Staging(run: nat, forAnchor: bool)
    | Other(id: nat)

  datatype Repo = Repo(objects: set<Sha>, refs: map<Ref, Sha>) {

    function Get(r: Ref): Option<Sha> {
      if r in refs then Some(refs[r]) else None
    }

    function Put(r: Ref, c: Sha): Repo {
      this.(refs := refs[r := c])
    }

    function Drop(r: Ref): Repo {
      this.(refs := refs - {r})
    }

    /** A fetch of `c`: its whole history arrives with it. */
    function Absorb(dag: Dag, c: Sha): Repo {
      if c in dag.history then this.(objects := objects + dag.history[c]) else this
    }

    /** `c` is reachable from a ref that is not a staging ref. */
    ghost predicate Holds(dag: Dag, c: Sha) {
      exists r :: r in refs && !r.Staging? && dag.Contains(refs[r], c)
    }
  }

  /** HEAD is attached to a branch or detached at a commit. */
  datatype Head = On(branch: nat) | Detached(commit: Sha)
}
