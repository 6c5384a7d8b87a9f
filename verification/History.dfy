/** The append-only commit graph and the walks over it.

    A commit records the paths it changed and its parent.  The meaning of a commit is the tree that
    an oldest-first, last-writer-wins replay of its ancestry produces (`TreeAt`).  Everything the
    store computes newest-first is related to that definition here. */
module History {
  import opened Wrappers

  type CommitId = string
  type Path = string
  type Hash = string

  datatype Change = Upsert(hash: Hash) | Delete

  type Changes = map<Path, Change>
  type Tree = map<Path, Hash>

  const NO_CHANGES: Changes := map[]
  const NO_FILES: Tree := map[]

  /** `rank` is the row id the commits table assigns: it grows with every insertion. */
  datatype Commit = Commit(parent: Option<CommitId>, changes: Changes, rank: nat)

  type Graph = map<CommitId, Commit>

  ghost predicate WellFormed(g: Graph) {
    forall c {:trigger g[c].parent} :: c in g && g[c].parent.Some? ==>
      g[c].parent.value in g && g[g[c].parent.value].rank < g[c].rank
  }

  /** Every commit of `g` is still there, unchanged, in `h`. */
  ghost predicate Extends(g: Graph, h: Graph) {
    forall c :: c in g ==> c in h && h[c] == g[c]
  }

  // ----- trees -----

  /** A tree with a set of changes written over it. */
  function Overlay(t: Tree, ch: Changes): Tree {
    map p | p in t.Keys + ch.Keys && (p in ch ==> ch[p].Upsert?) ::
      if p in ch then ch[p].hash else t[p]
  }

  /** What a change leaves at its path. */
  function Leaves(ch: Change): Option<Hash> {
    match ch case Upsert(h) => Some(h) case Delete => None
  }

  lemma OverlayGet(t: Tree, ch: Changes, p: Path)
    ensures Get(Overlay(t, ch), p) == if p in ch then Leaves(ch[p]) else Get(t, p)
  {
  }

  lemma SameLookupsSameTree(t: Tree, u: Tree)
    requires forall p :: Get(t, p) == Get(u, p)
    ensures t == u
  {
    forall p ensures p in t <==> p in u { assert Get(t, p) == Get(u, p); }
    forall p | p in t ensures t[p] == u[p] { assert Get(t, p) == Get(u, p); }
  }

  lemma OverlayNothing(t: Tree)
    ensures Overlay(t, map[]) == t
  {
  }

  lemma OverlayTwice(t: Tree, older: Changes, newer: Changes)
    ensures Overlay(Overlay(t, older), newer) == Overlay(t, older + newer)
  {
    forall p
      ensures Get(Overlay(Overlay(t, older), newer), p) == Get(Overlay(t, older + newer), p)
    {
      OverlayGet(Overlay(t, older), newer, p);
      OverlayGet(t, older, p);
      OverlayGet(t, older + newer, p);
    }
    SameLookupsSameTree(Overlay(Overlay(t, older), newer), Overlay(t, older + newer));
  }

  /** The replay: a commit's tree is its parent's tree with its own changes written over it. */
  function TreeAt(g: Graph, c: CommitId): Tree
    requires WellFormed(g) && c in g
    decreases g[c].rank
  {
    Overlay(if g[c].parent.Some? then TreeAt(g, g[c].parent.value) else map[], g[c].changes)
  }

  // ----- walks -----

  /** A commit and its ancestors, newest first. */
  function Chain(g: Graph, c: CommitId): seq<CommitId>
    requires WellFormed(g) && c in g
    decreases g[c].rank
  {
    [c] + if g[c].parent.Some? then Chain(g, g[c].parent.value) else []
  }

  predicate Ancestor(g: Graph, a: CommitId, c: CommitId)
    requires WellFormed(g) && c in g
    decreases g[c].rank
  {
    a == c || (g[c].parent.Some? && Ancestor(g, a, g[c].parent.value))
  }

  /** The part of the chain of `c` that is newer than `stop`. */
  function ChainUntil(g: Graph, c: CommitId, stop: CommitId): seq<CommitId>
    requires WellFormed(g) && c in g && Ancestor(g, stop, c)
    decreases g[c].rank
  {
    if c == stop then [] else [c] + ChainUntil(g, g[c].parent.value, stop)
  }

  /** The change the newest commit of the chain made to a path, if any made one. */
  function Resolve(g: Graph, c: CommitId, p: Path): Option<Change>
    requires WellFormed(g) && c in g
    decreases g[c].rank
  {
    if p in g[c].changes then Some(g[c].changes[p])
    else if g[c].parent.Some? then Resolve(g, g[c].parent.value, p)
    else None
  }

  /** What changed between an ancestor and a commit: per path, the newest change. */
  function Delta(g: Graph, c: CommitId, base: CommitId): Changes
    requires WellFormed(g) && c in g && Ancestor(g, base, c)
    decreases g[c].rank
  {
    if c == base then map[] else Delta(g, g[c].parent.value, base) + g[c].changes
  }

  // ----- the walks agree -----

  /** The per-path first hit of the newest-first walk is what the oldest-first replay leaves. */
  lemma {:induction false} ResolveIsReplay(g: Graph, c: CommitId, p: Path)
    requires WellFormed(g) && c in g
    ensures Get(TreeAt(g, c), p) ==
      match Resolve(g, c, p) case Some(ch) => Leaves(ch) case None => None
    decreases g[c].rank
  {
    if g[c].parent.Some? {
      ResolveIsReplay(g, g[c].parent.value, p);
      OverlayGet(TreeAt(g, g[c].parent.value), g[c].changes, p);
    } else {
      OverlayGet(map[], g[c].changes, p);
    }
  }

  /** The collected changes, written over the ancestor's tree, give the commit's tree, however many
      commits lie between them and however often they change a path and change it back. */
  lemma {:induction false} DeltaBridges(g: Graph, c: CommitId, base: CommitId)
    requires WellFormed(g) && c in g && Ancestor(g, base, c)
    ensures base in g
    ensures TreeAt(g, c) == Overlay(TreeAt(g, base), Delta(g, c, base))
    decreases g[c].rank
  {
    if c == base {
      OverlayNothing(TreeAt(g, base));
    } else {
      var parent := g[c].parent.value;
      DeltaBridges(g, parent, base);
      OverlayTwice(TreeAt(g, base), Delta(g, parent, base), g[c].changes);
    }
  }

  /** Every path of a collected delta holds, at the commit, what the delta says about it. */
  lemma DeltaAtHead(g: Graph, c: CommitId, base: CommitId, p: Path)
    requires WellFormed(g) && c in g && Ancestor(g, base, c)
    ensures base in g
    ensures Get(TreeAt(g, c), p) ==
      if p in Delta(g, c, base) then Leaves(Delta(g, c, base)[p]) else Get(TreeAt(g, base), p)
  {
    DeltaBridges(g, c, base);
    OverlayGet(TreeAt(g, base), Delta(g, c, base), p);
  }

  // ----- chains -----

  /** The chain lists the ancestors: what `reset_workspace` looks a commit up in. */
  lemma {:induction false} ChainListsAncestors(g: Graph, a: CommitId, c: CommitId)
    requires WellFormed(g) && c in g
    ensures a in Chain(g, c) <==> Ancestor(g, a, c)
    decreases g[c].rank
  {
    if g[c].parent.Some? {
      ChainListsAncestors(g, a, g[c].parent.value);
    }
  }

  /** What a walk that stands at `current` has still to list. */
  ghost function StillToList(g: Graph, current: Option<CommitId>, stopAt: Option<CommitId>): seq<CommitId>
    requires WellFormed(g) && (current.Some? ==> current.value in g)
  {
    if current.None? then []
    else if stopAt.None? then Chain(g, current.value)
    else if Ancestor(g, stopAt.value, current.value) then ChainUntil(g, current.value, stopAt.value)
    else []
  }

  ghost predicate WillStop(g: Graph, current: Option<CommitId>, stopAt: Option<CommitId>)
    requires WellFormed(g) && (current.Some? ==> current.value in g)
  {
    stopAt.None? || (current.Some? && Ancestor(g, stopAt.value, current.value))
  }

  lemma WalkStep(g: Graph, chain: seq<CommitId>, c: CommitId, stopAt: Option<CommitId>)
    requires WellFormed(g) && c in g && Some(c) != stopAt
    ensures WillStop(g, Some(c), stopAt) <==> WillStop(g, g[c].parent, stopAt)
    ensures WillStop(g, Some(c), stopAt) ==>
      chain + StillToList(g, Some(c), stopAt) == (chain + [c]) + StillToList(g, g[c].parent, stopAt)
  {
  }

  /** Each commit of a chain is followed by its parent, if it has one. */
  lemma {:induction false} ChainLinks(g: Graph, c: CommitId, i: nat)
    requires WellFormed(g) && c in g && i < |Chain(g, c)|
    ensures Chain(g, c)[i] in g
    ensures i + 1 < |Chain(g, c)| <==> g[Chain(g, c)[i]].parent.Some?
    ensures i + 1 < |Chain(g, c)| ==> Chain(g, c)[i + 1] == g[Chain(g, c)[i]].parent.value
    decreases g[c].rank
  {
    if i > 0 {
      ChainLinks(g, g[c].parent.value, i - 1);
    }
  }

  /** The same for a walk that stops at an ancestor. */
  lemma {:induction false} ChainUntilLinks(g: Graph, c: CommitId, stop: CommitId, i: nat)
    requires WellFormed(g) && c in g && Ancestor(g, stop, c) && i < |ChainUntil(g, c, stop)|
    ensures var a := ChainUntil(g, c, stop)[i];
      && a in g && a != stop && Ancestor(g, stop, a)
      && (if i + 1 < |ChainUntil(g, c, stop)| then ChainUntil(g, c, stop)[i + 1] == g[a].parent.value
          else g[a].parent.value == stop)
    decreases g[c].rank
  {
    var parent := g[c].parent.value;
    if i > 0 {
      ChainUntilLinks(g, parent, stop, i - 1);
    }
  }

  lemma {:induction false} AncestorsExist(g: Graph, a: CommitId, c: CommitId)
    requires WellFormed(g) && c in g && Ancestor(g, a, c)
    ensures a in g && g[a].rank <= g[c].rank
    decreases g[c].rank
  {
    if a != c {
      AncestorsExist(g, a, g[c].parent.value);
    }
  }

  lemma {:induction false} AncestorTransitive(g: Graph, a: CommitId, b: CommitId, c: CommitId)
    requires WellFormed(g) && c in g && Ancestor(g, b, c)
    requires b in g && Ancestor(g, a, b)
    ensures Ancestor(g, a, c)
    decreases g[c].rank
  {
    if b != c {
      AncestorTransitive(g, a, b, g[c].parent.value);
    }
  }

  /** The walk that stops at an ancestor is the chain cut just before it. */
  lemma {:induction false} ChainUntilIsPrefix(g: Graph, c: CommitId, stop: CommitId)
    requires WellFormed(g) && c in g && Ancestor(g, stop, c)
    ensures stop in g
    ensures Chain(g, c) == ChainUntil(g, c, stop) + Chain(g, stop)
    decreases g[c].rank
  {
    if c != stop {
      var parent := g[c].parent.value;
      ChainUntilIsPrefix(g, parent, stop);
      Prepend(c, ChainUntil(g, parent, stop), Chain(g, stop));
    }
  }

  lemma Prepend(c: CommitId, xs: seq<CommitId>, ys: seq<CommitId>)
    ensures [c] + (xs + ys) == ([c] + xs) + ys
  {
  }

  // ----- history is immutable -----

  /** Nothing the walks say about a commit changes when commits are added. */
  lemma {:induction false} ExtensionKeepsCommit(g: Graph, h: Graph, c: CommitId)
    requires WellFormed(g) && WellFormed(h) && Extends(g, h) && c in g
    ensures Chain(h, c) == Chain(g, c)
    ensures forall a :: Ancestor(h, a, c) <==> Ancestor(g, a, c)
    ensures TreeAt(h, c) == TreeAt(g, c)
    decreases g[c].rank
  {
    if g[c].parent.Some? {
      ExtensionKeepsCommit(g, h, g[c].parent.value);
    }
  }

  lemma {:induction false} ExtensionKeepsResolve(g: Graph, h: Graph, c: CommitId, p: Path)
    requires WellFormed(g) && WellFormed(h) && Extends(g, h) && c in g
    ensures Resolve(h, c, p) == Resolve(g, c, p)
    decreases g[c].rank
  {
    if g[c].parent.Some? {
      ExtensionKeepsResolve(g, h, g[c].parent.value, p);
    }
  }

  lemma {:induction false} ExtensionKeepsDelta(g: Graph, h: Graph, c: CommitId, base: CommitId)
    requires WellFormed(g) && WellFormed(h) && Extends(g, h) && c in g && Ancestor(g, base, c)
    ensures Ancestor(h, base, c)
    ensures Delta(h, c, base) == Delta(g, c, base)
    decreases g[c].rank
  {
    ExtensionKeepsCommit(g, h, c);
    if c != base {
      ExtensionKeepsDelta(g, h, g[c].parent.value, base);
      assert Ancestor(h, base, h[c].parent.value);
    }
  }

  /** Adding one commit on top of an existing one. */
  function Append(g: Graph, id: CommitId, parent: CommitId, changes: Changes): Graph {
    g[id := Commit(Some(parent), changes, |g|)]
  }

  /** Ranks stay below the row count, so an appended commit outranks its parent. */
  ghost predicate Ranked(g: Graph) {
    forall c :: c in g ==> g[c].rank < |g|
  }

  lemma AppendExtends(g: Graph, id: CommitId, parent: CommitId, changes: Changes)
    requires WellFormed(g) && Ranked(g) && parent in g && id !in g
    ensures var h := Append(g, id, parent, changes);
      && WellFormed(h) && Ranked(h) && Extends(g, h)
      && TreeAt(h, id) == Overlay(TreeAt(g, parent), changes)
      && Chain(h, id) == [id] + Chain(g, parent)
      && (forall a :: Ancestor(g, a, parent) ==> Ancestor(h, a, id))
  {
    var h := Append(g, id, parent, changes);
    assert |h| == |g| + 1;
    assert WellFormed(h) && Extends(g, h);
    ExtensionKeepsCommit(g, h, parent);
  }

  lemma AppendDelta(g: Graph, id: CommitId, parent: CommitId, changes: Changes, base: CommitId)
    requires WellFormed(g) && Ranked(g) && parent in g && id !in g && Ancestor(g, base, parent)
    ensures var h := Append(g, id, parent, changes);
      && WellFormed(h) && Ancestor(h, base, id)
      && Delta(h, id, base) == Delta(g, parent, base) + changes
  {
    var h := Append(g, id, parent, changes);
    AppendExtends(g, id, parent, changes);
    ExtensionKeepsDelta(g, h, parent, base);
    AncestorsExist(g, base, parent);
  }
}
