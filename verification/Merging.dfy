/** What a merge means: a three-way merge of trees, and one whose order does not matter. */
module Merging {
  import opened Wrappers
  import opened History
  import opened Workspaces

  // ----- three-way merge -----

  /** The tree a three-way merge should leave at a path: the source's value where the source
      differs from the base, and otherwise the target's. */
  function ThreeWay(base: Option<Hash>, source: Option<Hash>, target: Option<Hash>): Option<Hash> {
    if source != base then source else target
  }

  /** Both sides left the base, to different values. */
  predicate RealConflict(base: Option<Hash>, source: Option<Hash>, target: Option<Hash>) {
    source != base && target != base && source != target
  }

  lemma AfterMergeShape(s: Store, source: string, target: string, id: CommitId)
    requires Inv(s) && source in s.workspaces && target in s.workspaces && source != target
    ensures var t := AfterMerge(s, source, target, id);
      && t.commits == Append(s.commits, id, s.workspaces[target].head, SourceDelta(s, source))
      && t.workspaces.Keys == s.workspaces.Keys
      && t.workspaces[source] == s.workspaces[source].(head := id, base := id)
      && t.workspaces[target] == s.workspaces[target].(head := id, base := id)
      && (forall w :: w in s.workspaces && w != source && w != target ==> t.workspaces[w] == s.workspaces[w])
      && t.staged == s.staged
  {
  }

  /** A path is in conflict exactly when both sides touched it since the source's base and left
      different values there. */
  lemma ConflictsExactly(s: Store, source: string, target: string, p: Path)
    requires Inv(s) && source in s.workspaces && target in s.workspaces
    requires Ancestor(s.commits, s.workspaces[source].base, s.workspaces[target].head)
    ensures var src, tgt := s.workspaces[source], s.workspaces[target];
      p in MergeConflicts(s, source, target) <==>
        && p in SourceDelta(s, source) && p in Delta(s.commits, tgt.head, src.base)
        && Get(TreeAt(s.commits, src.head), p) != Get(TreeAt(s.commits, tgt.head), p)
  {
    var src, tgt := s.workspaces[source], s.workspaces[target];
    DeltaAtHead(s.commits, src.head, src.base, p);
    DeltaAtHead(s.commits, tgt.head, src.base, p);
  }

  /** Whenever source and target both moved a path away from the base, to different values, the
      merge refuses and names that path. */
  lemma TrueConflictsAreReported(s: Store, source: string, target: string, p: Path)
    requires Inv(s) && source in s.workspaces && target in s.workspaces
    requires Ancestor(s.commits, s.workspaces[source].base, s.workspaces[target].head)
    requires var src, tgt := s.workspaces[source], s.workspaces[target];
      RealConflict(Get(TreeAt(s.commits, src.base), p),
                   Get(TreeAt(s.commits, src.head), p), Get(TreeAt(s.commits, tgt.head), p))
    ensures p in MergeConflicts(s, source, target)
  {
    var src, tgt := s.workspaces[source], s.workspaces[target];
    DeltaAtHead(s.commits, src.head, src.base, p);
    DeltaAtHead(s.commits, tgt.head, src.base, p);
  }

  /** The converse of `TrueConflictsAreReported` fails exactly where both sides touched the path, their
      heads differ there, and one head is back at the base's value: then the merge refuses although a
      three-way merge would take the other side's value. */
  lemma FalseConflictsExactly(s: Store, source: string, target: string, p: Path)
    requires Inv(s) && source in s.workspaces && target in s.workspaces
    requires Ancestor(s.commits, s.workspaces[source].base, s.workspaces[target].head)
    ensures var g := s.commits;
      var src, tgt := s.workspaces[source], s.workspaces[target];
      var b := Get(TreeAt(g, src.base), p);
      var x, y := Get(TreeAt(g, src.head), p), Get(TreeAt(g, tgt.head), p);
      p in MergeConflicts(s, source, target) && !RealConflict(b, x, y) <==>
        p in SourceDelta(s, source) && p in Delta(g, tgt.head, src.base) && x != y && (x == b || y == b)
  {
    ConflictsExactly(s, source, target, p);
    hide MergeConflicts, SourceDelta, Delta, TreeAt, Inv;
  }

  /** The merge that succeeds is the three-way merge: at every path the new commit's tree holds the
      source's value if it differs from the base's, and otherwise the target's, even where a delta
      spans commits that change the path and change it back. */
  lemma MergeIsThreeWay(s: Store, source: string, target: string, message: string, id: CommitId, p: Path)
    requires Inv(s) && MergeReply(s, source, target, message, id, false).Committed?
    ensures var t := MergeWorkspace(s, source, target, message, id, false).0;
      var g := s.commits;
      var src, tgt := s.workspaces[source], s.workspaces[target];
      && Inv(t)
      && Get(TreeAt(t.commits, id), p)
           == ThreeWay(Get(TreeAt(g, src.base), p), Get(TreeAt(g, src.head), p), Get(TreeAt(g, tgt.head), p))
  {
    var src, tgt := s.workspaces[source], s.workspaces[target];
    AfterMergeGood(s, source, target, id);
    AfterMergeShape(s, source, target, id);
    AppendExtends(s.commits, id, tgt.head, SourceDelta(s, source));
    OverlayGet(TreeAt(s.commits, tgt.head), SourceDelta(s, source), p);
    DeltaAtHead(s.commits, src.head, src.base, p);
    DeltaAtHead(s.commits, tgt.head, src.base, p);
    assert p !in MergeConflicts(s, source, target);
  }

  // ----- bases and repeated merges -----

  /** An untracked workspace has nothing to merge: merging from `main` is always a noop. */
  lemma MergingFromUntrackedIsNoop(s: Store, source: string, target: string, message: string, id: CommitId,
                                   rejected: bool)
    requires Inv(s) && source in s.workspaces && target in s.workspaces && source != target && !Blank(message)
    requires s.workspaces[source].tracking.None? && StagedOf(s, source) == map[]
    ensures MergeReply(s, source, target, message, id, rejected) == Noop(s.workspaces[target].head)
  {
  }

  /** After a successful merge source and target show the same committed tree, and neither has
      anything left to merge: repeating the merge is a noop, and what the target itself had changed
      since its old base is no longer part of its delta. */
  lemma MergeSettles(s: Store, source: string, target: string, message: string, id: CommitId)
    requires Inv(s) && MergeReply(s, source, target, message, id, false).Committed?
    ensures var t := MergeWorkspace(s, source, target, message, id, false).0;
      && Inv(t) && t.workspaces.Keys == s.workspaces.Keys
      && t.workspaces[source].head == t.workspaces[target].head == id
      && TreeAt(t.commits, t.workspaces[source].head) == TreeAt(t.commits, t.workspaces[target].head)
      && SourceDelta(t, source) == SourceDelta(t, target) == map[]
      && (forall again, id', rejected :: !Blank(again) ==>
            MergeWorkspace(t, source, target, again, id', rejected) == (t, Noop(id)))
  {
    AfterMergeGood(s, source, target, id);
    AfterMergeShape(s, source, target, id);
  }

  // ----- the order of merges -----

  predicate Agree(a: Changes, b: Changes) {
    forall p | p in a && p in b :: a[p] == b[p]
  }

  /** A workspace whose base is `b` and whose changes since then are `delta`, all of them committed. */
  ghost predicate Ready(s: Store, b: CommitId, ws: string, delta: Changes)
    requires Inv(s)
  {
    && ws in s.workspaces && ws != MAIN
    && s.workspaces[ws].base == b
    && SourceDelta(s, ws) == delta
    && StagedOf(s, ws) == map[]
  }

  /** `main` has `b` behind it and has changed `done` since. */
  ghost predicate MainSince(s: Store, b: CommitId, done: Changes)
    requires Inv(s)
  {
    Ancestor(s.commits, b, s.workspaces[MAIN].head) && Delta(s.commits, s.workspaces[MAIN].head, b) == done
  }

  /** Merge the workspaces of a list into `main`, one after the other. */
  function MergeAll(s: Store, order: seq<string>, ids: seq<CommitId>, message: string): (Store, seq<Reply>)
    requires Inv(s) && |ids| == |order|
    decreases |order|
  {
    if order == [] then (s, [])
    else
      MergeGood(s, order[0], MAIN, message, ids[0], false);
      var (t, reply) := MergeWorkspace(s, order[0], MAIN, message, ids[0], false);
      var (u, replies) := MergeAll(t, order[1..], ids[1..], message);
      (u, [reply] + replies)
  }

  function UnionOf(deltas: seq<Changes>): Changes {
    if deltas == [] then map[] else deltas[0] + UnionOf(deltas[1..])
  }

  lemma UnionStep(done: Changes, deltas: seq<Changes>)
    ensures deltas == [] ==> done + UnionOf(deltas) == done
    ensures deltas != [] ==> done + UnionOf(deltas) == (done + deltas[0]) + UnionOf(deltas[1..])
  {
  }

  ghost predicate AllReady(s: Store, b: CommitId, order: seq<string>, deltas: seq<Changes>)
    requires Inv(s) && |deltas| == |order|
  {
    forall i :: 0 <= i < |order| ==> Ready(s, b, order[i], deltas[i])
  }

  ghost predicate AllAgree(done: Changes, deltas: seq<Changes>) {
    && (forall i :: 0 <= i < |deltas| ==> Agree(deltas[i], done))
    && (forall i, j :: 0 <= i < j < |deltas| ==> Agree(deltas[j], deltas[i]))
  }

  ghost predicate Distinct<T>(l: seq<T>) {
    forall i, j :: 0 <= i < j < |l| ==> l[i] != l[j]
  }

  lemma AgreeingDeltasDoNotConflict(s: Store, b: CommitId, ws: string, delta: Changes, done: Changes)
    requires Inv(s) && MainSince(s, b, done) && Ready(s, b, ws, delta) && Agree(delta, done)
    ensures MergeConflicts(s, ws, MAIN) == map[]
  {
  }

  lemma OthersStayReady(s: Store, b: CommitId, ws: string, id: CommitId, w: string, d: Changes)
    requires Inv(s) && ws in s.workspaces && ws != MAIN && id !in s.commits && w != ws && Ready(s, b, w, d)
    ensures Inv(AfterMerge(s, ws, MAIN, id)) && Ready(AfterMerge(s, ws, MAIN, id), b, w, d)
  {
    AfterMergeGood(s, ws, MAIN, id);
    AfterMergeShape(s, ws, MAIN, id);
    ExtensionKeepsDelta(s.commits, AfterMerge(s, ws, MAIN, id).commits, s.workspaces[w].head, b);
  }

  lemma MainHasMore(s: Store, b: CommitId, ws: string, delta: Changes, done: Changes, id: CommitId)
    requires Inv(s) && MainSince(s, b, done) && Ready(s, b, ws, delta) && id !in s.commits
    ensures var t := AfterMerge(s, ws, MAIN, id);
      Inv(t) && Extends(s.commits, t.commits) && MainSince(t, b, done + delta)
  {
    AfterMergeGood(s, ws, MAIN, id);
    AfterMergeShape(s, ws, MAIN, id);
    AppendDelta(s.commits, id, s.workspaces[MAIN].head, delta, b);
  }

  /** One merge of the series: it is accepted, `main` then has the delta too, and every other
      workspace is as ready as before. */
  lemma OneMergeOfMany(s: Store, b: CommitId, ws: string, delta: Changes, done: Changes, message: string, id: CommitId)
    requires Inv(s) && MainSince(s, b, done) && Ready(s, b, ws, delta) && Agree(delta, done)
    requires !Blank(message) && id !in s.commits
    ensures var (t, reply) := MergeWorkspace(s, ws, MAIN, message, id, false);
      && Inv(t) && Extends(s.commits, t.commits) && t.commits.Keys <= s.commits.Keys + {id}
      && !reply.Failed?
      && MainSince(t, b, done + delta)
      && (forall w, d :: w != ws && Ready(s, b, w, d) ==> Ready(t, b, w, d))
  {
    AgreeingDeltasDoNotConflict(s, b, ws, delta, done);
    if delta == map[] {
      assert done + delta == done;
    } else {
      assert MergeReply(s, ws, MAIN, message, id, false) == Committed(id, delta.Keys);
      MainHasMore(s, b, ws, delta, done, id);
      hide Ready, MainSince;
      forall w, d | w != ws && Ready(s, b, w, d) ensures Ready(AfterMerge(s, ws, MAIN, id), b, w, d) {
        OthersStayReady(s, b, ws, id, w, d);
      }
    }
  }

  lemma AgreeWithMore(done: Changes, deltas: seq<Changes>)
    requires deltas != [] && AllAgree(done, deltas)
    ensures AllAgree(done + deltas[0], deltas[1..])
  {
  }

  lemma MainHasTree(s: Store, b: CommitId, done: Changes)
    requires Inv(s) && MainSince(s, b, done)
    ensures b in s.commits && MAIN in s.workspaces && s.workspaces[MAIN].head in s.commits && WellFormed(s.commits)
    ensures TreeAt(s.commits, s.workspaces[MAIN].head) == Overlay(TreeAt(s.commits, b), done)
  {
    DeltaBridges(s.commits, s.workspaces[MAIN].head, b);
  }

  lemma ForkPointStays(s: Store, t: Store, b: CommitId)
    requires Inv(s) && Inv(t) && Extends(s.commits, t.commits) && b in s.commits
    ensures WellFormed(s.commits) && WellFormed(t.commits) && b in t.commits
    ensures TreeAt(t.commits, b) == TreeAt(s.commits, b)
  {
    ExtensionKeepsCommit(s.commits, t.commits, b);
  }

  lemma RestOfDistinct<T>(l: seq<T>)
    requires l != [] && Distinct(l)
    ensures Distinct(l[1..]) && l[0] !in l[1..]
  {
  }

  lemma FirstOfMany(s: Store, b: CommitId, done: Changes, order: seq<string>, deltas: seq<Changes>)
    requires Inv(s) && order != [] && |deltas| == |order| && AllReady(s, b, order, deltas) && AllAgree(done, deltas)
    ensures Ready(s, b, order[0], deltas[0]) && Agree(deltas[0], done)
  {
  }

  lemma ExtendsTransitive(f: Graph, g: Graph, h: Graph)
    requires Extends(f, g) && Extends(g, h)
    ensures Extends(f, h)
  {
  }

  lemma ExtendsItself(g: Graph)
    ensures Extends(g, g)
  {
  }

  lemma AllStayReady(s: Store, t: Store, b: CommitId, order: seq<string>, deltas: seq<Changes>)
    requires Inv(s) && Inv(t) && order != [] && |deltas| == |order| && Distinct(order)
    requires AllReady(s, b, order, deltas)
    requires forall w, d :: w != order[0] && Ready(s, b, w, d) ==> Ready(t, b, w, d)
    ensures AllReady(t, b, order[1..], deltas[1..])
  {
    hide Ready;
  }

  /** Workspaces forked from one commit of `main`, all committed, whose deltas agree wherever they
      touch the same path, with each other and with what `main` did since: merging them into `main`
      never fails, and leaves the fork point's tree overlaid with everybody's changes. */
  lemma {:induction false} MergingAllSucceeds(s: Store, b: CommitId, done: Changes, order: seq<string>,
                                              deltas: seq<Changes>,
                                              ids: seq<CommitId>, message: string)
    requires Inv(s) && MainSince(s, b, done)
    requires |deltas| == |order| == |ids| && AllReady(s, b, order, deltas) && AllAgree(done, deltas)
    requires Distinct(order) && Distinct(ids) && (forall id :: id in ids ==> id !in s.commits) && !Blank(message)
    ensures var (t, replies) := MergeAll(s, order, ids, message);
      && Inv(t) && (forall r :: r in replies ==> !r.Failed?)
      && Extends(s.commits, t.commits) && b in s.commits
      && TreeAt(t.commits, t.workspaces[MAIN].head) == Overlay(TreeAt(s.commits, b), done + UnionOf(deltas))
    decreases |order|
  {
    hide Inv, Ready, MainSince, AllReady, AllAgree, MergeWorkspace, Overlay, TreeAt, Extends, UnionOf, Distinct;
    MainHasTree(s, b, done);
    if order == [] {
      ExtendsItself(s.commits);
      UnionStep(done, deltas);
    } else {
      var t := MergeWorkspace(s, order[0], MAIN, message, ids[0], false).0;
      FirstOfMany(s, b, done, order, deltas);
      RestOfDistinct(order);
      RestOfDistinct(ids);
      OneMergeOfMany(s, b, order[0], deltas[0], done, message, ids[0]);
      AgreeWithMore(done, deltas);
      AllStayReady(s, t, b, order, deltas);
      MergingAllSucceeds(t, b, done + deltas[0], order[1..], deltas[1..], ids[1..], message);
      ForkPointStays(s, t, b);
      ExtendsTransitive(s.commits, t.commits, MergeAll(s, order, ids, message).0.commits);
      UnionStep(done, deltas);
    }
  }

  /** The union of agreeing deltas says of each path what any delta touching it says. */
  lemma {:induction false} UnionIsAnyOf(deltas: seq<Changes>, p: Path)
    requires AllAgree(map[], deltas)
    ensures p in UnionOf(deltas) <==> exists i :: 0 <= i < |deltas| && p in deltas[i]
    ensures forall i :: 0 <= i < |deltas| && p in deltas[i] ==> UnionOf(deltas)[p] == deltas[i][p]
  {
    if deltas != [] {
      UnionIsAnyOf(deltas[1..], p);
      if p in UnionOf(deltas[1..]) {
        var j :| 0 <= j < |deltas[1..]| && p in deltas[1..][j];
        assert deltas[j + 1] == deltas[1..][j];
      }
    }
  }

  lemma UnionIgnoresOrder(a: seq<Changes>, b: seq<Changes>)
    requires AllAgree(map[], a) && AllAgree(map[], b)
    requires forall d :: d in a <==> d in b
    ensures UnionOf(a) == UnionOf(b)
  {
    forall p
      ensures p in UnionOf(a) <==> p in UnionOf(b)
      ensures p in UnionOf(a) ==> UnionOf(a)[p] == UnionOf(b)[p]
    {
      UnionIsAnyOf(a, p);
      UnionIsAnyOf(b, p);
      if p in UnionOf(a) {
        var i :| 0 <= i < |a| && p in a[i];
        assert a[i] in b;
        var j :| 0 <= j < |b| && b[j] == a[i];
      }
      if p in UnionOf(b) {
        var j :| 0 <= j < |b| && p in b[j];
        assert b[j] in a;
        var i :| 0 <= i < |a| && a[i] == b[j];
      }
    }
  }

  /** The order of the merges does not matter: two series over the same workspaces, whatever their
      commit ids and messages, leave the same tree on `main`. */
  lemma MergeOrderDoesNotMatter(s: Store, b: CommitId, done: Changes,
                                order: seq<string>, deltas: seq<Changes>, ids: seq<CommitId>, message: string,
                                order': seq<string>, deltas': seq<Changes>, ids': seq<CommitId>, message': string)
    requires Inv(s) && MainSince(s, b, done)
    requires |deltas| == |order| == |ids| && AllReady(s, b, order, deltas) && AllAgree(done, deltas)
    requires Distinct(order) && Distinct(ids) && (forall id :: id in ids ==> id !in s.commits) && !Blank(message)
    requires |deltas'| == |order'| == |ids'| && AllReady(s, b, order', deltas') && AllAgree(done, deltas')
    requires Distinct(order') && Distinct(ids') && (forall id :: id in ids' ==> id !in s.commits) && !Blank(message')
    requires forall w :: w in order <==> w in order'
    ensures var t, t' := MergeAll(s, order, ids, message).0, MergeAll(s, order', ids', message').0;
      && Inv(t) && Inv(t')
      && TreeAt(t.commits, t.workspaces[MAIN].head) == TreeAt(t'.commits, t'.workspaces[MAIN].head)
  {
    MergingAllSucceeds(s, b, done, order, deltas, ids, message);
    MergingAllSucceeds(s, b, done, order', deltas', ids', message');
    SameDeltas(s, b, order, deltas, order', deltas');
    SameDeltas(s, b, order', deltas', order, deltas);
    UnionIgnoresOrder(deltas, deltas');
  }

  lemma SameDeltas(s: Store, b: CommitId, order: seq<string>, deltas: seq<Changes>, order': seq<string>,
                   deltas': seq<Changes>)
    requires Inv(s) && |deltas| == |order| && |deltas'| == |order'|
    requires AllReady(s, b, order, deltas) && AllReady(s, b, order', deltas')
    requires forall w :: w in order ==> w in order'
    ensures forall d :: d in deltas ==> d in deltas'
  {
    forall i | 0 <= i < |deltas| ensures deltas[i] in deltas' {
      assert order[i] in order';
      var j :| 0 <= j < |order'| && order'[j] == order[i];
      assert deltas'[j] == SourceDelta(s, order[i]);
    }
  }
}
