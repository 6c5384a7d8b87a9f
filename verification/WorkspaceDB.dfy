/** The database as an object: tables updated in place, walks written as loops, and the cache kept
    in step.  Every public method is proved to be the corresponding step of `CachedStore`. */
module WorkspaceDB {
  import opened Wrappers
  import opened History
  import opened Workspaces
  import DirectoryTree
  import TreeBuilder
  import CachedStore
  import opened Cache

  class WorkspaceDB {
    var blobs: Blobs
    var commits: Graph
    var workspaces: map<string, Workspace>
    var staged: map<string, Changes>
    var snapshots: map<string, Snapshot>
    const cache: WorkspaceCache

    function Tables(): Store
      reads this
    {
      Store(blobs, commits, workspaces, staged, snapshots)
    }

    ghost function View(): CachedStore.Cached
      reads this, cache.b
    {
      CachedStore.Cached(Tables(), cache.b.store, cache.b.max)
    }

    ghost predicate Valid()
      reads this, cache.b
    {
      Inv(Tables()) && cache.b.Valid()
    }

    /** A fresh database: a root commit and `main`. */
    constructor (cache: WorkspaceCache, root: CommitId)
      requires cache.b.Valid()
      ensures Valid() && this.cache == cache && Tables() == Initial(root)
    {
      this.cache := cache;
      blobs := map[];
      commits := map[root := Commit(None, map[], 0)];
      workspaces := map[MAIN := Workspace(root, root, None)];
      staged := map[];
      snapshots := map[];
    }

    // ----- walks -----

    /** The commits from `head` back to the root, or back to `stopAt`, which must be among them. */
    method CommitChain(head: CommitId, stopAt: Option<CommitId>) returns (r: Result<seq<CommitId>, StoreError>)
      requires Inv(Tables()) && head in commits
      ensures stopAt.None? ==> r == Success(Chain(commits, head))
      ensures stopAt.Some? && Ancestor(commits, stopAt.value, head) ==>
        r == Success(ChainUntil(commits, head, stopAt.value))
      ensures stopAt.Some? && !Ancestor(commits, stopAt.value, head) ==> r == Failure(NotAnAncestor)
    {
      var chain := [];
      var current := Some(head);
      while current.Some? && current != stopAt
        invariant current.Some? ==> current.value in commits
        invariant WillStop(commits, Some(head), stopAt) <==> WillStop(commits, current, stopAt)
        invariant WillStop(commits, Some(head), stopAt) ==>
          StillToList(commits, Some(head), stopAt) == chain + StillToList(commits, current, stopAt)
        decreases if current.Some? then commits[current.value].rank + 1 else 0
      {
        hide Ancestor, StillToList, WillStop, RowsInOrder, StagingInOrder, HistoryStored, SnapshotsInOrder;
        WalkStep(commits, chain, current.value, stopAt);
        chain := chain + [current.value];
        current := commits[current.value].parent;
      }
      if stopAt.Some? && current != stopAt { return Failure(NotAnAncestor); }
      assert chain + [] == chain;
      r := Success(chain);
    }

    /** The newest change to a path, looked up commit by commit. */
    method ResolvePath(head: CommitId, p: Path) returns (r: Option<Change>)
      requires Inv(Tables()) && head in commits
      ensures r == Resolve(commits, head, p)
    {
      var chain := CommitChain(head, None);
      for i := 0 to |chain.value|
        invariant i < |chain.value| ==>
          chain.value[i] in commits && Resolve(commits, head, p) == Resolve(commits, chain.value[i], p)
        invariant i == |chain.value| ==> Resolve(commits, head, p) == None
      {
        var c := chain.value[i];
        if p in commits[c].changes { return Some(commits[c].changes[p]); }
        ChainLinks(commits, head, i);
      }
      r := None;
    }

    /** What a walk has found so far, together with what the rest of it would find, is the whole. */
    static ghost predicate Found(whole: History.Tree, files: DirectoryTree.Snapshot, seen: set<Path>,
                                 rest: History.Tree) {
      && files.Keys <= seen
      && forall p ::
        Get(whole, p) == if p in seen then (if p in files then Some(files[p].hash) else None) else Get(rest, p)
    }

    /** Every file of a walk has the size of its blob, and none is staged. */
    ghost predicate Sized(files: DirectoryTree.Snapshot)
      reads this
    {
      forall p :: p in files ==>
        files[p] == DirectoryTree.FileInfo(files[p].hash, SizeOf(Tables(), files[p].hash), false)
    }

    /** The files of a commit, newest change first. */
    method SnapshotAtCommit(head: CommitId) returns (files: DirectoryTree.Snapshot)
      requires Inv(Tables()) && head in commits
      ensures files == Unstaged(TreeAt(commits, head))
    {
      files := map[];
      var seen: set<Path> := {};
      var chain := CommitChain(head, None);
      ghost var whole := TreeAt(commits, head);
      for i := 0 to |chain.value|
        invariant i < |chain.value| ==> chain.value[i] in commits
        invariant Found(whole, files, seen, if i < |chain.value| then TreeAt(commits, chain.value[i]) else NO_FILES)
        invariant Sized(files)
      {
        var c := chain.value[i];
        ChainLinks(commits, head, i);
        ghost var parent := if commits[c].parent.Some? then TreeAt(commits, commits[c].parent.value) else NO_FILES;
        files, seen := TakeRows(commits[c].changes, files, seen, whole, parent);
      }
      forall p ensures Get(whole, p) == if p in files then Some(files[p].hash) else None {
        assert Get(NO_FILES, p) == None;
      }
      assert forall p :: p in whole <==> Get(whole, p).Some?;
    }

    /** The flat view of a committed tree. */
    ghost function Unstaged(t: History.Tree): DirectoryTree.Snapshot
      reads this
    {
      map p | p in t :: DirectoryTree.FileInfo(t[p], SizeOf(Tables(), t[p]), false)
    }

    /** The rows of one commit: a path already seen is skipped, a deletion only marks it seen. */
    method TakeRows(rows: Changes, files: DirectoryTree.Snapshot, seen: set<Path>,
                    ghost whole: History.Tree, ghost rest: History.Tree)
      returns (files': DirectoryTree.Snapshot, seen': set<Path>)
      requires Found(whole, files, seen, Overlay(rest, rows))
      requires Sized(files)
      ensures Found(whole, files', seen', rest)
      ensures Sized(files')
    {
      files', seen' := files, seen;
      var todo := rows.Keys;
      while todo != {}
        invariant todo <= rows.Keys && rows.Keys - todo <= seen'
        invariant Found(whole, files', seen', Overlay(rest, rows))
        invariant Sized(files')
      {
        var p :| p in todo;
        todo := todo - {p};
        OverlayGet(rest, rows, p);
        if p !in seen' {
          seen' := seen' + {p};
          if rows[p].Upsert? {
            files' := files'[p := DirectoryTree.FileInfo(rows[p].hash, SizeOf(Tables(), rows[p].hash), false)];
          }
        }
      }
      forall p | p !in seen' ensures Get(Overlay(rest, rows), p) == Get(rest, p) { OverlayGet(rest, rows, p); }
    }

    /** The files a workspace shows: its head's, with the staged rows applied in place. */
    method SnapshotForWorkspace(ws: string) returns (files: DirectoryTree.Snapshot)
      requires Inv(Tables()) && ws in workspaces
      ensures files == SnapshotFor(Tables(), ws)
    {
      files := SnapshotAtCommit(workspaces[ws].head);
      ghost var before := files;
      var rows := StagedOf(Tables(), ws);
      var todo := rows.Keys;
      while todo != {}
        invariant todo <= rows.Keys
        invariant forall p :: p !in rows || p in todo ==> Get(files, p) == Get(before, p)
        invariant forall p :: p in rows && p !in todo ==>
          Get(files, p) == match rows[p]
            case Delete => None
            case Upsert(h) => Some(DirectoryTree.FileInfo(h, SizeOf(Tables(), h), true))
      {
        var p :| p in todo;
        todo := todo - {p};
        if rows[p].Delete? {
          files := files - {p};
        } else {
          files := files[p := DirectoryTree.FileInfo(rows[p].hash, SizeOf(Tables(), rows[p].hash), true)];
        }
      }
      SnapshotByPath(ws, before, files);
    }

    lemma SnapshotByPath(ws: string, before: DirectoryTree.Snapshot, files: DirectoryTree.Snapshot)
      requires Inv(Tables()) && ws in workspaces && before == Unstaged(TreeAt(commits, workspaces[ws].head))
      requires forall p :: p !in StagedOf(Tables(), ws) ==> Get(files, p) == Get(before, p)
      requires forall p :: p in StagedOf(Tables(), ws) ==>
        Get(files, p) == match StagedOf(Tables(), ws)[p]
          case Delete => None
          case Upsert(h) => Some(DirectoryTree.FileInfo(h, SizeOf(Tables(), h), true))
      ensures files == SnapshotFor(Tables(), ws)
    {
      forall p ensures Get(files, p) == Get(SnapshotFor(Tables(), ws), p) {
        OverlayGet(TreeAt(commits, workspaces[ws].head), StagedOf(Tables(), ws), p);
      }
      forall p ensures p in files <==> p in SnapshotFor(Tables(), ws) {
        assert Get(files, p) == Get(SnapshotFor(Tables(), ws), p);
      }
      forall p | p in files ensures files[p] == SnapshotFor(Tables(), ws)[p] {
        assert Get(files, p) == Get(SnapshotFor(Tables(), ws), p);
      }
    }

    /** The staged rows that change something: a deletion of a path the head does not have and an
        upsert of the blob it already has are left out. */
    method EffectiveStagedChanges(ws: string) returns (rows: Changes)
      requires Inv(Tables()) && ws in workspaces
      ensures rows == Effective(Tables(), ws)
    {
      rows := map[];
      var head := workspaces[ws].head;
      var staging := StagedOf(Tables(), ws);
      var todo := staging.Keys;
      while todo != {}
        invariant todo <= staging.Keys
        invariant forall p :: p in rows <==>
          p in staging && p !in todo && Leaves(staging[p]) != Get(TreeAt(commits, head), p)
        invariant forall p :: p in rows ==> rows[p] == staging[p]
      {
        var p :| p in todo;
        todo := todo - {p};
        var current := ResolvePath(head, p);
        ResolveIsReplay(commits, head, p);
        if staging[p].Delete? {
          if current.Some? && current.value.Upsert? { rows := rows[p := Delete]; }
        } else if !(current.Some? && current.value == staging[p]) {
          rows := rows[p := staging[p]];
        }
      }
    }

    /** What a walk has collected so far, together with what the rest of it would add. */
    static ghost predicate Collected(whole: Changes, changes: Changes, rest: Changes) {
      forall p :: Get(whole, p) == if p in changes then Some(changes[p]) else Get(rest, p)
    }

    /** The newest change of every path touched since `base`. */
    method CollectChangesSince(head: CommitId, base: CommitId) returns (r: Result<Changes, StoreError>)
      requires Inv(Tables()) && head in commits
      ensures Ancestor(commits, base, head) ==> r == Success(Delta(commits, head, base))
      ensures !Ancestor(commits, base, head) ==> r == Failure(NotAnAncestor)
    {
      var chain := CommitChain(head, Some(base));
      if chain.Failure? { return Failure(chain.error); }
      AncestorsExist(commits, base, head);
      var changes: Changes := map[];
      ghost var whole := Delta(commits, head, base);
      for i := 0 to |chain.value|
        invariant i < |chain.value| ==> chain.value[i] in commits && Ancestor(commits, base, chain.value[i])
        invariant Collected(whole, changes,
                            if i < |chain.value| then Delta(commits, chain.value[i], base) else NO_CHANGES)
      {
        var c := chain.value[i];
        ChainUntilLinks(commits, head, base, i);
        changes := SetDefaults(commits[c].changes, changes, whole, Delta(commits, commits[c].parent.value, base));
      }
      CollectedAll(whole, changes);
      r := Success(changes);
    }

    static lemma CollectedAll(whole: Changes, changes: Changes)
      requires Collected(whole, changes, NO_CHANGES)
      ensures changes == whole
    {
      forall p ensures p in whole <==> p in changes {
        assert Get(whole, p) == if p in changes then Some(changes[p]) else Get(NO_CHANGES, p);
      }
      forall p | p in whole ensures changes[p] == whole[p] {
        assert Get(whole, p) == if p in changes then Some(changes[p]) else Get(NO_CHANGES, p);
      }
    }

    /** The rows of one commit: each path keeps the change it already has. */
    method SetDefaults(rows: Changes, changes: Changes, ghost whole: Changes,
                       ghost rest: Changes) returns (changes': Changes)
      requires Collected(whole, changes, rest + rows)
      ensures Collected(whole, changes', rest)
    {
      changes' := changes;
      var todo := rows.Keys;
      while todo != {}
        invariant todo <= rows.Keys && rows.Keys - todo <= changes'.Keys
        invariant Collected(whole, changes', rest + rows)
      {
        var p :| p in todo;
        todo := todo - {p};
        if p !in changes' { changes' := changes'[p := rows[p]]; }
      }
    }

    /** The paths two deltas disagree on. */
    method FindConflicts(source: Changes, target: Changes) returns (conflicts: map<Path, Conflict>)
      ensures conflicts == Conflicts(source, target)
    {
      conflicts := map[];
      var todo := source.Keys;
      while todo != {}
        invariant todo <= source.Keys
        invariant forall p :: p in conflicts <==> p in source && p !in todo && p in target && source[p] != target[p]
        invariant forall p :: p in conflicts ==> conflicts[p] == Conflict(source[p], target[p])
      {
        var p :| p in todo;
        todo := todo - {p};
        if p in target && source[p] != target[p] {
          conflicts := conflicts[p := Conflict(source[p], target[p])];
        }
      }
    }

    // ----- operations that change the tables -----

    method CreateWorkspace(name: string, from: string) returns (reply: Reply)
      requires Valid()
      modifies this
      ensures Valid()
      ensures (Tables(), reply) == Workspaces.CreateWorkspace(old(Tables()), name, from)
    {
      CreateGood(Tables(), name, from);
      if name == "" || name == from { return Failed(Invalid); }
      if from !in workspaces { return Failed(NotFound); }
      if name in workspaces { return Failed(Invalid); }
      var head := workspaces[from].head;
      workspaces := workspaces[name := Workspace(head, head, Some(from))];
      reply := Done;
    }

    method WriteFile(ws: string, p: Path, h: Hash, content: string) returns (reply: Reply)
      requires Valid()
      modifies this, cache.b
      ensures Valid()
      ensures (Tables(), reply) == Workspaces.WriteFile(old(Tables()), ws, p, h, content)
      ensures cache.b.store == CachedStore.Invalidated(old(cache.b.store), OpWrite(ws, p, h, content), reply)
    {
      hide Keeps, ByteSize, CachedStore.InvalidateFile;
      WriteGood(Tables(), ws, p, h, content);
      if ws !in workspaces { return Failed(NotFound); }
      if h !in blobs { blobs := blobs[h := Blob(content, ByteSize(content))]; }
      staged := staged[ws := StagedOf(Tables(), ws)[p := Upsert(h)]];
      cache.InvalidateFile(ws, p);
      reply := Done;
    }

    method DeleteFile(ws: string, p: Path) returns (reply: Reply)
      requires Valid()
      modifies this, cache.b
      ensures Valid()
      ensures (Tables(), reply) == Workspaces.DeleteFile(old(Tables()), ws, p)
      ensures cache.b.store == CachedStore.Invalidated(old(cache.b.store), OpDelete(ws, p), reply)
    {
      DeleteGood(Tables(), ws, p);
      if ws !in workspaces { return Failed(NotFound); }
      staged := staged[ws := StagedOf(Tables(), ws)[p := Delete]];
      cache.InvalidateFile(ws, p);
      reply := Done;
    }

    method CommitWorkspace(ws: string, message: string, id: CommitId, rejected: bool) returns (reply: Reply)
      requires Valid()
      modifies this, cache.b
      ensures Valid()
      ensures (Tables(), reply) == Workspaces.CommitWorkspace(old(Tables()), ws, message, id, rejected)
      ensures cache.b.store == CachedStore.Invalidated(old(cache.b.store), OpCommit(ws, message, id, rejected), reply)
    {
      HeadsExist(Tables(), ws);
      hide Inv, Effective, AfterCommit;
      if Blank(message) { return Failed(Invalid); }
      if ws !in workspaces { return Failed(NotFound); }
      var effective := EffectiveStagedChanges(ws);
      if effective == map[] { return Noop(workspaces[ws].head); }
      if rejected { return Failed(Rejected); }
      if id in commits { return Failed(DuplicateCommit); }
      RecordCommit(ws, id, effective);
      reply := Committed(id, effective.Keys);
    }

    /** The writes of a commit: its row and its changes, the emptied staging, the moved head. */
    method RecordCommit(ws: string, id: CommitId, effective: Changes)
      requires Valid() && ws in workspaces && id !in commits && effective == Effective(Tables(), ws)
      modifies this, cache.b
      ensures Valid()
      ensures Tables() == AfterCommit(old(Tables()), ws, id)
      ensures cache.b.store == CachedStore.InvalidateWorkspace(old(cache.b.store), ws)
    {
      assert Inv(AfterCommit(Tables(), ws, id)) by { AfterCommitGood(Tables(), ws, id); }
      hide Inv, Effective;
      var row := workspaces[ws];
      commits := Append(commits, id, row.head, effective);
      staged := staged - {ws};
      var base := if row.tracking.None? then id else row.base;
      workspaces := workspaces[ws := row.(head := id, base := base)];
      cache.InvalidateWorkspace(ws);
    }

    method MergeWorkspace(source: string, target: string, message: string, id: CommitId,
                          rejected: bool) returns (reply: Reply)
      requires Valid()
      modifies this, cache.b
      ensures Valid()
      ensures (Tables(), reply) == Workspaces.MergeWorkspace(old(Tables()), source, target, message, id, rejected)
      ensures cache.b.store
           == CachedStore.Invalidated(old(cache.b.store), OpMerge(source, target, message, id, rejected), reply)
    {
      hide Inv, MergeReply, AfterMerge, SourceDelta;
      var delta;
      reply, delta := PrepareMerge(source, target, message, id, rejected);
      if reply.Committed? { RecordMerge(source, target, id, delta); }
    }

    /** The checks of a merge, in order, and the source's changes that pass them. */
    method PrepareMerge(source: string, target: string, message: string, id: CommitId, rejected: bool)
      returns (reply: Reply, delta: Changes)
      requires Valid()
      ensures reply == MergeReply(Tables(), source, target, message, id, rejected)
      ensures reply.Committed? ==>
        source in workspaces && target in workspaces && id !in commits && delta == SourceDelta(Tables(), source)
    {
      HeadsExist(Tables(), source);
      HeadsExist(Tables(), target);
      hide Inv, Delta, Ancestor, MergeConflicts;
      delta := map[];
      if source == target || Blank(message) { return Failed(Invalid), delta; }
      if source !in workspaces || target !in workspaces { return Failed(NotFound), delta; }
      if StagedOf(Tables(), source) != map[] { return Failed(Invalid), delta; }
      var sourceDelta := CollectChangesSince(workspaces[source].head, workspaces[source].base);
      delta := sourceDelta.value;
      if delta == map[] { return Noop(workspaces[target].head), delta; }
      var conflicts := ConflictsOf(source, target, delta);
      if conflicts.Failure? { return Failed(conflicts.error), delta; }
      if conflicts.value != map[] { return Failed(Conflicting(conflicts.value)), delta; }
      if rejected { return Failed(Rejected), delta; }
      if id in commits { return Failed(DuplicateCommit), delta; }
      reply := Committed(id, delta.Keys);
    }

    /** The target's side of a merge: its changes since the source's base, held against the source's. */
    method ConflictsOf(source: string, target: string,
                       delta: Changes) returns (r: Result<map<Path, Conflict>, StoreError>)
      requires Inv(Tables()) && source in workspaces && target in workspaces && delta == SourceDelta(Tables(), source)
      ensures Ancestor(commits, workspaces[source].base, workspaces[target].head) ==>
        r == Success(MergeConflicts(Tables(), source, target))
      ensures !Ancestor(commits, workspaces[source].base, workspaces[target].head) ==> r == Failure(NotAnAncestor)
    {
      var targetDelta := CollectChangesSince(workspaces[target].head, workspaces[source].base);
      if targetDelta.Failure? { return Failure(targetDelta.error); }
      var conflicts := FindConflicts(delta, targetDelta.value);
      r := Success(conflicts);
    }

    /** The writes of a merge: one commit on the target's head, to which both workspaces move. */
    method RecordMerge(source: string, target: string, id: CommitId, delta: Changes)
      requires Valid() && source in workspaces && target in workspaces && id !in commits
      requires delta == SourceDelta(Tables(), source)
      modifies this, cache.b
      ensures Valid()
      ensures Tables() == AfterMerge(old(Tables()), source, target, id)
      ensures cache.b.store ==
        CachedStore.InvalidateWorkspace(CachedStore.InvalidateWorkspace(old(cache.b.store), source), target)
    {
      assert Inv(AfterMerge(Tables(), source, target, id)) by { AfterMergeGood(Tables(), source, target, id); }
      hide Inv, Delta;
      var src, tgt := workspaces[source], workspaces[target];
      commits := Append(commits, id, tgt.head, delta);
      workspaces := workspaces[target := tgt.(head := id, base := id)];
      workspaces := workspaces[source := src.(head := id, base := id)];
      cache.InvalidateWorkspace(source);
      cache.InvalidateWorkspace(target);
    }

    method CreateSnapshot(ws: string, name: string) returns (reply: Reply)
      requires Valid()
      modifies this
      ensures Valid()
      ensures (Tables(), reply) == Workspaces.CreateSnapshot(old(Tables()), ws, name)
    {
      SnapshotGood(Tables(), ws, name);
      if name == "" { return Failed(Invalid); }
      if ws !in workspaces { return Failed(NotFound); }
      if name in snapshots { return Failed(Invalid); }
      snapshots := snapshots[name := Snapshot(ws, workspaces[ws].head)];
      reply := Done;
    }

    method RollbackStaged(ws: string) returns (reply: Reply)
      requires Valid()
      modifies this, cache.b
      ensures Valid()
      ensures (Tables(), reply) == Workspaces.RollbackStaged(old(Tables()), ws)
      ensures cache.b.store == CachedStore.Invalidated(old(cache.b.store), OpRollback(ws), reply)
    {
      RollbackGood(Tables(), ws);
      if ws !in workspaces { return Failed(NotFound); }
      staged := staged - {ws};
      cache.InvalidateWorkspace(ws);
      reply := Done;
    }

    method ResetWorkspace(ws: string, target: CommitId) returns (reply: Reply)
      requires Valid()
      modifies this, cache.b
      ensures Valid()
      ensures (Tables(), reply) == Workspaces.ResetWorkspace(old(Tables()), ws, target)
      ensures cache.b.store == CachedStore.Invalidated(old(cache.b.store), OpReset(ws, target), reply)
    {
      HeadsExist(Tables(), ws);
      hide Inv, Ancestor, Chain;
      if ws !in workspaces { return Failed(NotFound); }
      if target !in commits { return Failed(NotFound); }
      var chain := CommitChain(workspaces[ws].head, None);
      ChainListsAncestors(commits, target, workspaces[ws].head);
      if target !in chain.value { return Failed(Invalid); }
      MoveTo(ws, target);
      reply := Done;
    }

    /** The writes of a reset: staging emptied, head and base moved to an ancestor. */
    method MoveTo(ws: string, target: CommitId)
      requires Valid() && ws in workspaces && Ancestor(commits, target, workspaces[ws].head)
      modifies this, cache.b
      ensures Valid()
      ensures Tables() == SetRow(Unstage(old(Tables()), ws), ws, old(workspaces[ws]).(head := target, base := target))
      ensures cache.b.store == CachedStore.InvalidateWorkspace(old(cache.b.store), ws)
    {
      MoveKeepsInv(Tables(), ws, target);
      hide Inv;
      staged := staged - {ws};
      workspaces := workspaces[ws := workspaces[ws].(head := target, base := target)];
      cache.InvalidateWorkspace(ws);
    }

    // ----- operations that read -----

    method LoadBlobText(h: Hash, now: real) returns (text: Option<string>)
      requires Valid()
      modifies cache.b
      ensures Valid()
      ensures (View(), text) == CachedStore.LoadBlob(old(View()), h, now)
    {
      text := cache.GetBlob(h, now);
      if text.Some? { return; }
      if h !in blobs { return None; }
      text := Some(blobs[h].content);
      cache.SetBlob(h, blobs[h].content, now);
    }

    /** The end of every successful read: the blob's text in a result row. */
    method ViewOf(ws: string, p: Path, h: Hash, source: Source, head: CommitId, now: real) returns (reply: Reply)
      requires Valid()
      modifies cache.b
      ensures Valid()
      ensures (View(), reply) == CachedStore.LoadInto(old(View()), ws, p, h, source, head, now)
    {
      var text := LoadBlobText(h, now);
      reply := if text.Some? then File(FileView(ws, p, text.value, h, source, head)) else Failed(NotFound);
    }

    method ReadFile(ws: string, p: Path, now: real) returns (reply: Reply)
      requires Valid()
      modifies cache.b
      ensures Valid()
      ensures (View(), reply) == CachedStore.CachedRead(old(View()), ws, p, now)
    {
      var cached := cache.GetFile(ws, p, now);
      if cached.Some? { return File(cached.value); }
      if ws !in workspaces { return Failed(NotFound); }
      var head := workspaces[ws].head;
      var rows := StagedOf(Tables(), ws);
      if p in rows {
        if rows[p].Delete? { return Failed(NotFound); }
        reply := ViewOf(ws, p, rows[p].hash, FromStaging, head, now);
      } else {
        var resolved := ResolvePath(head, p);
        if resolved.None? || resolved.value.Delete? { return Failed(NotFound); }
        reply := ViewOf(ws, p, resolved.value.hash, FromHistory, head, now);
      }
      if reply.File? { cache.SetFile(ws, p, reply.file, now); }
    }

    method ReadFileAt(ws: string, p: Path, at: CommitId, now: real) returns (reply: Reply)
      requires Valid()
      modifies cache.b
      ensures Valid()
      ensures (View(), reply) == CachedStore.CachedReadAt(old(View()), ws, p, at, now)
    {
      if ws !in workspaces { return Failed(NotFound); }
      if at !in commits { return Failed(NotFound); }
      var resolved := ResolvePath(at, p);
      if resolved.None? || resolved.value.Delete? { return Failed(NotFound); }
      reply := ViewOf(ws, p, resolved.value.hash, FromCommit(at), at, now);
    }

    method ListFiles(ws: string, now: real) returns (reply: Reply)
      requires Valid()
      modifies cache.b
      ensures Valid()
      ensures (View(), reply) ==
              CachedStore.CachedState(old(View()), ws, CachedStore.LIST, Workspaces.ListFiles(old(Tables()), ws), now)
    {
      var cached := cache.GetState(ws, CachedStore.LIST, now);
      if cached.Some? { return cached.value; }
      if ws !in workspaces { return Failed(NotFound); }
      var files := SnapshotForWorkspace(ws);
      reply := Files(workspaces[ws].head, DirectoryTree.Listing(files));
      cache.SetState(ws, CachedStore.LIST, reply, now);
    }

    method TreeWorkspace(ws: string, now: real) returns (reply: Reply)
      requires Valid()
      modifies cache.b
      ensures Valid()
      ensures (View(), reply) ==
              CachedStore.CachedState(old(View()), ws, CachedStore.TREE,
                                      Workspaces.TreeWorkspace(old(Tables()), ws), now)
    {
      var cached := cache.GetState(ws, CachedStore.TREE, now);
      if cached.Some? { return cached.value; }
      if ws !in workspaces { return Failed(NotFound); }
      var files := SnapshotForWorkspace(ws);
      var tree := TreeBuilder.BuildTree(files);
      reply := Reply.Tree(workspaces[ws].head, tree);
      cache.SetState(ws, CachedStore.TREE, reply, now);
    }
  }
}
