/** The workspace database behind its multi-level cache, and the proof that the cache is invisible. */
module CachedStore {
  import opened Wrappers
  import opened Workspaces
  import History
  import DirectoryTree
  import Lru
  import Paths
  import Runs
  import opened Staging

  type Path = History.Path
  type Hash = History.Hash

  /** What the three levels keep: blob texts, results of `read_file`, and whole-workspace replies. */
  datatype CacheValue = Text(text: string) | FileValue(file: FileView) | StateValue(reply: Reply)

  type Entry = Lru.Entry<CacheValue>
  type Entries = Lru.Entries<CacheValue>

  datatype Cached = Cached(store: Store, entries: Entries, max: nat)

  const BLOB_TTL: nat := 86400
  const LIST := "list_files"
  const TREE := "tree"

  // ----- keys -----

  const BLOB_PREFIX := "t2:blob:"
  const FILE_PREFIX := "t2:file:"
  const STATE_PREFIX := "t2:state:"

  function BlobKey(h: Hash): string { BLOB_PREFIX + h }

  function FilePrefix(ws: string): string { FILE_PREFIX + (ws + ":") }

  function FileKey(ws: string, p: Path): string { FilePrefix(ws) + p }

  function StatePrefix(ws: string): string { STATE_PREFIX + (ws + ":") }

  function StateKey(ws: string, kind: string): string { StatePrefix(ws) + kind }

  /** What is left of the second name and its colon when the first name and its colon are taken off. */
  function Between(w: string, v: string): string
    requires w + ":" <= v + ":"
  {
    (v + ":")[|w| + 1..]
  }

  /** The first name followed by a colon begins the second followed by a colon, and the rest can begin
      a path in final form. */
  predicate Shadows(w: string, v: string) {
    w + ":" <= v + ":" && Paths.Final(Between(w, v) + "f")
  }

  /** No name shadows another. */
  ghost predicate Separate(names: set<string>) {
    forall w, v :: w in names && v in names && w != v ==> !Shadows(w, v)
  }

  lemma ColonFreeNamesAreSeparate(names: set<string>)
    requires forall w :: w in names ==> ':' !in w
    ensures Separate(names)
  {
    forall w, v | w in names && v in names && w + ":" <= v + ":" ensures w == v {
      assert (v + ":")[|w|] == (w + ":")[|w|] == ':';
      assert forall i :: 0 <= i < |v| ==> v[i] in v && v[i] != ':';
      assert |w| == |v|;
      assert (v + ":")[..|w|] == w;
    }
    hide Paths.Final;
  }

  /** File keys of two workspaces can coincide for paths in final form exactly when one of the names
      shadows the other. */
  lemma FileKeysCollideExactly(w: string, v: string)
    ensures (exists p, q :: Paths.Final(p) && Paths.Final(q) && FileKey(w, p) == FileKey(v, q))
      <==> Shadows(w, v) || Shadows(v, w)
  {
    FIsFinal();
    hide Paths.Final, Between;
    if Shadows(w, v) { PrefixNamesCollide(w, v, "f"); }
    if Shadows(v, w) { PrefixNamesCollide(v, w, "f"); }
    if p, q :| Paths.Final(p) && Paths.Final(q) && FileKey(w, p) == FileKey(v, q) {
      CollisionShadows(w, p, v, q);
    }
  }

  lemma FIsFinal()
    ensures Paths.Final("f")
  {
    DirectoryTree.JoinSplit("f");
    assert DirectoryTree.Split("f") == ["f"];
  }

  lemma BetweenEndsWithAColon(w: string, v: string)
    requires w + ":" <= v + ":"
    ensures Between(w, v) != "" ==> Between(w, v)[|Between(w, v)| - 1] == ':'
    ensures (w + ":") + Between(w, v) == v + ":"
  {
  }

  /** The rest of a path that makes the shorter name's key into one of the longer name's. */
  lemma PrefixNamesCollide(w: string, v: string, p: Path)
    requires Shadows(w, v) && Paths.Final(p)
    ensures Paths.Final(Between(w, v) + p) && FileKey(w, Between(w, v) + p) == FileKey(v, p)
  {
    FIsFinal();
    BetweenEndsWithAColon(w, v);
    Paths.FinalAfter(Between(w, v), "f", p);
    assert ((w + ":") + Between(w, v)) + p == (w + ":") + (Between(w, v) + p);
    hide Paths.Final, Between;
  }

  lemma CollisionShadows(w: string, p: Path, v: string, q: Path)
    requires Paths.Final(p) && Paths.Final(q) && FileKey(w, p) == FileKey(v, q)
    ensures Shadows(w, v) || Shadows(v, w)
  {
    KeyTails(w, p, v, q);
    if |w| <= |v| { TailShadows(w, p, v, q); } else { TailShadows(v, q, w, p); }
  }

  lemma TailShadows(w: string, p: Path, v: string, q: Path)
    requires w + ":" <= v + ":" && (w + ":") + p == (v + ":") + q && Paths.Final(p) && Paths.Final(q)
    ensures Shadows(w, v)
  {
    FIsFinal();
    BetweenEndsWithAColon(w, v);
    Paths.FinalAfter(Between(w, v), "f", q);
    assert (w + ":") + p == (w + ":") + (Between(w, v) + q);
    assert ((w + ":") + p)[|w| + 1..] == p;
    assert ((w + ":") + (Between(w, v) + q))[|w| + 1..] == Between(w, v) + q;
    hide Paths.Final, Between;
  }

  lemma KeyTails(w: string, p: Path, v: string, q: Path)
    requires FileKey(w, p) == FileKey(v, q)
    ensures (w + ":") + p == (v + ":") + q
    ensures |w| <= |v| ==> w + ":" <= v + ":"
    ensures |v| <= |w| ==> v + ":" <= w + ":"
  {
    var x, y := (w + ":") + p, (v + ":") + q;
    assert FileKey(w, p) == FILE_PREFIX + x && FileKey(v, q) == FILE_PREFIX + y;
    assert (FILE_PREFIX + x)[|FILE_PREFIX|..] == x && (FILE_PREFIX + y)[|FILE_PREFIX|..] == y;
    assert x[..|w| + 1] == w + ":" && y[..|v| + 1] == v + ":";
    if |w| <= |v| { assert (v + ":")[..|w| + 1] == y[..|w| + 1]; }
    if |v| <= |w| { assert (w + ":")[..|v| + 1] == x[..|v| + 1]; }
  }

  lemma FileKeyDetermines(names: set<string>, w: string, p: Path, v: string, q: Path)
    requires Separate(names) && w in names && v in names
    requires Paths.Final(p) && Paths.Final(q) && FileKey(w, p) == FileKey(v, q)
    ensures w == v && p == q
  {
    KeyTails(w, p, v, q);
    CollisionShadows(w, p, v, q);
    if w == v {
      assert ((w + ":") + p)[|w| + 1..] == p && ((v + ":") + q)[|v| + 1..] == q;
    }
  }

  /** Whole-workspace keys never coincide, whatever the names. */
  lemma StateKeyDetermines(w: string, a: string, v: string, b: string)
    requires a in {LIST, TREE} && b in {LIST, TREE} && StateKey(w, a) == StateKey(v, b)
    ensures w == v && a == b
  {
    var k := StateKey(w, a);
    assert k[|k| - 1] == a[|a| - 1] == b[|b| - 1];
    assert w == k[|STATE_PREFIX|..|k| - |a| - 1] == v;
  }

  lemma LevelsAreDisjoint(h: Hash, w: string, p: Path, v: string, kind: string)
    ensures BlobKey(h) != FileKey(w, p) && BlobKey(h) != StateKey(v, kind) && FileKey(w, p) != StateKey(v, kind)
  {
    assert BlobKey(h)[3] == 'b' && FileKey(w, p)[3] == 'f' && StateKey(v, kind)[3] == 's';
  }

  lemma KeysHaveTheirPrefix(w: string, p: Path, kind: string)
    ensures FilePrefix(w) <= FileKey(w, p) && StatePrefix(w) <= StateKey(w, kind)
    ensures !(StatePrefix(w) <= FileKey(w, p))
  {
    assert FileKey(w, p)[3] == 'f' && StatePrefix(w)[3] == 's';
  }

  // ----- the cached operations -----

  function InvalidateFile(e: Entries, ws: string, p: Path): Entries {
    Lru.WithoutPrefix(Lru.Without(e, FileKey(ws, p)), StatePrefix(ws))
  }

  function InvalidateWorkspace(e: Entries, ws: string): Entries {
    Lru.WithoutPrefix(Lru.WithoutPrefix(e, FilePrefix(ws)), StatePrefix(ws))
  }

  /** Loading a blob's text: from the first level, or from the table and then into the first level. */
  function LoadBlob(c: Cached, h: Hash, now: real): (Cached, Option<string>) {
    var (e, hit) := Lru.Get(c.entries, BlobKey(h), now);
    if hit.Some? && hit.value.Text? then (c.(entries := e), Some(hit.value.text))
    else if h !in c.store.blobs then (c.(entries := e), None)
    else
      var text := c.store.blobs[h].content;
      (c.(entries := Lru.Set(e, c.max, BlobKey(h), Text(text), BLOB_TTL, now)), Some(text))
  }

  function Remember(c: Cached, key: string, value: CacheValue, now: real): Cached {
    c.(entries := Lru.Set(c.entries, c.max, key, value, 0, now))
  }

  /** A reply that needs a blob's text, as `read_file` and `read_file_at` build it. */
  function LoadInto(c: Cached, ws: string, p: Path, h: Hash, source: Source, head: History.CommitId,
                    now: real): (Cached, Reply) {
    var (d, text) := LoadBlob(c, h, now);
    (d, if text.Some? then File(FileView(ws, p, text.value, h, source, head)) else Failed(NotFound))
  }

  /** `read_file` after its cache missed. */
  function ReadThrough(c: Cached, ws: string, p: Path, now: real): (Cached, Reply)
    requires Inv(c.store)
  {
    var s := c.store;
    if ws !in s.workspaces then (c, Failed(NotFound))
    else
      var head := s.workspaces[ws].head;
      if p in StagedOf(s, ws) then
        match StagedOf(s, ws)[p]
        case Delete => (c, Failed(NotFound))
        case Upsert(h) => LoadInto(c, ws, p, h, FromStaging, head, now)
      else
        match History.Resolve(s.commits, head, p)
        case Some(Upsert(h)) => LoadInto(c, ws, p, h, FromHistory, head, now)
        case _ => (c, Failed(NotFound))
  }

  function CachedRead(c: Cached, ws: string, p: Path, now: real): (Cached, Reply)
    requires Inv(c.store)
  {
    var (e, hit) := Lru.Get(c.entries, FileKey(ws, p), now);
    var d := c.(entries := e);
    if hit.Some? && hit.value.FileValue? then (d, File(hit.value.file))
    else
      var (f, reply) := ReadThrough(d, ws, p, now);
      (if reply.File? then Remember(f, FileKey(ws, p), FileValue(reply.file), now) else f, reply)
  }

  function CachedReadAt(c: Cached, ws: string, p: Path, at: History.CommitId, now: real): (Cached, Reply)
    requires Inv(c.store)
  {
    var s := c.store;
    if ws !in s.workspaces || at !in s.commits then (c, Failed(NotFound))
    else
      match History.Resolve(s.commits, at, p)
      case Some(Upsert(h)) => LoadInto(c, ws, p, h, FromCommit(at), at, now)
      case _ => (c, Failed(NotFound))
  }

  /** `list_files` and `tree_workspace`: `kind` names the state, `computed` is what it is now. */
  function CachedState(c: Cached, ws: string, kind: string, computed: Reply, now: real): (Cached, Reply) {
    var (e, hit) := Lru.Get(c.entries, StateKey(ws, kind), now);
    var d := c.(entries := e);
    if hit.Some? && hit.value.StateValue? then (d, hit.value.reply)
    else (if computed.Failed? then d else Remember(d, StateKey(ws, kind), StateValue(computed), now), computed)
  }

  /** The entries an operation that changed the tables leaves behind. */
  function Invalidated(e: Entries, op: Op, reply: Reply): Entries {
    match op
    case OpWrite(ws, p, _, _) => if reply.Done? then InvalidateFile(e, ws, p) else e
    case OpDelete(ws, p) => if reply.Done? then InvalidateFile(e, ws, p) else e
    case OpCommit(ws, _, _, _) => if reply.Committed? then InvalidateWorkspace(e, ws) else e
    case OpMerge(source, target, _, _, _) =>
      if reply.Committed? then InvalidateWorkspace(InvalidateWorkspace(e, source), target) else e
    case OpRollback(ws) => if reply.Done? then InvalidateWorkspace(e, ws) else e
    case OpReset(ws, _) => if reply.Done? then InvalidateWorkspace(e, ws) else e
    case _ => e
  }

  function CachedStep(c: Cached, op: Op, now: real): (Cached, Reply)
    requires Inv(c.store)
  {
    match op
    case OpRead(ws, p) => CachedRead(c, ws, p, now)
    case OpReadAt(ws, p, at) => CachedReadAt(c, ws, p, at, now)
    case OpList(ws) => CachedState(c, ws, LIST, ListFiles(c.store, ws), now)
    case OpTree(ws) => CachedState(c, ws, TREE, TreeWorkspace(c.store, ws), now)
    case _ =>
      var (t, reply) := Step(c.store, op);
      (c.(store := t, entries := Invalidated(c.entries, op, reply)), reply)
  }

  // ----- coherence -----

  function StateReply(s: Store, ws: string, kind: string): Reply
    requires Inv(s)
  {
    if kind == LIST then ListFiles(s, ws) else TreeWorkspace(s, ws)
  }

  ghost predicate BlobRight(s: Store, e: Entry) {
    forall h :: e.key == BlobKey(h) ==> h in s.blobs && e.value == Text(s.blobs[h].content)
  }

  ghost predicate FileRight(s: Store, names: set<string>, e: Entry)
    requires Inv(s)
  {
    forall ws, p :: ws in names && Paths.Final(p) && e.key == FileKey(ws, p) ==>
      ReadFile(s, ws, p).File? && e.value == FileValue(ReadFile(s, ws, p).file)
  }

  ghost predicate StateRight(s: Store, names: set<string>, e: Entry, kind: string)
    requires Inv(s)
  {
    forall ws :: ws in names && e.key == StateKey(ws, kind) ==>
      ws in s.workspaces && e.value == StateValue(StateReply(s, ws, kind))
  }

  /** An entry says what the tables say, for every reading of its key with a name in `names`. */
  ghost predicate Right(s: Store, names: set<string>, e: Entry)
    requires Inv(s)
  {
    BlobRight(s, e) && FileRight(s, names, e) && StateRight(s, names, e, LIST) && StateRight(s, names, e, TREE)
  }

  ghost predicate Coherent(s: Store, names: set<string>, entries: Entries)
    requires Inv(s)
  {
    forall e :: e in entries ==> Right(s, names, e)
  }

  lemma GetKeepsEntries(e: Entries, key: string, now: real)
    ensures forall x :: x in Lru.Get(e, key, now).0 ==> x in e
    ensures var hit := Lru.Get(e, key, now).1;
      hit.Some? ==> exists x :: x in e && x.key == key && hit == Some(x.value)
  {
    forall x | x in Lru.Get(e, key, now).0 ensures x in e { Lru.WithoutMembers(e, key, x); }
    var f := Lru.Find(e, key);
    if f.Some? { assert f.value in e && f.value.key == key; }
  }

  lemma SetAddsOne(e: Entries, max: nat, key: string, value: CacheValue, ttl: nat, now: real)
    ensures forall x :: x in Lru.Set(e, max, key, value, ttl, now) ==> x in e || x == Lru.Fresh(key, value, ttl, now)
  {
    forall x | x in Lru.Set(e, max, key, value, ttl, now) ensures x in e || x == Lru.Fresh(key, value, ttl, now) {
      Lru.WithoutMembers(e, key, x);
    }
  }

  lemma BlobEntryIsRight(s: Store, names: set<string>, h: Hash, now: real)
    requires Inv(s) && h in s.blobs
    ensures Right(s, names, Lru.Fresh(BlobKey(h), Text(s.blobs[h].content), BLOB_TTL, now))
  {
    var e := Lru.Fresh(BlobKey(h), Text(s.blobs[h].content), BLOB_TTL, now);
    forall h' | e.key == BlobKey(h') ensures h' == h {
      assert BlobKey(h)[|BLOB_PREFIX|..] == h && BlobKey(h')[|BLOB_PREFIX|..] == h';
    }
    forall ws, p ensures e.key != FileKey(ws, p) { LevelsAreDisjoint(h, ws, p, ws, LIST); }
    forall ws, kind ensures e.key != StateKey(ws, kind) { LevelsAreDisjoint(h, ws, [], ws, kind); }
  }

  lemma FileEntryIsRight(s: Store, names: set<string>, ws: string, p: Path, now: real)
    requires Inv(s) && Separate(names) && ws in names && Paths.Final(p) && ReadFile(s, ws, p).File?
    ensures Right(s, names, Lru.Fresh(FileKey(ws, p), FileValue(ReadFile(s, ws, p).file), 0, now))
  {
    var e := Lru.Fresh(FileKey(ws, p), FileValue(ReadFile(s, ws, p).file), 0, now);
    forall h ensures e.key != BlobKey(h) { LevelsAreDisjoint(h, ws, p, ws, LIST); }
    forall v, kind ensures e.key != StateKey(v, kind) { LevelsAreDisjoint([], ws, p, v, kind); }
    hide Paths.Final, Separate;
    forall v, q | v in names && Paths.Final(q) && e.key == FileKey(v, q) ensures v == ws && q == p {
      FileKeyDetermines(names, ws, p, v, q);
    }
  }

  lemma StateEntryIsRight(s: Store, names: set<string>, ws: string, kind: string, now: real)
    requires Inv(s) && ws in s.workspaces && kind in {LIST, TREE}
    ensures var reply := if kind == LIST then ListFiles(s, ws) else TreeWorkspace(s, ws);
      Right(s, names, Lru.Fresh(StateKey(ws, kind), StateValue(reply), 0, now))
  {
    var reply := if kind == LIST then ListFiles(s, ws) else TreeWorkspace(s, ws);
    var e := Lru.Fresh(StateKey(ws, kind), StateValue(reply), 0, now);
    forall h ensures e.key != BlobKey(h) { LevelsAreDisjoint(h, ws, [], ws, kind); }
    forall v, p ensures e.key != FileKey(v, p) { LevelsAreDisjoint([], v, p, ws, kind); }
    forall v, other | other in {LIST, TREE} && e.key == StateKey(v, other) ensures v == ws && other == kind {
      StateKeyDetermines(ws, kind, v, other);
    }
  }

  // ----- reads -----

  lemma RemoveKeepsCoherent(s: Store, names: set<string>, e: Entries, e': Entries)
    requires Inv(s) && Coherent(s, names, e) && forall x :: x in e' ==> x in e
    ensures Coherent(s, names, e')
  {
    hide Right;
  }

  lemma GetIsCoherent(s: Store, names: set<string>, e: Entries, key: string, now: real)
    requires Inv(s) && Coherent(s, names, e)
    ensures var (e', hit) := Lru.Get(e, key, now);
      && Coherent(s, names, e')
      && (hit.Some? ==> exists x :: Right(s, names, x) && x.key == key && x.value == hit.value)
  {
    hide Right, Lru.Get;
    GetKeepsEntries(e, key, now);
  }

  lemma SetIsCoherent(s: Store, names: set<string>, e: Entries, max: nat, key: string, value: CacheValue, ttl: nat,
                      now: real)
    requires Inv(s) && Coherent(s, names, e) && Right(s, names, Lru.Fresh(key, value, ttl, now))
    ensures Coherent(s, names, Lru.Set(e, max, key, value, ttl, now))
  {
    hide Right, Lru.Set;
    SetAddsOne(e, max, key, value, ttl, now);
  }

  ghost predicate CoherentCache(c: Cached, names: set<string>) {
    Inv(c.store) && Coherent(c.store, names, c.entries)
  }

  /** A blob's text is what the table holds, cached or not. */
  lemma LoadBlobIsInvisible(c: Cached, names: set<string>, h: Hash, now: real)
    requires CoherentCache(c, names)
    ensures var (d, text) := LoadBlob(c, h, now);
      && d.store == c.store && d.max == c.max && CoherentCache(d, names)
      && text == (if h in c.store.blobs then Some(c.store.blobs[h].content) else None)
  {
    hide Coherent, Lru.Get, Lru.Set, Inv;
    GetIsCoherent(c.store, names, c.entries, BlobKey(h), now);
    var (e, hit) := Lru.Get(c.entries, BlobKey(h), now);
    if hit.Some? {
      var x :| Right(c.store, names, x) && x.key == BlobKey(h) && x.value == hit.value;
    } else if h in c.store.blobs {
      BlobEntryIsRight(c.store, names, h, now);
      SetIsCoherent(c.store, names, e, c.max, BlobKey(h), Text(c.store.blobs[h].content), BLOB_TTL, now);
    }
  }

  lemma LoadIntoIsInvisible(c: Cached, names: set<string>, ws: string, p: Path, h: Hash, source: Source,
                              head: History.CommitId, now: real)
    requires CoherentCache(c, names)
    ensures var (d, reply) := LoadInto(c, ws, p, h, source, head, now);
      && d.store == c.store && d.max == c.max && CoherentCache(d, names)
      && reply == ReadBlob(c.store, ws, p, h, source, head)
  {
    hide CoherentCache, LoadBlob;
    LoadBlobIsInvisible(c, names, h, now);
  }

  lemma ReadThroughIsInvisible(c: Cached, names: set<string>, ws: string, p: Path, now: real)
    requires CoherentCache(c, names)
    ensures var (d, reply) := ReadThrough(c, ws, p, now);
      && d.store == c.store && d.max == c.max && CoherentCache(d, names)
      && reply == ReadFile(c.store, ws, p)
  {
    hide LoadInto, Coherent, ReadBlob;
    forall h, source, head {
      LoadIntoIsInvisible(c, names, ws, p, h, source, head, now);
    }
  }

  lemma CachedReadIsInvisible(c: Cached, names: set<string>, ws: string, p: Path, now: real)
    requires CoherentCache(c, names) && Separate(names) && ws in names && Paths.Final(p)
    ensures var (d, reply) := CachedRead(c, ws, p, now);
      && d.store == c.store && d.max == c.max && CoherentCache(d, names)
      && reply == ReadFile(c.store, ws, p)
  {
    hide Coherent, Lru.Get, Lru.Set, Inv, ReadThrough, ReadFile, Separate;
    GetIsCoherent(c.store, names, c.entries, FileKey(ws, p), now);
    var (e, hit) := Lru.Get(c.entries, FileKey(ws, p), now);
    var d := c.(entries := e);
    if hit.Some? {
      var x :| Right(c.store, names, x) && x.key == FileKey(ws, p) && x.value == hit.value;
    } else {
      ReadThroughIsInvisible(d, names, ws, p, now);
      var (f, reply) := ReadThrough(d, ws, p, now);
      if reply.File? {
        FileEntryIsRight(c.store, names, ws, p, now);
        SetIsCoherent(c.store, names, f.entries, f.max, FileKey(ws, p), FileValue(reply.file), 0, now);
      }
    }
  }

  lemma CachedReadAtIsInvisible(c: Cached, names: set<string>, ws: string, p: Path, at: History.CommitId, now: real)
    requires CoherentCache(c, names)
    ensures var (d, reply) := CachedReadAt(c, ws, p, at, now);
      && d.store == c.store && d.max == c.max && CoherentCache(d, names)
      && reply == ReadFileAt(c.store, ws, p, at)
  {
    hide LoadInto, Coherent, ReadBlob;
    forall h {
      LoadIntoIsInvisible(c, names, ws, p, h, FromCommit(at), at, now);
    }
  }

  lemma CachedStateIsInvisible(c: Cached, names: set<string>, ws: string, kind: string, now: real)
    requires CoherentCache(c, names) && ws in names && kind in {LIST, TREE}
    ensures var (d, reply) := CachedState(c, ws, kind, StateReply(c.store, ws, kind), now);
      && d.store == c.store && d.max == c.max && CoherentCache(d, names)
      && reply == StateReply(c.store, ws, kind)
  {
    hide Coherent, Lru.Get, Lru.Set, Inv;
    var computed := StateReply(c.store, ws, kind);
    GetIsCoherent(c.store, names, c.entries, StateKey(ws, kind), now);
    var (e, hit) := Lru.Get(c.entries, StateKey(ws, kind), now);
    if hit.Some? {
      var x :| Right(c.store, names, x) && x.key == StateKey(ws, kind) && x.value == hit.value;
    } else if !computed.Failed? {
      StateEntryIsRight(c.store, names, ws, kind, now);
      SetIsCoherent(c.store, names, e, c.max, StateKey(ws, kind), StateValue(computed), 0, now);
    }
  }

  // ----- changes -----

  /** Changing a file drops its own entry and the whole-workspace ones, and nothing else. */
  lemma InvalidateFileLeaves(e: Entries, ws: string, p: Path, x: Entry)
    ensures x in InvalidateFile(e, ws, p) <==> x in e && x.key != FileKey(ws, p) && !(StatePrefix(ws) <= x.key)
  {
    Lru.WithoutPrefixMembers(Lru.Without(e, FileKey(ws, p)), StatePrefix(ws), x);
    Lru.WithoutMembers(e, FileKey(ws, p), x);
  }

  lemma InvalidateWorkspaceLeaves(e: Entries, ws: string, x: Entry)
    ensures x in InvalidateWorkspace(e, ws) <==> x in e && !(FilePrefix(ws) <= x.key) && !(StatePrefix(ws) <= x.key)
  {
    Lru.WithoutPrefixMembers(Lru.WithoutPrefix(e, FilePrefix(ws)), StatePrefix(ws), x);
    Lru.WithoutPrefixMembers(e, FilePrefix(ws), x);
  }

  /** What a surviving entry's key cannot be. */
  ghost predicate Survives(key: string, op: Op, reply: Reply) {
    match op
    case OpWrite(ws, p, _, _) => reply.Done? ==> key != FileKey(ws, p) && !(StatePrefix(ws) <= key)
    case OpDelete(ws, p) => reply.Done? ==> key != FileKey(ws, p) && !(StatePrefix(ws) <= key)
    case OpCommit(ws, _, _, _) => reply.Committed? ==> Elsewhere(key, ws)
    case OpMerge(source, target, _, _, _) => reply.Committed? ==> Elsewhere(key, source) && Elsewhere(key, target)
    case OpRollback(ws) => reply.Done? ==> Elsewhere(key, ws)
    case OpReset(ws, _) => reply.Done? ==> Elsewhere(key, ws)
    case _ => true
  }

  ghost predicate Elsewhere(key: string, ws: string) {
    !(FilePrefix(ws) <= key) && !(StatePrefix(ws) <= key)
  }

  lemma InvalidatedLeaves(e: Entries, op: Op, reply: Reply, x: Entry)
    requires x in Invalidated(e, op, reply)
    ensures x in e && Survives(x.key, op, reply)
  {
    hide InvalidateFile, InvalidateWorkspace, FileKey, StatePrefix, FilePrefix;
    match op
    case OpWrite(ws, p, _, _) => if reply.Done? { InvalidateFileLeaves(e, ws, p, x); }
    case OpDelete(ws, p) => if reply.Done? { InvalidateFileLeaves(e, ws, p, x); }
    case OpCommit(ws, _, _, _) => if reply.Committed? { InvalidateWorkspaceLeaves(e, ws, x); }
    case OpMerge(source, target, _, _, _) =>
      if reply.Committed? {
        InvalidateWorkspaceLeaves(InvalidateWorkspace(e, source), target, x);
        InvalidateWorkspaceLeaves(e, source, x);
      }
    case OpRollback(ws) => if reply.Done? { InvalidateWorkspaceLeaves(e, ws, x); }
    case OpReset(ws, _) => if reply.Done? { InvalidateWorkspaceLeaves(e, ws, x); }
    case _ =>
  }

  lemma TouchedWholly(s: Store, op: Op, ws: string, p: Path)
    requires Inv(s) && Runs.Touches(op, ws) && Survives(FileKey(ws, p), op, Step(s, op).1)
    requires ws in s.workspaces && !op.OpWrite? && !op.OpDelete?
    ensures Step(s, op).0 == s
  {
    KeysHaveTheirPrefix(ws, p, LIST);
    TouchedUnchanged(s, op, ws);
  }

  /** A workspace an operation touches: unless the entry is gone, the operation changed nothing
      that entry says. */
  lemma TouchedFileEntry(s: Store, op: Op, ws: string, p: Path, key: string)
    requires Inv(s) && Runs.Touches(op, ws) && key == FileKey(ws, p) && Survives(key, op, Step(s, op).1)
    requires ReadFile(s, ws, p).File?
    ensures Inv(Step(s, op).0) && ReadFile(Step(s, op).0, ws, p) == ReadFile(s, ws, p)
  {
    StepGood(s, op);
    ReadExists(s, ws, p);
    if op.OpWrite? {
      hide Inv, ReadFile, Stage, StoreBlob;
      WritingElsewhereReadsTheSame(s, ws, op.path, op.hash, op.content, p);
    } else if op.OpDelete? {
      hide Inv, ReadFile, Stage;
      StagingElsewhereReadsTheSame(s, ws, op.path, History.Delete, p);
    } else {
      hide Inv, ReadFile, Step, Survives;
      TouchedWholly(s, op, ws, p);
    }
  }

  lemma TouchedStateEntry(s: Store, op: Op, ws: string, kind: string, key: string)
    requires Inv(s) && Runs.Touches(op, ws) && key == StateKey(ws, kind) && Survives(key, op, Step(s, op).1)
    requires ws in s.workspaces
    ensures Step(s, op).0 == s
  {
    KeysHaveTheirPrefix(ws, [], kind);
    TouchedUnchanged(s, op, ws);
  }

  /** Operations that name an existing workspace and do not succeed change nothing. */
  lemma TouchedUnchanged(s: Store, op: Op, ws: string)
    requires Inv(s) && Runs.Touches(op, ws) && ws in s.workspaces
    ensures Step(s, op).1.Done? || Step(s, op).1.Committed? || Step(s, op).0 == s
    ensures op.OpCreate? ==> Step(s, op).0 == s
  {
    hide AfterCommit, AfterMerge, Effective, History.Ancestor, Inv;
  }

  lemma UntouchedStaysRight(s: Store, op: Op, ws: string, p: Path)
    requires Inv(s) && !Runs.Touches(op, ws)
    ensures var t := Step(s, op).0;
      && Inv(t) && ReadFile(t, ws, p) == ReadFile(s, ws, p)
      && ListFiles(t, ws) == ListFiles(s, ws) && TreeWorkspace(t, ws) == TreeWorkspace(s, ws)
  {
    hide Inv, Step, ReadFile, ListFiles, TreeWorkspace;
    StepGood(s, op);
    Runs.StepLeavesOthersRows(s, op, ws);
    Runs.SameRowsReadTheSame(s, Step(s, op).0, ws, p);
    Runs.SameRowsShowTheSame(s, Step(s, op).0, ws);
  }

  lemma SurvivingFileEntry(s: Store, op: Op, names: set<string>, e: Entry)
    requires Inv(s) && FileRight(s, names, e) && Survives(e.key, op, Step(s, op).1)
    ensures Inv(Step(s, op).0) && FileRight(Step(s, op).0, names, e)
  {
    StepGood(s, op);
    hide Step, Survives, Inv, ReadFile, ListFiles, TreeWorkspace, Runs.Touches, FileKey, Paths.Final;
    var t := Step(s, op).0;
    forall ws, p | ws in names && Paths.Final(p) && e.key == FileKey(ws, p)
      ensures ReadFile(t, ws, p).File? && e.value == FileValue(ReadFile(t, ws, p).file)
    {
      if Runs.Touches(op, ws) { TouchedFileEntry(s, op, ws, p, e.key); } else { UntouchedStaysRight(s, op, ws, p); }
    }
  }

  lemma SurvivingStateEntry(s: Store, op: Op, names: set<string>, e: Entry, kind: string)
    requires Inv(s) && StateRight(s, names, e, kind) && Survives(e.key, op, Step(s, op).1) && kind in {LIST, TREE}
    ensures Inv(Step(s, op).0) && StateRight(Step(s, op).0, names, e, kind)
  {
    StepGood(s, op);
    hide Step, Survives, Inv, ListFiles, TreeWorkspace, Runs.Touches, StateKey;
    var t := Step(s, op).0;
    forall ws | ws in names && e.key == StateKey(ws, kind)
      ensures ws in t.workspaces && e.value == StateValue(StateReply(t, ws, kind))
    {
      if Runs.Touches(op, ws) {
        TouchedStateEntry(s, op, ws, kind, e.key);
      } else {
        UntouchedStaysRight(s, op, ws, []);
      }
    }
  }

  /** An entry that survives an operation's invalidations is as right afterwards as before. */
  lemma SurvivorStaysRight(s: Store, op: Op, names: set<string>, e: Entry)
    requires Inv(s) && Right(s, names, e) && Survives(e.key, op, Step(s, op).1)
    ensures Inv(Step(s, op).0) && Right(Step(s, op).0, names, e)
  {
    StepGood(s, op);
    hide Step, Survives, Inv, FileRight, StateRight;
    SurvivingFileEntry(s, op, names, e);
    SurvivingStateEntry(s, op, names, e, LIST);
    SurvivingStateEntry(s, op, names, e, TREE);
  }

  lemma ReadExists(s: Store, ws: string, p: Path)
    requires Inv(s)
    ensures ReadFile(s, ws, p).File? ==> ws in s.workspaces
  {
  }

  // ----- the cache is invisible -----

  /** The workspaces whose cached results an operation may look up. */
  function Mentions(op: Op): set<string> {
    match op
    case OpRead(ws, _) => {ws}
    case OpList(ws) => {ws}
    case OpTree(ws) => {ws}
    case _ => {}
  }

  /** An operation that looks up results of these workspaces alone, and paths in final form alone. */
  predicate LooksUp(op: Op, names: set<string>) {
    Mentions(op) <= names && (op.OpRead? ==> Paths.Final(op.path))
  }

  predicate IsRead(op: Op) {
    op.OpRead? || op.OpReadAt? || op.OpList? || op.OpTree?
  }

  lemma ChangeIsInvisible(c: Cached, names: set<string>, op: Op, now: real)
    requires CoherentCache(c, names) && !IsRead(op)
    ensures var (d, reply) := CachedStep(c, op, now);
      && CoherentCache(d, names) && d.max == c.max
      && d.store == Step(c.store, op).0 && reply == Step(c.store, op).1
  {
    StepGood(c.store, op);
    hide Step, Inv, Right, Invalidated;
    var (t, reply) := Step(c.store, op);
    forall e | e in Invalidated(c.entries, op, reply) ensures Right(t, names, e) {
      InvalidatedLeaves(c.entries, op, reply, e);
      SurvivorStaysRight(c.store, op, names, e);
    }
  }

  /** One operation through the cache: the reply and the tables are those of the operation without
      a cache, and the cache stays right. */
  lemma CachedStepRefines(c: Cached, names: set<string>, op: Op, now: real)
    requires CoherentCache(c, names) && Separate(names) && LooksUp(op, names)
    ensures var (d, reply) := CachedStep(c, op, now);
      && CoherentCache(d, names) && d.max == c.max
      && d.store == Step(c.store, op).0 && reply == Step(c.store, op).1
  {
    hide Coherent, CachedRead, CachedReadAt, CachedState, Separate, Inv, ReadFile, ListFiles, TreeWorkspace, ReadFileAt;
    hide Paths.Final;
    match op
    case OpRead(ws, p) => CachedReadIsInvisible(c, names, ws, p, now);
    case OpReadAt(ws, p, at) => CachedReadAtIsInvisible(c, names, ws, p, at, now);
    case OpList(ws) => CachedStateIsInvisible(c, names, ws, LIST, now);
    case OpTree(ws) => CachedStateIsInvisible(c, names, ws, TREE, now);
    case _ => ChangeIsInvisible(c, names, op, now);
  }

  /** What happens to a cached database: an operation at some moment, or entries lost for any
      reason (evicted, expired, or dropped by somebody else using the cache). */
  datatype Event = Do(op: Op, now: real) | Lose(keys: set<string>)

  /** The operations of a history, without the losses. */
  function OpsOf(events: seq<Event>): seq<Op> {
    if events == [] then [] else (if events[0].Do? then [events[0].op] else []) + OpsOf(events[1..])
  }

  function CachedRun(c: Cached, events: seq<Event>): (Cached, seq<Reply>)
    requires Inv(c.store)
    decreases |events|
  {
    if events == [] then (c, [])
    else if events[0].Lose? then CachedRun(c.(entries := Lru.Losing(c.entries, events[0].keys)), events[1..])
    else
      CachedStepKeepsInv(c, events[0].op, events[0].now);
      var (d, reply) := CachedStep(c, events[0].op, events[0].now);
      var (f, replies) := CachedRun(d, events[1..]);
      (f, [reply] + replies)
  }

  lemma CachedStepKeepsInv(c: Cached, op: Op, now: real)
    requires Inv(c.store)
    ensures Inv(CachedStep(c, op, now).0.store)
  {
    hide Inv, Step, CachedRead, CachedReadAt, CachedState, Invalidated;
    ReadsKeepTables(c, op, now);
    if !IsRead(op) { StepGood(c.store, op); }
  }

  lemma ReadsKeepTables(c: Cached, op: Op, now: real)
    requires Inv(c.store)
    ensures match op
      case OpRead(ws, p) => CachedRead(c, ws, p, now).0.store == c.store
      case OpReadAt(ws, p, at) => CachedReadAt(c, ws, p, at, now).0.store == c.store
      case OpList(ws) => CachedState(c, ws, LIST, ListFiles(c.store, ws), now).0.store == c.store
      case OpTree(ws) => CachedState(c, ws, TREE, TreeWorkspace(c.store, ws), now).0.store == c.store
      case _ => true
  {
    hide Inv, Lru.Get, Lru.Set, ListFiles, TreeWorkspace;
  }

  /** Over every serial run, whatever the capacity and the clock, and with entries lost at any
      moment, every reply and the final tables are those of the run without a cache, as long as the
      names looked up are separate and the paths read are in final form. */
  lemma {:induction false} CacheIsInvisible(c: Cached, names: set<string>, events: seq<Event>)
    requires CoherentCache(c, names) && Separate(names)
    requires forall i :: 0 <= i < |events| && events[i].Do? ==> LooksUp(events[i].op, names)
    ensures var (d, replies) := CachedRun(c, events);
      && CoherentCache(d, names)
      && (d.store, replies) == Runs.Run(c.store, OpsOf(events))
    decreases |events|
  {
    hide Coherent, CachedStep, Step, LooksUp, Separate, Inv;
    if events != [] {
      var rest := events[1..];
      if events[0].Lose? {
        var e' := Lru.Losing(c.entries, events[0].keys);
        forall x | x in e' ensures x in c.entries { Lru.LosingMembers(c.entries, events[0].keys, x); }
        RemoveKeepsCoherent(c.store, names, c.entries, e');
        CacheIsInvisible(c.(entries := e'), names, rest);
        assert OpsOf(events) == OpsOf(rest);
      } else {
        var op := events[0].op;
        CachedStepRefines(c, names, op, events[0].now);
        CacheIsInvisible(CachedStep(c, op, events[0].now).0, names, rest);
        assert OpsOf(events) == [op] + OpsOf(rest);
        assert OpsOf(events)[0] == op && OpsOf(events)[1..] == OpsOf(rest);
      }
    }
  }

  /** Without separate names the cache shows: once a file of the shadowed workspace has been read, the
      shadowing one is answered with it at a path that is in final form too, whatever it holds there. */
  lemma UnseparateNamesShow(c: Cached, w: string, v: string, p: Path, now: real)
    requires Inv(c.store) && Shadows(w, v) && w != v && Paths.Final(p)
    requires c.entries == [] && c.max > 0 && ReadFile(c.store, v, p).File?
    ensures var d := CachedRead(c, v, p, now).0;
      var q := Between(w, v) + p;
      && Inv(d.store) && Paths.Final(q)
      && CachedRead(d, w, q, now).1 == ReadFile(c.store, v, p)
      && CachedRead(d, w, q, now).1 != ReadFile(c.store, w, q)
  {
    ColdRead(c, v, p, now);
    ReadNames(c.store, v, p);
    PrefixNamesCollide(w, v, p);
    var q := Between(w, v) + p;
    ReadNames(c.store, w, q);
    HitIsAnswered(CachedRead(c, v, p, now).0, w, q, ReadFile(c.store, v, p).file, now);
    hide Inv, ReadFile, FileKey, CachedRead, Paths.Final, Shadows, Between;
  }

  lemma HitIsAnswered(c: Cached, ws: string, p: Path, file: FileView, now: real)
    requires Inv(c.store) && Lru.Get(c.entries, FileKey(ws, p), now).1 == Some(FileValue(file))
    ensures CachedRead(c, ws, p, now).1 == File(file)
  {
    hide Inv, Lru.Get, ReadThrough, FileKey;
  }

  lemma ReadNames(s: Store, ws: string, p: Path)
    requires Inv(s)
    ensures ReadFile(s, ws, p).File? ==> ReadFile(s, ws, p).file.workspace == ws
  {
  }

  /** A read from an empty cache leaves its result as the newest entry. */
  lemma ColdRead(c: Cached, v: string, p: Path, now: real)
    requires Inv(c.store) && c.entries == [] && c.max > 0 && ReadFile(c.store, v, p).File?
    ensures var d := CachedRead(c, v, p, now).0;
      && d.store == c.store
      && Lru.Get(d.entries, FileKey(v, p), now).1 == Some(FileValue(ReadFile(c.store, v, p).file))
  {
    assert CoherentCache(c, {v});
    ReadThroughIsInvisible(c, {v}, v, p, now);
    hide ReadThrough, ReadFile, CoherentCache, Lru.Set;
    var (f, reply) := ReadThrough(c, v, p, now);
    Lru.GetAfterSet(f.entries, c.max, FileKey(v, p), FileValue(reply.file), 0, now, now);
  }

  // ----- the cache is used -----

  lemma RememberedIsFound(c: Cached, key: string, value: CacheValue, now: real, later: real)
    requires c.max > 0
    ensures Lru.Get(Remember(c, key, value, now).entries, key, later).1 == Some(value)
  {
    Lru.GetAfterSet(c.entries, c.max, key, value, 0, now, later);
  }

  /** A file just read is read from the cache the next time, however much later. */
  lemma SecondReadIsAHit(c: Cached, ws: string, p: Path, now: real, later: real)
    requires Inv(c.store) && c.max > 0 && CachedRead(c, ws, p, now).1.File?
    ensures var (d, reply) := CachedRead(c, ws, p, now);
      || Lru.Get(c.entries, FileKey(ws, p), now).1.Some?
      || Lru.Get(d.entries, FileKey(ws, p), later).1 == Some(FileValue(reply.file))
  {
    var (e, hit) := Lru.Get(c.entries, FileKey(ws, p), now);
    if hit.None? {
      var (f, reply) := ReadThrough(c.(entries := e), ws, p, now);
      ReadKeepsMax(c.(entries := e), ws, p, now);
      RememberedIsFound(f, FileKey(ws, p), FileValue(reply.file), now, later);
    }
    hide Inv, Lru.Get, ReadThrough, Remember, FileKey;
  }

  lemma ReadKeepsMax(c: Cached, ws: string, p: Path, now: real)
    requires Inv(c.store)
    ensures ReadThrough(c, ws, p, now).0.max == c.max
  {
    hide Inv, Lru.Get, Lru.Set, History.Resolve;
  }

  /** So is a list or a tree. */
  lemma SecondListIsAHit(c: Cached, ws: string, kind: string, computed: Reply, now: real, later: real)
    requires c.max > 0 && !computed.Failed? && Lru.Get(c.entries, StateKey(ws, kind), now).1.None?
    ensures var (d, reply) := CachedState(c, ws, kind, computed, now);
      Lru.Get(d.entries, StateKey(ws, kind), later).1 == Some(StateValue(reply))
  {
    var d := c.(entries := Lru.Get(c.entries, StateKey(ws, kind), now).0);
    RememberedIsFound(d, StateKey(ws, kind), StateValue(computed), now, later);
    hide Lru.Get, Remember, StateKey;
  }

  /** And a blob's text, for a day. */
  lemma SecondBlobIsAHit(c: Cached, h: Hash, now: real, later: real)
    requires c.max > 0 && h in c.store.blobs && Lru.Get(c.entries, BlobKey(h), now).1.None?
    requires now <= later <= now + BLOB_TTL as real
    ensures Lru.Get(LoadBlob(c, h, now).0.entries, BlobKey(h), later).1 == Some(Text(c.store.blobs[h].content))
  {
    var e := Lru.Get(c.entries, BlobKey(h), now).0;
    Lru.GetAfterSet(e, c.max, BlobKey(h), Text(c.store.blobs[h].content), BLOB_TTL, now, later);
    hide Lru.Get, Lru.Set, BlobKey;
  }
}
