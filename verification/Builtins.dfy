/** The builtin commands that change the database, as the script's text calls them. */
module Builtins {
  import opened Wrappers
  import opened Values
  import opened Interpretation
  import History
  import Outcomes
  import Paths
  import Runs
  import S = Staging
  import W = Workspaces

  type GoodStore = s: W.Store | W.Inv(s) ghost witness W.Initial("")

  /** What the database and the other builtins take as given: the hash of a content, the id of the next
      commit, whether a hook rejects a commit, and the builtins that change nothing in the database. */
  datatype Host = Host(
    py: Runtime,
    hash: string -> string,
    newId: W.Store -> string,
    rejects: (W.Store, string, string) -> bool,
    readers: set<string>,
    reader: (string, Value, seq<Value>, Heap, string, W.Store, nat) -> (Answer<Value>, Heap, nat),
    utility: (string, seq<Value>, Heap) -> (Answer<Value>, Heap))

  const WRITERS := {"fs.write", "fs.append", "fs.delete", "fs.read", "ws.commit", "ws.rollback", "ws.snapshot"}

  // ----- deeds as operations -----

  function OpOf(deed: Deed): W.Op {
    match deed.act
    case Writes(p, h, content) => W.OpWrite(deed.workspace, p, h, content)
    case Deletes(p) => W.OpDelete(deed.workspace, p)
    case Commits(message, id, rejected) => W.OpCommit(deed.workspace, message, id, rejected)
    case RollsBack => W.OpRollback(deed.workspace)
    case Snaps(name) => W.OpSnapshot(deed.workspace, name)
  }

  function OpsOf(deeds: seq<Deed>): seq<W.Op> {
    seq(|deeds|, i requires 0 <= i < |deeds| => OpOf(deeds[i]))
  }

  /** The database after what a script has done to it. */
  function Database(store: GoodStore, deeds: seq<Deed>): (t: GoodStore) {
    Runs.RunGood(store, OpsOf(deeds));
    Runs.Run(store, OpsOf(deeds)).0
  }

  // ----- arguments -----

  /** The text of an argument, or a default. */
  function ArgText(py: Runtime, args: seq<Value>, i: nat, otherwise: string, heap: Heap): Answer<string> {
    if i < |args| then Show(py, args[i], heap) else Gives(otherwise)
  }

  /** An argument that must not be empty. */
  function Needed(py: Runtime, args: seq<Value>, complaint: string, heap: Heap): Answer<string> {
    var text :- ArgText(py, args, 0, "", heap);
    if text == "" then Fails(BuiltinFault(complaint)) else Gives(text)
  }

  /** What is to be written: the second argument, or else what was piped in. */
  function Content(py: Runtime, args: seq<Value>, stdin: Value, heap: Heap): Answer<string> {
    var text :- ArgText(py, args, 1, "", heap);
    if text != "" then Gives(text)
    else if stdin.Str? then Gives(stdin.s)
    else if Truthy(stdin, heap) then Fails(OtherFault("a text was expected"))
    else Gives("")
  }

  function Normal(path: string): Answer<string> {
    match Paths.Normalize(path) case Some(p) => Gives(p) case None => Fails(OtherFault("invalid path"))
  }

  // ----- reading -----

  /** `read_file` as a builtin sees it. */
  function ReadText(workspace: string, path: string, store: GoodStore): Answer<string> {
    var p :- Normal(path);
    match W.ReadFile(store, workspace, p)
    case File(file) => Gives(file.content)
    case _ => Fails(OtherFault("not found"))
  }

  // ----- what each builtin asks of the database -----

  function FsRead(host: Host, workspace: string, args: seq<Value>, heap: Heap, store: GoodStore): Answer<string> {
    var path :- Needed(host.py, args, "fs.read requires a path argument", heap);
    ReadText(workspace, path, store)
  }

  function FsWrite(host: Host, workspace: string, stdin: Value, args: seq<Value>, heap: Heap): Answer<Deed> {
    var path :- Needed(host.py, args, "fs.write requires a path argument", heap);
    var content :- Content(host.py, args, stdin, heap);
    var p :- Normal(path);
    Gives(Deed(workspace, Writes(p, host.hash(content), content)))
  }

  /** The file as it is, or nothing if it cannot be read, and the new content after it. */
  function FsAppend(host: Host, workspace: string, stdin: Value, args: seq<Value>, heap: Heap,
                    store: GoodStore): Answer<Deed> {
    var path :- Needed(host.py, args, "fs.append requires a path argument", heap);
    var content :- Content(host.py, args, stdin, heap);
    var existing := match ReadText(workspace, path, store) case Gives(t) => t case Fails(_) => "";
    var p :- Normal(path);
    Gives(Deed(workspace, Writes(p, host.hash(existing + content), existing + content)))
  }

  function FsDelete(host: Host, workspace: string, args: seq<Value>, heap: Heap): Answer<Deed> {
    var path :- Needed(host.py, args, "fs.delete requires a path argument", heap);
    var p :- Normal(path);
    Gives(Deed(workspace, Deletes(p)))
  }

  function WsCommit(host: Host, workspace: string, args: seq<Value>, heap: Heap, store: GoodStore): Answer<Deed> {
    var message :- ArgText(host.py, args, 0, "auto commit", heap);
    Gives(Deed(workspace, Commits(message, host.newId(store), host.rejects(store, workspace, message))))
  }

  function WsSnapshot(host: Host, workspace: string, args: seq<Value>, heap: Heap): Answer<Deed> {
    var name :- Needed(host.py, args, "ws.snapshot requires a name argument", heap);
    Gives(Deed(workspace, Snaps(Paths.Strip(name))))
  }

  /** What a builtin asks for, if it gets as far. */
  function Asked(host: Host, name: string, stdin: Value, args: seq<Value>, heap: Heap, workspace: string,
                 store: GoodStore): Answer<Deed> {
    match name
    case "fs.write" => FsWrite(host, workspace, stdin, args, heap)
    case "fs.append" => FsAppend(host, workspace, stdin, args, heap, store)
    case "fs.delete" => FsDelete(host, workspace, args, heap)
    case "ws.commit" => WsCommit(host, workspace, args, heap, store)
    case "ws.snapshot" => WsSnapshot(host, workspace, args, heap)
    case _ => Gives(Deed(workspace, RollsBack))
  }

  // ----- what comes of it -----

  /** The text a builtin gives when the database has done what it asked. */
  function Told(store: GoodStore, deed: Deed, reply: W.Reply): string {
    match deed.act
    case Commits(_, _, _) => (match reply case Committed(id, _) => id case _ => "")
    case RollsBack => "discarded " + Digits(|W.StagedOf(store, deed.workspace)|) + " changes"
    case Snaps(_) => if deed.workspace in store.workspaces then store.workspaces[deed.workspace].head else ""
    case _ => ""
  }

  /** A failed operation raises the database's own error, and leaves nothing done. */
  function Done(store: GoodStore, deed: Deed, heap: Heap, web: nat): Effect {
    var reply := W.Step(store, OpOf(deed)).1;
    if reply.Failed? then Effect(Fails(OtherFault("database error")), heap, [], web)
    else Effect(Gives(Str(Told(store, deed, reply))), heap, [deed], web)
  }

  function Builtin(host: Host, name: string, stdin: Value, args: seq<Value>, heap: Heap, workspace: string,
                   store: GoodStore, web: nat): Effect
  {
    if name == "fs.read" then
      match FsRead(host, workspace, args, heap, store)
      case Gives(text) => Effect(Gives(Str(text)), heap, [], web)
      case Fails(f) => Effect(Fails(f), heap, [], web)
    else if name in WRITERS then
      match Asked(host, name, stdin, args, heap, workspace, store)
      case Gives(deed) => Done(store, deed, heap, web)
      case Fails(f) => Effect(Fails(f), heap, [], web)
    else
      var (answer, h, w) := host.reader(name, stdin, args, heap, workspace, store, web);
      Effect(answer, h, [], w)
  }

  // ----- what builtins do -----

  /** A deed in the script's own workspace, whose write names the hash of what it writes. */
  predicate Proper(host: Host, workspace: string, deed: Deed) {
    deed.workspace == workspace && (deed.act.Writes? ==> deed.act.hash == host.hash(deed.act.content))
  }

  /** Every builtin acts in the workspace it is given. */
  lemma CommandsAreProper(host: Host, name: string, stdin: Value, args: seq<Value>, heap: Heap, workspace: string,
                          store: GoodStore, web: nat)
    ensures var deeds := Builtin(host, name, stdin, args, heap, workspace, store, web).deeds;
      forall i :: 0 <= i < |deeds| ==> Proper(host, workspace, deeds[i])
  {
    hide W.Step, Asked, Told, FsRead, Proper;
    AskedIsProper(host, name, stdin, args, heap, workspace, store);
  }

  lemma AskedIsProper(host: Host, name: string, stdin: Value, args: seq<Value>, heap: Heap, workspace: string,
                      store: GoodStore)
    ensures var asked := Asked(host, name, stdin, args, heap, workspace, store);
      asked.Gives? ==> Proper(host, workspace, asked.value)
  {
    hide ReadText, Needed, Content, Normal, ArgText;
  }

  lemma OneDeed(store: GoodStore, deed: Deed)
    ensures Database(store, [deed]) == W.Step(store, OpOf(deed)).0
  {
    hide W.Step, W.Inv;
    var ops := OpsOf([deed]);
    assert ops == [OpOf(deed)] && ops[1..] == [];
    W.StepGood(store, OpOf(deed));
    var t := W.Step(store, OpOf(deed)).0;
    assert Runs.Run(t, []).0 == t;
  }

  /** Content as `fs.append` sees it: nothing if the file cannot be read. */
  function Existing(store: GoodStore, workspace: string, p: string): string {
    match W.ReadFile(store, workspace, p) case File(file) => file.content case _ => ""
  }

  /** What `fs.write` and `fs.append` leave behind reads back: the content, and for `fs.append` the old
      content with the new one after it. */
  lemma WritersReadBack(host: Host, name: string, stdin: Value, args: seq<Value>, heap: Heap, workspace: string,
                        store: GoodStore, web: nat, path: string, p: string, content: string)
    requires S.Injective(host.hash) && S.Hashed(host.hash, store.blobs) && name in {"fs.write", "fs.append"}
    requires ArgText(host.py, args, 0, "", heap) == Gives(path) && path != "" && Paths.Normalize(path) == Some(p)
    requires Content(host.py, args, stdin, heap) == Gives(content)
    ensures var e := Builtin(host, name, stdin, args, heap, workspace, store, web);
      && (e.answer.Gives? <==> workspace in store.workspaces)
      && (e.answer.Gives? ==>
            Existing(Database(store, e.deeds), workspace, p)
              == (if name == "fs.append" then Existing(store, workspace, p) else "") + content)
  {
    var written := (if name == "fs.append" then Existing(store, workspace, p) else "") + content;
    var deed := Deed(workspace, Writes(p, host.hash(written), written));
    WriterAsks(host, name, stdin, args, heap, workspace, store, path, p, content);
    assert Builtin(host, name, stdin, args, heap, workspace, store, web) == Done(store, deed, heap, web);
    hide Builtin;
    WriteReadsBack(host, store, workspace, heap, web, p, written);
  }

  lemma WriteReadsBack(host: Host, store: GoodStore, workspace: string, heap: Heap, web: nat, p: string,
                       written: string)
    requires S.Injective(host.hash) && S.Hashed(host.hash, store.blobs)
    ensures var e := Done(store, Deed(workspace, Writes(p, host.hash(written), written)), heap, web);
      && (e.answer.Gives? <==> workspace in store.workspaces)
      && (e.answer.Gives? ==> Existing(Database(store, e.deeds), workspace, p) == written)
  {
    hide W.ReadFile, W.Inv, S.Injective, S.Hashed, W.ByteSize, W.Stage, W.StoreBlob, Database;
    OneDeed(store, Deed(workspace, Writes(p, host.hash(written), written)));
    if workspace in store.workspaces {
      S.ReadAfterWrite(store, workspace, p, host.hash(written), written, p);
      S.HashedWritesRead(host.hash, store.blobs, written);
    }
  }

  lemma WriterAsks(host: Host, name: string, stdin: Value, args: seq<Value>, heap: Heap, workspace: string,
                   store: GoodStore, path: string, p: string, content: string)
    requires name in {"fs.write", "fs.append"}
    requires ArgText(host.py, args, 0, "", heap) == Gives(path) && path != "" && Paths.Normalize(path) == Some(p)
    requires Content(host.py, args, stdin, heap) == Gives(content)
    ensures var written := (if name == "fs.append" then Existing(store, workspace, p) else "") + content;
      Asked(host, name, stdin, args, heap, workspace, store)
        == Gives(Deed(workspace, Writes(p, host.hash(written), written)))
  {
    hide W.ReadFile, ArgText, Content;
    assert "" + content == content;
  }

  /** `fs.read` gives a file's content exactly when there is such a file. */
  lemma ReaderGives(host: Host, stdin: Value, args: seq<Value>, heap: Heap, workspace: string, store: GoodStore,
                    web: nat, path: string, p: string)
    requires ArgText(host.py, args, 0, "", heap) == Gives(path) && path != "" && Paths.Normalize(path) == Some(p)
    ensures var e := Builtin(host, "fs.read", stdin, args, heap, workspace, store, web);
      && (e.answer.Gives? <==> W.ReadFile(store, workspace, p).File?)
      && (e.answer.Gives? ==> e.answer == Gives(Str(Existing(store, workspace, p))))
      && Database(store, e.deeds) == store
  {
    hide ArgText, W.ReadFile, W.Inv, W.Step;
    NothingDone(store);
  }

  lemma NothingDone(store: GoodStore)
    ensures Database(store, []) == store
  {
    assert OpsOf([]) == [];
    hide W.Inv, W.Step;
  }

  /** After `fs.delete` the file is not found, and it succeeds in every existing workspace. */
  lemma DeleterHides(host: Host, stdin: Value, args: seq<Value>, heap: Heap, workspace: string, store: GoodStore,
                     web: nat, path: string, p: string)
    requires ArgText(host.py, args, 0, "", heap) == Gives(path) && path != "" && Paths.Normalize(path) == Some(p)
    ensures var e := Builtin(host, "fs.delete", stdin, args, heap, workspace, store, web);
      && (e.answer.Gives? <==> workspace in store.workspaces)
      && (e.answer.Gives? ==> W.ReadFile(Database(store, e.deeds), workspace, p) == W.Failed(W.NotFound))
  {
    var deed := Deed(workspace, Deletes(p));
    assert Asked(host, "fs.delete", stdin, args, heap, workspace, store) == Gives(deed) by { hide ArgText; }
    assert Builtin(host, "fs.delete", stdin, args, heap, workspace, store, web) == Done(store, deed, heap, web) by {
      hide Done, Asked;
    }
    hide Builtin, Asked, ArgText, W.ReadFile, W.Inv, Database;
    OneDeed(store, deed);
    if workspace in store.workspaces { S.DeletedIsNotFound(store, workspace, p, p); }
    hide W.Stage;
  }

  /** After `ws.rollback` the workspace shows its head's tree, and it tells how many rows it discarded. */
  lemma RollbackForgets(host: Host, stdin: Value, args: seq<Value>, heap: Heap, workspace: string, store: GoodStore,
                        web: nat)
    ensures var e := Builtin(host, "ws.rollback", stdin, args, heap, workspace, store, web);
      && (e.answer.Gives? <==> workspace in store.workspaces)
      && (e.answer.Gives? ==>
            var after := Database(store, e.deeds);
            && workspace in after.workspaces
            && W.Visible(after, workspace) == Outcomes.HeadTree(store, workspace)
            && e.answer == Gives(Str("discarded " + Digits(|W.StagedOf(store, workspace)|) + " changes")))
  {
    var deed := Deed(workspace, RollsBack);
    RollbackAsks(host, stdin, args, heap, workspace, store, web);
    RollbackDone(store, workspace, heap, web);
    hide *;
    OneDeed(store, deed);
    if workspace in store.workspaces { RolledBack(store, workspace); }
  }

  lemma RollbackAsks(host: Host, stdin: Value, args: seq<Value>, heap: Heap, workspace: string, store: GoodStore,
                     web: nat)
    ensures Builtin(host, "ws.rollback", stdin, args, heap, workspace, store, web)
         == Done(store, Deed(workspace, RollsBack), heap, web)
  {
    hide Done;
  }

  lemma RollbackDone(store: GoodStore, workspace: string, heap: Heap, web: nat)
    ensures var deed := Deed(workspace, RollsBack);
      var e := Done(store, deed, heap, web);
      && (e.answer.Gives? <==> workspace in store.workspaces)
      && (e.answer.Gives? ==>
            && e.deeds == [deed] && W.Step(store, OpOf(deed)).0 == W.RollbackStaged(store, workspace).0
            && e.answer == Gives(Str("discarded " + Digits(|W.StagedOf(store, workspace)|) + " changes")))
  {
    hide W.Inv, Digits;
  }

  lemma RolledBack(store: GoodStore, workspace: string)
    requires workspace in store.workspaces
    ensures var t := W.RollbackStaged(store, workspace).0;
      && W.Inv(t) && workspace in t.workspaces && W.Visible(t, workspace) == Outcomes.HeadTree(store, workspace)
  {
    var t := W.RollbackStaged(store, workspace).0;
    W.RollbackGood(store, workspace);
    Outcomes.ShowsOverHead(store, workspace);
    Outcomes.ShowsOverHead(t, workspace);
    History.OverlayNothing(Outcomes.HeadTree(store, workspace));
    hide W.Inv, W.Visible, Outcomes.HeadTree;
  }

  /** `ws.commit` tells the new head, whose tree is what the workspace showed; with nothing to commit it
      tells nothing and does nothing. */
  lemma CommitTells(host: Host, stdin: Value, args: seq<Value>, heap: Heap, workspace: string, store: GoodStore,
                    web: nat)
    ensures var e := Builtin(host, "ws.commit", stdin, args, heap, workspace, store, web);
      e.answer.Gives? ==>
        var after := Database(store, e.deeds);
        && workspace in store.workspaces && workspace in after.workspaces
        && Outcomes.HeadTree(after, workspace) == W.Visible(store, workspace)
        && (if W.Visible(store, workspace) == Outcomes.HeadTree(store, workspace)
            then after == store && e.answer == Gives(Str(""))
            else e.answer == Gives(Str(after.workspaces[workspace].head)))
  {
    var asked := WsCommit(host, workspace, args, heap, store);
    if asked.Gives? {
      var act := asked.value.act;
      assert asked.value == Deed(workspace, act) && act.Commits?;
      assert Builtin(host, "ws.commit", stdin, args, heap, workspace, store, web)
          == Done(store, asked.value, heap, web);
      hide Builtin, WsCommit, Database;
      OneDeed(store, asked.value);
      CommitDone(store, workspace, act.message, act.id, act.rejected, heap, web);
    }
  }

  lemma CommitDone(store: GoodStore, workspace: string, message: string, id: string, rejected: bool, heap: Heap,
                   web: nat)
    ensures var deed := Deed(workspace, Commits(message, id, rejected));
      var e := Done(store, deed, heap, web);
      var after := W.Step(store, OpOf(deed)).0;
      e.answer.Gives? ==>
        && W.Inv(after) && workspace in store.workspaces && workspace in after.workspaces
        && Outcomes.HeadTree(after, workspace) == W.Visible(store, workspace)
        && (if W.Visible(store, workspace) == Outcomes.HeadTree(store, workspace)
            then after == store && e.answer == Gives(Str(""))
            else e.answer == Gives(Str(after.workspaces[workspace].head)))
  {
    var op := W.OpCommit(workspace, message, id, rejected);
    Outcomes.CommitIsNoopExactly(store, workspace, message, id, rejected);
    Outcomes.CommitSucceedsExactly(store, workspace, message, id, rejected);
    Outcomes.CommitAnswers(store, workspace, message, id, rejected);
    if W.Step(store, op).1.Committed? {
      Outcomes.CommitShows(store, workspace, message, id, rejected);
      Outcomes.HeadTreeIs(W.Step(store, op).0, workspace);
    }
    hide W.Step, W.Visible, W.Inv, W.Keeps, Outcomes.HeadTree, W.Blank;
  }

  /** `ws.snapshot` tells the head that it names. */
  lemma SnapshotTells(host: Host, stdin: Value, args: seq<Value>, heap: Heap, workspace: string, store: GoodStore,
                      web: nat, name: string)
    requires ArgText(host.py, args, 0, "", heap) == Gives(name) && name != ""
    ensures var e := Builtin(host, "ws.snapshot", stdin, args, heap, workspace, store, web);
      var trimmed := Paths.Strip(name);
      && (e.answer.Gives? <==> trimmed != "" && workspace in store.workspaces && trimmed !in store.snapshots)
      && (e.answer.Gives? ==>
            && e.answer == Gives(Str(store.workspaces[workspace].head))
            && var after := Database(store, e.deeds);
               trimmed in after.snapshots && after.snapshots[trimmed].commit == store.workspaces[workspace].head)
  {
    var trimmed := Paths.Strip(name);
    var deed := Deed(workspace, Snaps(trimmed));
    SnapshotAsks(host, stdin, args, heap, workspace, store, web, name);
    SnapshotDone(store, workspace, trimmed, heap, web);
    hide *;
    OneDeed(store, deed);
  }

  lemma SnapshotAsks(host: Host, stdin: Value, args: seq<Value>, heap: Heap, workspace: string, store: GoodStore,
                     web: nat, name: string)
    requires ArgText(host.py, args, 0, "", heap) == Gives(name) && name != ""
    ensures Builtin(host, "ws.snapshot", stdin, args, heap, workspace, store, web)
         == Done(store, Deed(workspace, Snaps(Paths.Strip(name))), heap, web)
  {
    hide Done, ArgText, Paths.Strip;
  }

  lemma SnapshotDone(store: GoodStore, workspace: string, name: string, heap: Heap, web: nat)
    ensures var deed := Deed(workspace, Snaps(name));
      var e := Done(store, deed, heap, web);
      && (e.answer.Gives? <==> name != "" && workspace in store.workspaces && name !in store.snapshots)
      && (e.answer.Gives? ==>
            && e.deeds == [deed] && e.answer == Gives(Str(store.workspaces[workspace].head))
            && var t := W.Step(store, OpOf(deed)).0;
               name in t.snapshots && t.snapshots[name].commit == store.workspaces[workspace].head)
  {
    hide W.Inv;
  }

  // ----- what a builtin makes of its arguments -----

  /** The path it is given. */
  predicate GivenPath(args: seq<Value>, path: string) {
    args != [] && args[0] == Str(path)
  }

  /** The text to be written: the second argument, or what was piped in where that is missing or empty, or
      nothing. */
  predicate GivenText(stdin: Value, args: seq<Value>, content: string) {
    if |args| > 1 && args[1] != Str("") then content != "" && args[1] == Str(content)
    else stdin == Str(content) || (stdin == Null && content == "")
  }

  lemma GivenArguments(py: Runtime, stdin: Value, args: seq<Value>, heap: Heap, path: string, content: string)
    ensures GivenPath(args, path) ==> ArgText(py, args, 0, "", heap) == Gives(path)
    ensures GivenText(stdin, args, content) ==> Content(py, args, stdin, heap) == Gives(content)
  {
  }

  /** `fs.write` and `fs.append` write the second argument, and what is piped in only where there is none. */
  lemma WrittenIsWhatWasGiven(host: Host, name: string, stdin: Value, args: seq<Value>, heap: Heap,
                              workspace: string, store: GoodStore, web: nat, path: string, p: string, content: string)
    requires S.Injective(host.hash) && S.Hashed(host.hash, store.blobs) && name in {"fs.write", "fs.append"}
    requires GivenPath(args, path) && path != "" && Paths.Normalize(path) == Some(p)
    requires GivenText(stdin, args, content)
    ensures var e := Builtin(host, name, stdin, args, heap, workspace, store, web);
      && (e.answer.Gives? <==> workspace in store.workspaces)
      && (e.answer.Gives? ==>
            Existing(Database(store, e.deeds), workspace, p)
              == (if name == "fs.append" then Existing(store, workspace, p) else "") + content)
  {
    hide *;
    GivenArguments(host.py, stdin, args, heap, path, content);
    WritersReadBack(host, name, stdin, args, heap, workspace, store, web, path, p, content);
  }

  const NAMED := {"fs.read", "fs.write", "fs.append", "fs.delete", "ws.snapshot"}

  /** Without a first argument, or with an empty one, those that need one fail with an error of their own, which
      scripts can catch, and do nothing. */
  lemma EmptyArgumentsAreRefused(host: Host, name: string, stdin: Value, args: seq<Value>, heap: Heap,
                                 workspace: string, store: GoodStore, web: nat)
    requires name in NAMED && (args == [] || GivenPath(args, ""))
    ensures var e := Builtin(host, name, stdin, args, heap, workspace, store, web);
      e.answer.Fails? && e.answer.fault.BuiltinFault? && e.deeds == []
  {
    if name == "fs.read" {
      EmptyRead(host, args, heap, workspace, store);
    } else if name == "ws.snapshot" {
      EmptyName(host, stdin, args, heap, workspace, store);
    } else {
      EmptyAsked(host, name, stdin, args, heap, workspace, store);
    }
    hide Asked, FsRead, Done;
  }

  lemma EmptyRead(host: Host, args: seq<Value>, heap: Heap, workspace: string, store: GoodStore)
    requires args == [] || GivenPath(args, "")
    ensures var read := FsRead(host, workspace, args, heap, store); read.Fails? && read.fault.BuiltinFault?
  {
    NothingNeeded(host.py, args, "fs.read requires a path argument", heap);
    hide Needed, ReadText;
  }

  lemma EmptyName(host: Host, stdin: Value, args: seq<Value>, heap: Heap, workspace: string, store: GoodStore)
    requires args == [] || GivenPath(args, "")
    ensures var asked := Asked(host, "ws.snapshot", stdin, args, heap, workspace, store);
      asked.Fails? && asked.fault.BuiltinFault?
  {
    NothingNeeded(host.py, args, "ws.snapshot requires a name argument", heap);
    hide Needed;
  }

  lemma EmptyAsked(host: Host, name: string, stdin: Value, args: seq<Value>, heap: Heap, workspace: string,
                   store: GoodStore)
    requires name in {"fs.write", "fs.append", "fs.delete"} && (args == [] || GivenPath(args, ""))
    ensures var asked := Asked(host, name, stdin, args, heap, workspace, store);
      asked.Fails? && asked.fault.BuiltinFault?
  {
    hide Needed, Content, Normal, ReadText, ArgText;
    if name == "fs.write" {
      NothingNeeded(host.py, args, "fs.write requires a path argument", heap);
    } else if name == "fs.append" {
      NothingNeeded(host.py, args, "fs.append requires a path argument", heap);
    } else {
      NothingNeeded(host.py, args, "fs.delete requires a path argument", heap);
    }
  }

  lemma NothingNeeded(py: Runtime, args: seq<Value>, complaint: string, heap: Heap)
    requires args == [] || GivenPath(args, "")
    ensures Needed(py, args, complaint, heap) == Fails(BuiltinFault(complaint))
  {
  }

  /** `ws.commit` without a message has one, so that it succeeds unless there is no such workspace, a hook
      rejects it or the new id is taken; a message that is blank is refused. */
  lemma CommitsHaveAMessage(host: Host, stdin: Value, args: seq<Value>, heap: Heap, workspace: string,
                            store: GoodStore, web: nat, message: string)
    requires if args == [] then message == "auto commit" else args[0] == Str(message)
    ensures var e := Builtin(host, "ws.commit", stdin, args, heap, workspace, store, web);
      (args == [] ==> !W.Blank(message)) &&
      (e.answer.Gives? <==>
        && !W.Blank(message) && workspace in store.workspaces
        && (W.Visible(store, workspace) == Outcomes.HeadTree(store, workspace)
            || (!host.rejects(store, workspace, message) && host.newId(store) !in store.commits)))
  {
    AutoCommitIsNoBlank();
    var id, rejected := host.newId(store), host.rejects(store, workspace, message);
    var deed := Deed(workspace, Commits(message, id, rejected));
    assert WsCommit(host, workspace, args, heap, store) == Gives(deed);
    assert Builtin(host, "ws.commit", stdin, args, heap, workspace, store, web) == Done(store, deed, heap, web);
    hide *;
    CommitDoneExactly(store, workspace, message, id, rejected, heap, web);
  }

  lemma CommitDoneExactly(store: GoodStore, workspace: string, message: string, id: string, rejected: bool,
                          heap: Heap, web: nat)
    ensures var e := Done(store, Deed(workspace, Commits(message, id, rejected)), heap, web);
      e.answer.Gives? <==>
        && !W.Blank(message) && workspace in store.workspaces
        && (W.Visible(store, workspace) == Outcomes.HeadTree(store, workspace)
            || (!rejected && id !in store.commits))
  {
    Outcomes.CommitIsNoopExactly(store, workspace, message, id, rejected);
    Outcomes.CommitSucceedsExactly(store, workspace, message, id, rejected);
    Outcomes.CommitAnswers(store, workspace, message, id, rejected);
    hide W.Step, W.Visible, W.Inv, Outcomes.HeadTree, W.Blank;
  }

  lemma AutoCommitIsNoBlank()
    ensures !W.Blank("auto commit")
  {
  }
}
