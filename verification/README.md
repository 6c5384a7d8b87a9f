# text2cli: the workspace store and T2Script

This project models two systems of text2cli and proves what they keep.

**The workspace store** (`db.py`, `cache.py`, `lang/__init__.py` on top of it): commits with parent
pointers, workspaces with a head, a base and staged rows, an optimistic merge, named snapshots, and a
cache in front of the reads. `Workspaces` gives every public operation as one step from tables to
tables and a reply; `WorkspaceDB` is the object whose methods update the tables in place, walk the
commit chain in loops and look results up in the cache, and each method is proved to be that step.
Over those steps the project proves what every reachable store keeps (`Workspaces.StepGood`,
`Runs.RunGood`), exactly when each operation succeeds, is refused or has nothing to do and what can be
seen after it, told by the trees that workspaces and commits show and not by the steps' own branches
(`Outcomes`, `Listings`), that the walks of a chain agree (`History`), that a merge is the three-way
merge and that the order of merges does not matter (`Merging`, `Reverting`), that history, snapshots and
other workspaces are left alone by every run (`Runs`), that what is written reads back (`Staging`), that
the cache never shows (`CachedStore`, over the paths that `Paths` brings into final form), what a backend
still holds told by when keys were last used (`Lru`), and that the directory tree lists the files
(`DirectoryTree`, built in place by `TreeBuilder`).

**T2Script** (`lang/`): `Lexer`, `Grammar` (the rules as functions on the tokens to read), `Parser`
(the object with a cursor, proved to do what the rules say), `Printer` and the inversions: a printed
program parses back to itself, from tokens (`ProgramInversion`) and from text (`SourceInversion`), and
the programs that texts parse to are exactly those that can be printed (`ParsedTrees`,
`ParsedPrograms`). A printer has the choices that a text leaves its author, made freely at each place:
a bare name for `$x`, needless parentheses, newlines, last commas, dashes before flags and numbers; and
`Layout` adds space and comments anywhere between tokens, and what may stand in a string literal.
`Conservation` goes the other way: whatever text parses, no token that means something is dropped,
repeated, exchanged or made up.
`Interpretation` is the interpreter as functions from context to context, accepted by a measure on the
steps still allowed; `Interpreter` is the object that changes its context in place, proved equal to it;
`Budget` bounds steps and calls, `Fuel` shows that the step limit only ever stops a run, `Builtins`
gives the commands that change the store from their arguments, `Conduct` carries what every run keeps
through one induction over the interpreter, and `Scripts` puts a script on the store. What scripts
compute is stated over whole programs and for any limits the run stays within: `Evaluation` says what
expressions over null, numbers, truth values and texts mean and holds the rules from which runs are
worked out; `Programs`, `Behaviours`, `Collections`, `Commands`, `Conversions`, `Definitions` and
`Failures` are families of programs with their results, `Marks` the texts with `${name}` in them,
`Numerals` the texts of integers, and `Written` and `Scripts` bring one of the programs up from its text.
The context
carries three counters that the program does not have: of the step-limit errors caught (`caught`), of
the builtins and utilities called (`calls`), and of those called past the limit (`late`). No decision
reads them.

Claims one would expect and that are false of the code are stated with the input that breaks them and
with what does hold:

- "only real three-way conflicts are refused" fails: from every fresh database, changing a file in a
  fork and changing it back conflicts with changing it in `main`
  (`Reverting.RevertedChangeStillConflicts`). A refused path is no real conflict if and only if both
  deltas touch it, the heads differ there and one head is back at the base's value
  (`Merging.FalseConflictsExactly`).
- "workspaces never share a cache entry" fails for names one of which, with a colon, begins the other
  with a colon, where the rest can begin a path in final form (`CachedStore.UnseparateNamesShow`).
  `CachedStore.FileKeysCollideExactly` says that keys collide for no other names, and
  `CachedStore.CacheIsInvisible` that the cache does not show for them.
- "a script takes at most one step past its limit, and calls no builtin there" fails because `catch`
  catches the step limit: the bound is `2 * limit + 1` and is reached for every limit
  (`Budget.BoundIsReached`), and `Budget.BuiltinPastTheLimit` is a whole run that calls a builtin past
  its limit. It holds of every program that has no `try` and imports none, whatever the limit and the
  builtins (`Budget.WithoutTry`). Wherever a program comes to a `try` of its own top level, the guard is
  needed: some limit lets it go further, unless nothing follows the catch
  (`Budget.ReachedTryGoesPast`). What any run says about itself is exact
  (`Budget.StepsPastTheLimit`).

- "an escaped dollar sign keeps a `${name}` from being replaced" fails: the escape is gone before the
  interpreter looks at the text (`Layout.EscapedMarkIsReplaced`). A text is left as it is whatever the
  variables exactly when no mark is in it (`Marks.TextStaysExactly`).

A reader may also be surprised by a bare name before a minus that begins no argument: `x - (...)`
subtracts from a command without arguments, not from the variable
(`ParsedPrograms.BareNameBeforeMinusIsACommand`).

The repository's v0.3 specification document gives the step limit as what prevents endless loops. In the
code it is an error that a script can catch; runs end all the same, within the bound above. Where
documents and code differ, the model follows the code.

## Model

| member | source | states |
|---|---|---|
| History.ResolveIsReplay | src/text2cli/db.py:1326-1343 | the newest-first lookup of one path finds what the oldest-first replay of all commits leaves there |
| WorkspaceDB.WorkspaceDB.ResolvePath | src/text2cli/db.py:1326-1343 | the lookup loop returns the newest change to the path on the chain, or nothing |
| WorkspaceDB.WorkspaceDB.SnapshotAtCommit | src/text2cli/db.py:1291-1324 | the newest-first walk with its seen-set builds exactly the tree of the oldest-first replay |
| WorkspaceDB.WorkspaceDB.SnapshotForWorkspace | src/text2cli/db.py:1261-1289 | the head's tree with the staged rows written over it, with sizes and staged flags |
| History.DeltaBridges | src/text2cli/db.py:1372-1398 | writing a delta over the base's tree gives the head's tree |
| History.DeltaAtHead | src/text2cli/db.py:1372-1398 | a delta says of each path it touches what the head's tree holds there, and every path it does not touch is as at the base |
| WorkspaceDB.WorkspaceDB.CollectChangesSince | src/text2cli/db.py:1372-1398 | the loop collects exactly the delta, and fails exactly when the base is no ancestor |
| WorkspaceDB.WorkspaceDB.CommitChain | src/text2cli/db.py:1425-1444 | the walk terminates and lists the chain to the root or to the stop commit, and fails exactly when that is not on it |
| History.ChainListsAncestors | src/text2cli/db.py:1425-1444 | the chain of a commit holds exactly its ancestors |
| History.ChainUntilIsPrefix | src/text2cli/db.py:1425-1444 | a chain that stops at an ancestor is the beginning of the whole chain, and that ancestor comes next |
| Workspaces.StepGood | src/text2cli/db.py:170-820 | every operation keeps the invariant: parents precede children, commits and blobs referred to exist, each base is an ancestor of its head and equal to it when nothing is tracked; and nothing stored is lost or changed |
| Runs.RunGood | src/text2cli/db.py:170-820 | the same over every run from a store that satisfies the invariant |
| Workspaces.Initial | src/text2cli/db.py:63-168 | a fresh database satisfies the invariant |
| Workspaces.ReadAgreesWithList | src/text2cli/db.py:315-388 | `read_file` succeeds with a blob exactly when `list_files` shows the path with that blob, and is not-found otherwise |
| Listings.ReadShows | src/text2cli/db.py:315-362 | a read is told by the visible tree and the staged rows alone: content, hash, source and head, or not-found |
| Listings.ListShows | src/text2cli/db.py:364-388 | a listing has one row for each visible path, ascending, with the hash it shows, its size, and whether it is staged |
| Listings.SizesAreBytes | src/text2cli/db.py:1237-1246 | after every run from a fresh database a listed size is the number of UTF-8 bytes of what a read of that path finds |
| Workspaces.NoopExactlyWhenNothingVisibleChanged | src/text2cli/db.py:1345-1370 | the effective changes are empty if and only if the visible tree is the head's tree |
| Workspaces.EffectiveIsTheDifference | src/text2cli/db.py:1345-1370 | the effective changes are exactly the paths where the visible tree differs from the head's, with the value it shows |
| WorkspaceDB.WorkspaceDB.EffectiveStagedChanges | src/text2cli/db.py:1345-1370 | the loop computes those changes |
| Workspaces.CommitRecordsTheDifference | src/text2cli/db.py:427-504 | a successful commit's own changes are exactly that difference, on the old head |
| Outcomes.CommitIsNoopExactly | src/text2cli/db.py:427-439 | a commit answers noop, with the head, and leaves every table as it was, if and only if the message is not blank, the workspace exists and shows its head's tree |
| Outcomes.CommitSucceedsExactly | src/text2cli/db.py:427-504 | a commit is made if and only if the message is not blank, the workspace exists and shows something else than its head's tree, no hook rejects it and its id is new; it names exactly the differing paths |
| Outcomes.CommitShows | src/text2cli/db.py:427-504 | the new commit's tree is what the workspace showed and still shows, on the old head, whose tree stays |
| Outcomes.SecondCommitIsNoop | src/text2cli/db.py:433-439 | after a successful commit another one, with any message, id and hook, is a noop |
| Outcomes.CommitsAreNeverEmpty | src/text2cli/db.py:427-504 | over every run each commit that a commit operation made differs from its parent's tree |
| Workspaces.CommitKeepsVisible | src/text2cli/db.py:427-504 | a commit, done or noop, leaves the visible tree as it was |
| WorkspaceDB.WorkspaceDB.CommitWorkspace | src/text2cli/db.py:427-504 | the method makes that step on the tables, with its checks in order, and invalidates the workspace's cache entries |
| Merging.ConflictsExactly | src/text2cli/db.py:1400-1423 | a path conflicts if and only if both deltas touch it and the two heads hold different values there |
| WorkspaceDB.WorkspaceDB.FindConflicts | src/text2cli/db.py:1400-1423 | the loop reports exactly the paths on which two deltas disagree |
| Merging.TrueConflictsAreReported | src/text2cli/db.py:506-560 | where source and target both differ from the base and from each other the path is reported |
| Merging.FalseConflictsExactly | src/text2cli/db.py:1400-1423 | a refused path is no real conflict if and only if both deltas touch it, the heads differ there and one head is back at the base's value |
| Reverting.RevertedChangeConflicts | src/text2cli/db.py:1372-1423 | from any store with a fork at `main`'s state, changing a file and changing it back in the fork and changing it in `main` makes a merge refuse that file |
| Reverting.RevertedChangeStillConflicts | src/text2cli/db.py:1372-1423 | so does a whole run from a fresh database, for any names and contents |
| Merging.MergeIsThreeWay | src/text2cli/db.py:506-633 | after a successful merge every path holds the source's value if it differs from the base's, else the target's |
| Outcomes.MergeCommitsExactly | src/text2cli/db.py:506-633 | a merge commits if and only if source and target are two existing workspaces, the message is not blank, the source has nothing staged and a delta, its base is behind the target, no path is in conflict, no hook rejects it and its id is new |
| Outcomes.MergeIsNoopExactly | src/text2cli/db.py:506-560 | it answers noop, and changes nothing, if and only if all that is looked at before is in order and the source has no delta |
| Outcomes.MergeShows | src/text2cli/db.py:575-612 | after a merge the source shows the merge commit's tree and nothing else, the target shows it under its own staged rows, and no staged row is touched |
| Merging.MergeSettles | src/text2cli/db.py:575-612 | after a merge both workspaces have one head and tree, neither has a delta left, and repeating the merge is a noop |
| Merging.MergingFromUntrackedIsNoop | src/text2cli/db.py:477-480 | merging from a workspace that tracks nothing is always a noop |
| Merging.MergingAllSucceeds | src/text2cli/db.py:506-633 | merging any number of forks of one commit whose deltas agree never fails and gives the fork point's tree overlaid with all deltas |
| Merging.MergeOrderDoesNotMatter | src/text2cli/db.py:506-633 | two series of merges over the same forks, in any orders, leave the same tree on `main` |
| WorkspaceDB.WorkspaceDB.MergeWorkspace | src/text2cli/db.py:506-633 | the method makes the merge step, with its checks in order, and invalidates both workspaces' cache entries |
| Outcomes.OnlySuccessChanges | src/text2cli/db.py:170-820 | an operation that is refused, only reads or has nothing to do leaves every table as it was |
| Outcomes.HistoricalReadFinds | src/text2cli/db.py:724-748 | `read_file_at` finds a file with a hash and its content if and only if the commit's tree holds that hash at the path, and not-found otherwise |
| Outcomes.CommittedStaysReadable | src/text2cli/db.py:724-748 | what `read_file` showed before a commit, `read_file_at` at the new commit shows after every later run |
| Outcomes.ForkShowsTheHead | src/text2cli/db.py:170-211 | a fork is made if and only if its name is new, not empty and not its source's, which exists; it shows its source's head and not its staged rows, and has nothing to merge |
| Outcomes.SnapshotNamesTheHead | src/text2cli/db.py:667-698 | a snapshot is taken if and only if its name is new and not empty and the workspace exists; after every later run it names the workspace, and its commit reads as the head did |
| Outcomes.ResetShowsTheTarget | src/text2cli/db.py:778-820 | a reset is done if and only if the commit is on the workspace's own chain; the workspace then shows exactly its tree, with nothing staged and nothing to merge |
| Runs.HistoryIsImmutable | src/text2cli/db.py:724-748 | `read_file_at` at an existing commit answers the same after every later run |
| Runs.SnapshotsAreImmutable | src/text2cli/db.py:667-698 | a named snapshot keeps its commit, and that commit its tree, over every later run |
| Runs.WorkspacesAreIsolated | src/text2cli/db.py:315-388 | over a run of operations that do not name a workspace, it reads, lists and shows the same |
| Runs.DisciplinedRunsNeverStrandABase | src/text2cli/db.py:520-529 | if forks come from `main`, merges go into `main` and nothing is reset, every base stays on `main`'s chain, so no merge fails with not-an-ancestor |
| Staging.WriteShows | src/text2cli/db.py:236-262 | a write changes the visible tree at its path and nowhere else |
| Staging.DeleteShows | src/text2cli/db.py:291-313 | a delete removes its path from the visible tree and nothing else |
| Staging.RunKeepsHashed | src/text2cli/db.py:236-262 | over every run whose writes name the hash of what they write, every stored blob is under its own hash |
| Staging.ReadYourWrites | src/text2cli/db.py:236-362 | after any such run from a fresh database, with hashes that do not collide, a written file reads back exactly as written, and other paths read as before |
| Staging.DeletedIsNotFound | src/text2cli/db.py:291-362 | a deleted file is not found; other paths read as before |
| Staging.RollbackUndoesStaging | src/text2cli/db.py:750-776 | after any run of writes and deletes a rollback shows the head's tree again, and the head has not moved |
| WorkspaceDB.WorkspaceDB.CreateWorkspace | src/text2cli/db.py:170-211 | the method makes the fork step |
| WorkspaceDB.WorkspaceDB.WriteFile | src/text2cli/db.py:236-262 | the method makes the write step and invalidates the file and the workspace state in the cache |
| WorkspaceDB.WorkspaceDB.DeleteFile | src/text2cli/db.py:291-313 | the method makes the delete step and invalidates the file and the workspace state in the cache |
| WorkspaceDB.WorkspaceDB.ReadFile | src/text2cli/db.py:315-362 | the method makes the cached read step: reply and cache contents |
| WorkspaceDB.WorkspaceDB.ReadFileAt | src/text2cli/db.py:724-748 | the method makes the cached historical read step |
| WorkspaceDB.WorkspaceDB.ListFiles | src/text2cli/db.py:364-388 | the method makes the cached list step |
| WorkspaceDB.WorkspaceDB.TreeWorkspace | src/text2cli/db.py:825-867 | the method makes the cached tree step |
| WorkspaceDB.WorkspaceDB.CreateSnapshot | src/text2cli/db.py:667-698 | the method makes the snapshot step |
| WorkspaceDB.WorkspaceDB.RollbackStaged | src/text2cli/db.py:750-776 | the method makes the rollback step |
| WorkspaceDB.WorkspaceDB.ResetWorkspace | src/text2cli/db.py:778-820 | the method makes the reset step, which moves head and base to an ancestor of the head |
| DirectoryTree.UnderIsTextPrefix | src/text2cli/db.py:835-846 | a path lies under a directory exactly when it begins with the directory's text |
| DirectoryTree.DirectoriesAreContiguous | src/text2cli/db.py:835-846 | all paths under one directory stand together in sorted order |
| DirectoryTree.TreeListsTheFiles | src/text2cli/db.py:825-867 | the depth-first listing of the tree is the sorted file list, and no directory appears twice under one parent |
| TreeBuilder.PutHangs | src/text2cli/db.py:836-858 | making missing directories in the table and appending the file is hanging the file in the tree |
| TreeBuilder.BuildTree | src/text2cli/db.py:832-858 | the two loops over sorted paths and their parts build exactly that tree |
| Ordering.SortedAscends | src/text2cli/db.py:835 | the sorted paths ascend and are the paths, each once |
| DirectoryTree.FilesAreInPlace | src/text2cli/db.py:832-858 | the directories above a file in the tree, and its own name, are the parts of its path |
| Cache.LocalLRUBackend.Get | src/text2cli/cache.py:46-59 | a hit moves to the recent end, an expired entry is dropped; keys stay unique and the size within the capacity |
| Cache.LocalLRUBackend.Set | src/text2cli/cache.py:61-68 | the value goes to the recent end and the oldest entries that do not fit are dropped |
| Cache.LocalLRUBackend.DeletePrefix | src/text2cli/cache.py:74-79 | exactly the entries whose key has the prefix go, and the others keep their order |
| Cache.WorkspaceCache.InvalidateFile | src/text2cli/cache.py:214-219 | the file's entry and the workspace's state entries go, nothing else |
| Cache.WorkspaceCache.InvalidateWorkspace | src/text2cli/cache.py:227-233 | all file and state entries of the workspace go, nothing else |
| Lru.GetAfterSet | src/text2cli/cache.py:46-68 | a value just set is found until it expires |
| Lru.GetKeepsOrder | src/text2cli/cache.py:46-59 | a lookup keeps one entry per key and the capacity |
| Lru.SetKeepsOrder | src/text2cli/cache.py:61-68 | so does a write |
| Lru.LeastRecentlyUsedGoFirst | src/text2cli/cache.py:46-79 | over every run of lookups and writes that expire nothing, what a backend holds is the keys last used, in the order of their last use |
| Lru.EveryHitOfTheSmaller | src/text2cli/cache.py:36-79 | of two backends that start empty and are fed the same run, the larger has every hit of the smaller, with the same value |
| Lru.LargerCacheNeverLosesAHit | src/text2cli/cache.py:36-79 | of two backends fed the same run, the smaller stays a sub-map of the larger in the same order, and each of its hits is the same hit of the larger |
| CachedStore.ColonFreeNamesAreSeparate | src/text2cli/cache.py:182-196 | names without colons are separate |
| Paths.FinalExactly | src/text2cli/db.py:1520-1529 | the paths in final form, without backslashes and with no part empty, `.` or `..`, are exactly those that normalising some text gives |
| Paths.ParentCancels | src/text2cli/db.py:1520-1529 | `x/..` can be left out of a path wherever it stands, for every name `x` |
| Paths.HereStays | src/text2cli/db.py:1520-1529 | so can an empty part or a dot |
| Paths.RootIsItsParent | src/text2cli/db.py:1520-1529 | so can `..` at the beginning |
| Paths.SpaceAroundIsDropped | src/text2cli/db.py:1520-1529 | space around a path changes nothing |
| Paths.BackslashesAreSlashes | src/text2cli/db.py:1520-1529 | a backslash is a slash |
| CachedStore.FileKeysCollideExactly | src/text2cli/cache.py:182-196 | two workspaces' file keys can coincide for paths in final form if and only if one name with a colon begins the other with a colon and the rest can begin such a path |
| CachedStore.StateKeyDetermines | src/text2cli/cache.py:198-212 | state keys never coincide, whatever the names |
| CachedStore.CachedStepRefines | src/text2cli/cache.py:165-233 | one operation through a right cache replies and changes the tables as without a cache, and leaves the cache right |
| CachedStore.CacheIsInvisible | src/text2cli/cache.py:165-233 | over every serial run, with entries lost at any moment, replies and tables are those of the run without a cache, if no name looked up shadows another |
| CachedStore.SecondReadIsAHit | src/text2cli/cache.py:182-196 | a file just read is found in the cache the next time, however much later |
| CachedStore.SecondListIsAHit | src/text2cli/cache.py:198-212 | so is a listing or a tree |
| CachedStore.SecondBlobIsAHit | src/text2cli/cache.py:165-180 | and a blob's text, for a day |
| CachedStore.UnseparateNamesShow | src/text2cli/cache.py:182-196 | where one name shadows another, a read of a path in final form is answered with the other workspace's file |
| Lexer.QuotingInverts | src/text2cli/lang/tokens.py:257-296 | for every text, lexing its quoted form gives the text back and stops just past the closing quote, whatever follows |
| Lexer.LexString | src/text2cli/lang/tokens.py:257-296 | the loop over parts and buffer reads exactly that body, escapes and `$name` marks included |
| Lexer.SpellingInverts | src/text2cli/lang/tokens.py:93-255 | the spelling of any list of tokens lexes back to that list and the end |
| Lexer.Tokenize | src/text2cli/lang/tokens.py:88-255 | the loop makes exactly the tokens of the text, or fails |
| Layout.LayoutLexes | src/text2cli/lang/tokens.py:93-255 | space, and comments up to the ends of lines, change no token wherever they stand between tokens, and none is needed where tokens cannot run together |
| Layout.UnknownCharactersAreRefused | src/text2cli/lang/tokens.py:93-255 | a character that begins no token is refused wherever it stands between tokens |
| Layout.UnclosedStringsAreRefused | src/text2cli/lang/tokens.py:257-296 | so is a string literal that is not closed |
| Layout.PiecesRead | src/text2cli/lang/tokens.py:257-296 | what a string literal stands for, piece by piece: `$name` is a mark, an escape what it stands for, any other dollar sign or backslash itself |
| Layout.EscapedMarkIsReplaced | src/text2cli/lang/tokens.py:265-280 | a mark whose dollar sign is escaped is replaced all the same |
| Grammar.Statement | src/text2cli/lang/parser.py:62-89 | a statement that parses has used at least one token |
| Parser.Parser.Parse | src/text2cli/lang/parser.py:49-60 | the parser terminates, stays inside the tokens, and either fails or has read every token, with the result the grammar gives |
| Parser.Parser.ParseBlock | src/text2cli/lang/parser.py:54-60 | the loop reads statements up to the stop token, as the grammar says |
| Parser.Parser.ParseExpression | src/text2cli/lang/parser.py:177-178 | the ladder of methods reads what the grammar's ladder says |
| Parser.Parser.Addition | src/text2cli/lang/parser.py:204-210 | the loop takes sums and differences left to right |
| Parser.Parser.Compare | src/text2cli/lang/parser.py:196-202 | one comparison is taken, and no second one |
| Parser.Parser.ParsePrimary | src/text2cli/lang/parser.py:246-303 | literals, parentheses, variables, commands and calls, by their first token |
| Parser.Parser.ParseArgs | src/text2cli/lang/parser.py:359-402 | the loop reads arguments while a token begins one, negative numbers and flags included |
| Parser.Parser.ExtendPipeline | src/text2cli/lang/parser.py:404-419 | the loop reads commands while pipes follow |
| Parser.Parser.ParseListItems | src/text2cli/lang/parser.py:421-435 | the loop reads elements, newlines and a trailing comma |
| Parser.Parser.ParsePairs | src/text2cli/lang/parser.py:437-457 | the loop reads key-value pairs, newlines and a trailing comma |
| Inversion.ExpressionInverts | src/text2cli/lang/parser.py:177-303 | parsing the tokens of an expression gives back the expression, with the parentheses that the levels need and any others, and variables with a dollar sign or as bare names, chosen freely at each place |
| ProgramInversion.ProgramInverts | src/text2cli/lang/parser.py:49-176 | parsing the tokens of a whole program in any style gives back the program and leaves nothing |
| SourceInversion.SourceInverts | src/text2cli/lang/parser.py:460-463 | lexing and parsing the text of a program, in any style, gives back the program |
| ParsedTrees.ExpressionReads | src/text2cli/lang/parser.py:177-457 | every expression the parser makes of lexed tokens has proper names and can be printed |
| ParsedPrograms.ParsedProgramsAreSound | src/text2cli/lang/parser.py:460-463 | so can every program any text parses to |
| ParsedPrograms.FormattingKeepsTheProgram | src/text2cli/lang/parser.py:460-463 | for every text that parses, writing the program out in any style gives a text that parses to the same program |
| ParsedPrograms.ParsedExactlyThePrintable | src/text2cli/lang/parser.py:460-463 | a program is parsed from some text if and only if its names are names and it can be printed |
| ParsedPrograms.StylesAgree | src/text2cli/lang/parser.py:246-457 | dollar signs, needless parentheses, newlines, last commas and dashes chosen in any two ways give the same program |
| ParsedPrograms.BareNamesAreVariables | src/text2cli/lang/parser.py:313-330 | `x = y + z` is an assignment to a variable of a sum of variables, for any names |
| ParsedPrograms.ChainedComparisonIsRefused | src/text2cli/lang/parser.py:196-202 | no program that begins with a chained comparison is accepted |
| Conservation.NothingOfATextIsLost | src/text2cli/lang/parser.py:49-463 | of whatever text parses, the tokens that mean something are in order exactly those of the tree, parentheses are balanced, and no newline or dollar sign stands where it may not |
| Layout.LaidOutProgramsParse | src/text2cli/lang/parser.py:460-463 | however a program is laid out between its tokens, its text parses to it |
| ParsedPrograms.BareNameBeforeMinusIsACommand | src/text2cli/lang/parser.py:313-354 | `x - (...)` parses to a difference of a command without arguments, `$x - (...)` to one of the variable |
| Interpretation.Exec | src/text2cli/lang/interpreter.py:94-153 | a statement terminates on the measure of steps left, cannot succeed unless its tick did, and keeps the accounts of steps, catches and calls |
| Interpretation.Loop | src/text2cli/lang/interpreter.py:120-126 | so does a loop, though its body may grow the list it walks |
| Interpretation.ExecTry | src/text2cli/lang/interpreter.py:137-143 | so does a `try`, which catches the step limit like any script error |
| Interpretation.ExecImport | src/text2cli/lang/interpreter.py:159-172 | so does an import, which runs code found at run time |
| Interpretation.Eval | src/text2cli/lang/interpreter.py:197-259 | an expression does the same, and leaves the variables as they were whatever functions it calls |
| Interpretation.CallUser | src/text2cli/lang/interpreter.py:343-362 | a call restores the caller's variables and the call depth however its body ends |
| Budget.StepsAreBounded | src/text2cli/lang/interpreter.py:73-172 | every run takes at most `2 * limit + 1` steps, and its builtin calls and caught step-limit errors together are at most the steps within the limit |
| Budget.StepsPastTheLimit | src/text2cli/lang/interpreter.py:87-143 | the steps past the limit are exactly the step-limit errors raised, caught or in flight |
| Budget.WithoutTry | src/text2cli/lang/interpreter.py:87-143 | a program without `try` that can import none takes at most one step past the limit, and that exactly when the limit ends it; it catches nothing and calls no builtin past the limit |
| Budget.ReachedTryGoesPast | src/text2cli/lang/interpreter.py:87-143 | a program that comes to a `try` with a body at its top level goes two steps past the limit which that `try` just meets, or one if nothing follows the catch |
| Budget.LateCallsFollowACatch | src/text2cli/lang/interpreter.py:307-341 | in any program a builtin is called past the limit only after a step-limit error was caught |
| Budget.BoundIsReached | src/text2cli/lang/interpreter.py:137-143 | for every limit, nested tries take exactly `2 * limit + 1` steps |
| Budget.BuiltinPastTheLimit | src/text2cli/lang/interpreter.py:140-142 | a whole run with limit 5 defines a function that swallows the step limit and calls a builtin past the limit |
| Budget.GrowingLoopHitsTheLimit | src/text2cli/lang/interpreter.py:120-126 | a loop that appends to the list it walks is ended by the step limit and nothing else |
| Fuel.LargerBudgetChangesNothing | src/text2cli/lang/interpreter.py:87-92 | whether a program stays within `n` steps does not depend on the limit it runs with, and if it does, every larger limit gives the same run in every respect |
| Evaluation.ExpressionsMeanTheirMathematics | src/text2cli/lang/interpreter.py:197-297 | within the limit every expression over null, numbers, truth values, texts and variables of these evaluates to what it means, takes the steps it has to and changes nothing else |
| Conversions.ExpressionsAreComputed | src/text2cli/lang/interpreter.py:261-297 | so a program's variable ends with the meaning of its expression |
| Programs.FactorialIsComputed | src/text2cli/lang/interpreter.py:94-362 | for every `n` the recursive factorial ends with `n!` under every limit it stays within, which are exactly those of at least ten steps and eleven more for each number above one |
| Programs.DeepFactorialFails | src/text2cli/lang/interpreter.py:343-346 | where its calls are deeper than the call limit, it ends with that error |
| Programs.SumIsComputed | src/text2cli/lang/interpreter.py:120-126 | for every list a loop adds up its items, and stays within exactly the limits of four steps and six for each item |
| Programs.ClassIsComputed | src/text2cli/lang/interpreter.py:106-118 | for all integers an `if` with two `elif`s and an `else`, with `and`, `or` and `not` in its tests, takes the branch of the number's class |
| Conversions.ScalarsChoose | src/text2cli/lang/interpreter.py:481-492 | null, zero, false, the empty text and the text `false` choose the `else`, and every other such value the first block |
| Conversions.ListsChoose | src/text2cli/lang/interpreter.py:481-492 | a list chooses the first block unless it is empty |
| Conversions.MapsChoose | src/text2cli/lang/interpreter.py:481-492 | so does a map |
| Conversions.MarksAreReplaced | src/text2cli/lang/interpreter.py:366-371 | `${name}` in a text is replaced by the text of the variable, by nothing for null and by nothing where there is no such variable, and the rest stays |
| Marks.TextStaysExactly | src/text2cli/lang/interpreter.py:366-371 | without variables a text stays as it is exactly when it has no mark |
| Conversions.KeysAreOneByText | src/text2cli/lang/interpreter.py:174-193 | a map gives back what was stored under a key of the same text, whatever the kinds of the two keys, and null otherwise |
| Conversions.CharactersAreGiven | src/text2cli/lang/interpreter.py:222-230 | an index into a text gives the character at the place it means: cut off towards zero, from the end if negative, an error out of range |
| Behaviours.ItemIsGiven | src/text2cli/lang/interpreter.py:222-230 | an index into a list gives the item it means, and out of range an error that no `try` catches |
| Behaviours.FirstIsFound | src/text2cli/lang/interpreter.py:120-126 | a `return` in a loop leaves the loop and the function; a function that returns nothing gives null |
| Behaviours.FunctionsKeepTheirCallersVariables | src/text2cli/lang/interpreter.py:343-362 | a function sees its caller's variables, and what it does to variables ends with it |
| Behaviours.DivisionIsHandled | src/text2cli/lang/interpreter.py:137-143 | for all integers a division in a `try` gives the quotient, or for zero its message to the handler, and only what came before it was done |
| Behaviours.ImportedOnce | src/text2cli/lang/interpreter.py:159-172 | an import runs the file on the importer's own variables, and a second import of it does nothing |
| Collections.ListsAreShared | src/text2cli/lang/interpreter.py:174-193 | a list under two names is one list: what is stored and appended under one shows under the other |
| Collections.MapsRemember | src/text2cli/lang/interpreter.py:174-193 | a map gives what was last stored under a key, in its literal or later, and null for any other key |
| Collections.KeysAreWalked | src/text2cli/lang/interpreter.py:528-539 | a loop over a map goes over its keys, each once, in the order in which they were first given |
| Collections.LinesAreWalked | src/text2cli/lang/interpreter.py:528-539 | a loop over a text goes over its lines in order |
| Collections.ScalarsAreWalkedOnce | src/text2cli/lang/interpreter.py:528-539 | a loop over null has no turn, and one over a number has one |
| Commands.PipelinesPassOn | src/text2cli/lang/interpreter.py:301-329 | in a pipeline of any length each command is given what the one before it returned, and the last text is printed |
| Definitions.HeadsHandOnText | src/text2cli/lang/interpreter.py:301-316 | a call at the head of a pipeline hands on the text of what it returns |
| Commands.MissingArgumentsAreNull | src/text2cli/lang/interpreter.py:347-352 | arguments go to parameters in order, and a parameter without one is null |
| Commands.CallsPreferFunctions | src/text2cli/lang/interpreter.py:331-341 | in a call a script's function comes before a builtin of its name |
| Commands.CommandsPreferBuiltins | src/text2cli/lang/interpreter.py:307-329 | as a command a builtin comes before a script's function of its name |
| Commands.OperandsAreGiven | src/text2cli/lang/interpreter.py:261-267 | `or` gives its left operand if that is true and else its right one, and `and` the other way round |
| Commands.ReturnEndsTheScript | src/text2cli/lang/interpreter.py:73-85 | a `return` outside functions ends the script |
| Definitions.LaterDefinitionsCount | src/text2cli/lang/interpreter.py:128-130 | of two definitions of a function the later one counts |
| Definitions.InnerDefinitionsStay | src/text2cli/lang/interpreter.py:343-362 | a function defined in another one's body can be called after that one has returned |
| Definitions.FunctionsAreValues | src/text2cli/lang/interpreter.py:215-220 | a function's name, where no variable has it, is the function, which counts as true |
| Definitions.UtilitiesComeFirst | src/text2cli/lang/interpreter.py:331-341 | `append` is the utility even where a script defines a function of that name; it changes the list and returns it |
| Definitions.SettingIsStoring | src/text2cli/lang/interpreter.py:438-445 | `set` stores in a map what an assignment to an indexed place would |
| Definitions.AppendWantsAList | src/text2cli/lang/interpreter.py:429-436 | given too little, or no list, `append` fails with an error that a script can catch |
| Failures.LeftOperandComesFirst | src/text2cli/lang/interpreter.py:269-270 | of two operands that both fail the left one's error is raised |
| Failures.ValueComesBeforePlace | src/text2cli/lang/interpreter.py:174-193 | the value of an assignment is evaluated before its place |
| Failures.BuiltinErrors | src/text2cli/lang/interpreter.py:307-341 | a builtin's own error can be caught however it is used, any other error of it only where it is used as a command |
| Failures.FailedImportsCount | src/text2cli/lang/interpreter.py:159-172 | a file that cannot be read or parsed is an error once, with a message that says which, and counts as imported afterwards |
| Interpreter.Interpreter.ExecStmt | src/text2cli/lang/interpreter.py:94-153 | the method ends, returns or raises as the specification says, with the same context |
| Interpreter.Interpreter.ExecLoop | src/text2cli/lang/interpreter.py:120-126 | the loop over the live list is the specification's loop |
| Interpreter.Interpreter.ExecTryCatch | src/text2cli/lang/interpreter.py:137-143 | the method catches what the specification catches |
| Interpreter.Interpreter.ExecImportStmt | src/text2cli/lang/interpreter.py:159-172 | the method imports as the specification says |
| Interpreter.Interpreter.AssignTarget | src/text2cli/lang/interpreter.py:174-193 | the method assigns a variable or an indexed place, or raises, as the specification says |
| Interpreter.Interpreter.EvalExpr | src/text2cli/lang/interpreter.py:197-259 | the method evaluates as the specification says |
| Interpreter.Interpreter.EvalBinop | src/text2cli/lang/interpreter.py:261-297 | the method evaluates both operands, or as many as `and` and `or` need, as the specification says |
| Interpreter.Interpreter.ExecPipeline | src/text2cli/lang/interpreter.py:301-305 | the loop hands each command's result to the next |
| Interpreter.Interpreter.ExecCommand | src/text2cli/lang/interpreter.py:307-329 | the method runs a call, a builtin or a function, and wraps a builtin's foreign errors, as the specification says |
| Interpreter.Interpreter.CallFn | src/text2cli/lang/interpreter.py:331-341 | utilities come before functions and functions before builtins, as the specification says |
| Interpreter.Interpreter.CallUserFn | src/text2cli/lang/interpreter.py:343-362 | the method binds parameters, runs the body and restores, as the specification says |
| Interpreter.Interpreter.RunProgram | src/text2cli/lang/interpreter.py:73-85 | a run of the interpreter is the run of the specification, so all of the above holds of it |
| Conduct.BlockKept | src/text2cli/lang/interpreter.py:94-362 | from any context, a block does to the database only what the builtins' rule allows; free of `try`, it catches nothing and defines no function with one; calls past the limit follow a catch |
| Conduct.RunsKeepTheRule | src/text2cli/lang/interpreter.py:73-85 | a whole run does to the database only what keeps the rule that its builtins keep |
| Builtins.CommandsAreProper | src/text2cli/lang/builtins.py:395-509 | every builtin acts in the script's own workspace, and a write names the hash of what it writes |
| Builtins.WritersReadBack | src/text2cli/lang/builtins.py:404-427 | after `fs.write` the file reads as the content, after `fs.append` as the old content and the new one after it; both succeed exactly when the workspace exists |
| Builtins.WrittenIsWhatWasGiven | src/text2cli/lang/builtins.py:404-427 | `fs.write` and `fs.append` write their second argument, and what is piped in only where that is missing or empty |
| Builtins.ReaderGives | src/text2cli/lang/builtins.py:395-401 | `fs.read` gives a file's content exactly when there is such a file, and does nothing |
| Builtins.DeleterHides | src/text2cli/lang/builtins.py:429-435 | after `fs.delete` the file is not found; it succeeds in every existing workspace |
| Builtins.CommitTells | src/text2cli/lang/builtins.py:482-486 | `ws.commit` tells the new head, whose tree is what the workspace showed, or nothing if there was nothing to commit |
| Builtins.CommitsHaveAMessage | src/text2cli/lang/builtins.py:482-486 | without a message it has one, and succeeds exactly when a commit with that message is made or has nothing to do |
| Builtins.RollbackForgets | src/text2cli/lang/builtins.py:498-501 | after `ws.rollback` the workspace shows its head's tree; it tells how many rows were discarded |
| Builtins.SnapshotTells | src/text2cli/lang/builtins.py:504-509 | `ws.snapshot` names the head and tells it; it succeeds exactly under a new name that is not blank |
| Builtins.EmptyArgumentsAreRefused | src/text2cli/lang/builtins.py:395-509 | without a first argument those that need one fail with an error a script can catch, and do nothing |
| Scripts.ScriptsActInTheirWorkspace | src/text2cli/lang/__init__.py:22-48 | everything a script does to the database it does in its own workspace, whatever it calls, catches or imports |
| Scripts.ScriptsKeepToTheirWorkspace | src/text2cli/lang/__init__.py:22-48 | however a script ends, the store keeps its invariant and everything stored, blobs stay under their own hashes, and every other workspace reads, lists and shows what it did |
| Scripts.ScriptsKeepHistory | src/text2cli/lang/__init__.py:22-48 | what was committed before a script reads the same after it |
| Scripts.LargerBudgetsAgree | src/text2cli/lang/__init__.py:22-48 | a script that stays within its budget has the same result and the same effect on the store under every larger one |
| Scripts.PrintedProgramsRun | src/text2cli/lang/__init__.py:22-48 | running the text of a program is running the program |
| Scripts.FactorialScript | src/text2cli/lang/__init__.py:22-48 | the factorial of any number, written as text in any style and run as a script within limits it stays within, tells its caller `n!` |
| Scripts.ExecuteScript | src/text2cli/lang/__init__.py:22-48 | lexer, parser and interpreter together give the script's result and its effects on the store |

## Left out

- SQLite, SQL text, write-ahead logging and connections: each public method is one atomic step, and
  nothing is said about overlapping calls.
- `RedisCacheBackend`, statistics, `close`, locks, and the cache's catching of backend errors; the JSON
  round trip of cached values is taken to be the identity, and `cache=None` is the uncached step itself.
- Policy hooks beyond a flag that says whether a hook rejects a commit or a merge.
- SHA-256, commit ids and clocks: hashes, ids and the time are parameters of the operations.
- Trimming of workspace names, and normalising of paths inside the store's operations: both are given
  to them in final form. Builtins normalise the paths they are given, as `Paths.Normalize` does.
- Events, timestamps, `patch_file`, `diff_workspace`, `log_workspace`, the listings of workspaces,
  snapshots, hooks and events, `find_files`, `grep_files`, `exec_run`, and the text form of the tree:
  reports over the tables that would only add easy members.
- The error messages of the store and the parser, and the line and column of tokens.
- Letters and digits outside ASCII in the lexer.
- `DotExpr`, which the parser never makes.
- The table of `TreeBuilder` is keyed by the parts of a directory's path rather than by their joined
  text, and holds child lists rather than references to nodes; for normalised paths these are the same.
- The wall-clock limit of scripts, and Python's own recursion limit.
- Floats are real numbers. The texts of floats, lists, maps and functions, the comparison of lists and
  of maps, the lines of a text and the reading of numbers from texts are arbitrary given functions, as
  are the builtins that change nothing in the store and the utilities other than `append` and `set`,
  which may fail and change lists and maps.
- Letters and digits outside ASCII in the names of `${name}` marks.
- The cause that import and builtin errors quote in their text.
- Script lists and maps live in a heap that is a value of the interpreter object, so that aliasing is
  sharing of a place in it; the database a script works on is represented by the list of what the
  script has done to it.
- Budget.WithoutTry: the guard is not necessary for a program whose `try` is never reached, and whether
  one is reached only a run can tell; for a `try` at the top level that is reached it is
  (`Budget.ReachedTryGoesPast`), for one inside another statement that converse is not stated.
- Parser.Parser.Parse: the failures say where, by the number of tokens left, and not which tokens were
  expected.
- `workspace_fuse.py`, `code_executor.py`, the sandbox services, the agents, the web and command-line
  front ends: processes, mounts, sockets and thin wrappers.
