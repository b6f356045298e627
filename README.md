# moth-fans-runtimes, modelled in Dafny

moth-fans-runtimes collects the runtime errors ("runtimes") that tgstation game
servers log in each round. Its Rust backend does the following:

- reads the rounds of the last week from the game database;
- fetches each round's condensed runtime log;
- parses the log into `RuntimeBatch` records (count, exception, procedure path,
  source file, line, and a best guess at the file in the repository);
- attaches the round's test merges;
- caches rounds, test merges and the repository tree on disk;
- keeps the loaded rounds in memory, and after each load deletes cache files
  that no loaded round uses.

The TypeScript front end then works on those records:

- it groups batches by a runtime key and totals their counts (the runtime table);
- it filters rounds by server and search text;
- it collates similar batches within a round;
- for one runtime key, it gathers the rounds, counts and GitHub links
  (the runtime viewer).

This project models that core and proves its properties.

| file | models |
|---|---|
| `wrappers.dfy` | `Option` and `Result` |
| `text.dfy` | `u64::from_str`, decimal rendering, `String::contains`/`includes`, ASCII `toLowerCase`, `Path::file_name` |
| `servers.dfy` | the `SERVERS` table and `server_by_port` |
| `runtimes.dfy` | the log pattern as a line-based recogniser, `group_to_runtime_batch`, `patch_special_procs`/`patch_stack_trace`, `get_runtimes_for_round` |
| `file_cache.dfy` | `from_cache_or`, over a `Disk` class whose files are a map from path to contents |
| `rounds.dfy` | `deserialize_string_to_u64`, `dedup_by_key`, `cache_file_path`, the server name, `get_git_tree`, `test_merge_from_details`, `load_runtimes_from`, `load_round_from_row`, `RoundCollectionContext::reload` and `load_rounds_over_cloud` |
| `state.dfy` | `AppState::rounds`, `load_rounds` and `trash_old_cache` |
| `runtime_key.dfy` | `runtimeToKey` |
| `sorting.dfy` | a stable insertion sort by descending score: `Array.prototype.sort` with the comparators used |
| `runtime_table.dfy` | the aggregation loop and sort of `RuntimeTable` |
| `collation.dfy` | the per-round collation of `Main` |
| `main_view.dfy` | the server and search filters, the per-round view of `Main`, and `RuntimeChart` |
| `runtime_viewer.dfy` | `extractCodeFile`, `addFilename`, the matching loop and `sortedRounds` of `RuntimeViewer` |

Code that changes state in place is modelled with classes and methods:

- `FileCache.Disk` (the file system);
- `FileCache.Producer` (the callback, which counts its runs);
- `Rounds.RoundCollectionContext` (the repository tree and the test-merge map);
- `State.AppState` (the round slot);
- arrays for `dedup_by_key` and for the `iter_mut` enrichment.

Each loop is a method that is proved against a specification function. The
properties the source promises are lemmas about those functions.

The network, the database and the clock are inputs:

- `Rounds.Network` fixes the outcome of every HTTP request. These are the runtime
  logs by URL, each pull request's file list, and the repository tree.
- `State.Database` fixes whether connecting succeeds and which rows the round
  query returns.
- The timeframe filter is a predicate `recent` over rounds.

Three behaviours of the code that are easy to misread:

- `from_cache_or` propagates a failed write (`src/file_cache.rs:28-30`). It does
  not swallow it.
- `dedup_by_key` drops only adjacent repeats, so 5, 7, 5 is kept whole.
- The search compares the procedure path, which is not lower-cased, with the
  lower-cased search text (`public/js/components/Main.tsx:154`).

## Model

| member | source | states |
|---|---|---|
| Servers.Find | src/servers.rs:38-40 | `iter().find`: a found server is an entry of the table with that port; no entry has the port when none is found |
| Servers.ServerByPort | src/servers.rs:11-40 | a found server is a table entry with the requested port; the result is None exactly for ports outside {2337, 1337, 3336, 1447, 6337, 4447} |
| Servers.TableIsInjective | src/servers.rs:11-36 | the table's ports are pairwise distinct and so are its names |
| Servers.ServerByPortIsTheEntry | src/servers.rs:11-40 | looking up an entry's port gives that entry (2337 gives basil, 1337 gives sybil, …) |
| Text.ParseU64 | src/runtimes.rs:51-56 | `parse::<u64>`: the result is at most 2^64-1; on a non-empty digit string it succeeds exactly when the digits' value fits, and then it is that value |
| Text.ParseU64OfDecimal | src/runtimes.rs:76-81 | the decimal rendering of any n ≤ 2^64-1 parses back to n |
| Text.IntToDecimalInjective | src/rounds.rs:70 | distinct round ids render as distinct decimal strings, so they name distinct cache files |
| Text.ContainsIff | public/js/components/Main.tsx:152-154 | `includes`/`contains` holds exactly when the text occurs at some index |
| Text.FileNameIsComponent | src/runtimes.rs:42 | `Path::file_name`, when present, is an ordinary component: not "", "." or "..", and without '/' |
| Text.FileNameOfJoin | src/rounds.rs:264-269 | the file name of "dir/name", and of "name" alone, is name |
| Runtimes.ProcOpen | src/runtimes.rs:9 | the lazy `(?P<proc>.+?) \(` stops at the first " (" that opens a non-empty path, and at no earlier one |
| Runtimes.LineComma | src/runtimes.rs:10 | the lazy `(?P<source_file>.+?),` stops at the first ',' followed by a digit, and at no earlier one |
| Runtimes.SplitProcLine | src/runtimes.rs:9 | a split proc line is exactly "<proc> (<proc_path>)", with both parts non-empty |
| Runtimes.SplitSourceLine | src/runtimes.rs:10 | a split source line starts with "<source_file>,<digits>", with a non-empty file and a non-empty digit run |
| Runtimes.MatchBlock | src/runtimes.rs:7-10 | a matched four-line block captures a non-empty digit count and line, a non-empty exception and a non-empty procedure path |
| Runtimes.LastOpenParen | src/runtimes.rs:37 | the '(' found is one, at or after index 1, before the bound |
| Runtimes.LastOpenParenIsLast | src/runtimes.rs:37 | the greedy `.+\(` takes the last '(' before the file name; with none found, there is none |
| Runtimes.StackTraceSuffixShape | src/runtimes.rs:37-40 | what the suffix pattern finds is a non-empty file and a non-empty digit run that literally end the text as "(<file>:<digits>)" |
| Runtimes.StackTraceSuffixOf | src/runtimes.rs:37-39 | conversely, a text "<prefix>(<path>:<n>)" with no '(' in path yields exactly path and the digits of n |
| Runtimes.StackTraceSuffixOfDigits | src/runtimes.rs:37-39 | the same for any non-empty digit run |
| Runtimes.PatchAsWrittenPanicsOnDotDot | src/runtimes.rs:40-42 | the patch as written panics on the exception "x(..:7)": ".." has no file name |
| Runtimes.PatchStackTrace | src/runtimes.rs:36-47 | the patch keeps count, exception and procedure; with no suffix the batch is unchanged; with a suffix, the source file becomes the path's file name, the line becomes the digits and the guess becomes `Definitely(path)`; the source's panics become errors |
| Runtimes.PatchStackTraceAgrees | src/runtimes.rs:36-47 | the corrected patch fails exactly where the source panics, and agrees with it everywhere else |
| Runtimes.PatchSpecialProcs | src/runtimes.rs:30-34 | only `/proc/_stack_trace` is patched; any other batch is returned as is |
| Runtimes.StackTracePatched | src/runtimes.rs:36-47 | a stack-trace batch ending in "(<dir>/<name>:<n>)" becomes source file name, line n and `Definitely(<dir>/<name>)`, with count, exception and procedure kept |
| Runtimes.GroupToRuntimeBatch | src/runtimes.rs:50-95 | an unparsable count or line gives its error; on success the count is the parsed number and the exception and procedure path are copied verbatim; a non-stack-trace batch succeeds exactly when both numbers parse, keeps its source file verbatim, has the parsed line and no guess; a `/proc/_stack_trace` batch whose numbers parse is `PatchStackTrace` of the parsed batch, so its source file, line, guess and success are the patch's |
| Runtimes.CollectBatchesSpec | src/runtimes.rs:102-113 | collecting succeeds exactly when every block converts, giving one batch per block in order; otherwise it reports the first block that fails |
| Runtimes.CollectBatchesOk | src/runtimes.rs:102-113 | a successful collection has one batch per block, and each is that block's conversion |
| Runtimes.CollectBatchesErr | src/runtimes.rs:104-113 | a failed collection names a block that fails after blocks that all convert, with that block's error message |
| Runtimes.GetRuntimesForRoundSpec | src/runtimes.rs:97-114 | a parse has one batch per matched block, in order; a failure carries the error of a matched block |
| Runtimes.BlockErrorQuotesBlock | src/runtimes.rs:107-110 | every block error contains the full matched text of its block |
| Runtimes.ProcLineOfRendered | src/runtimes.rs:9 | "<proc> (<path>)" splits back into proc and path when proc has no " (" |
| Runtimes.SourceLineOfRendered | src/runtimes.rs:10 | "<file>,<digits>" splits back into file and digits when file has no ',' followed by a digit |
| Runtimes.MatchBlockOfRendered | src/runtimes.rs:7-10 | the four lines the game writes for a well-formed block match, with its fields as the captures |
| Runtimes.MatchesOfRendered | src/runtimes.rs:100-103 | a log of n well-formed blocks yields exactly n matches, in textual order |
| Runtimes.GroupOfExpected | src/runtimes.rs:50-95 | the captures of a block whose numbers fit in 64 bits convert to the batch it stands for |
| Runtimes.ParseOfRendered | src/runtimes.rs:97-114 | such a log, with 64-bit numbers and no `/proc/_stack_trace` block, parses to one batch per block, in order, with every field copied and no merging of identical blocks |
| FileCache.CachePathInjective | src/file_cache.rs:17 | distinct paths are cached in distinct files |
| FileCache.Disk.Write | src/file_cache.rs:28-30 | creating and writing succeeds unless the path cannot be created or written; the disk becomes `AfterWrite` |
| FileCache.Disk.Remove | src/state.rs:134-136 | removal succeeds exactly for an existing file whose removal does not fail, and then only that file is gone |
| FileCache.AfterWrite | src/file_cache.rs:28-30 | a write changes no other path, and the path exists afterwards unless creating it failed |
| FileCache.Look | src/file_cache.rs:19-20 | the lookup misses exactly when the cache file does not exist |
| FileCache.Producer.Run | src/file_cache.rs:26 | running the callback returns its result and counts one run |
| FileCache.Probe | src/file_cache.rs:17-24 | opening and decoding gives `Look` of the current disk and changes nothing |
| FileCache.Store | src/file_cache.rs:28-34 | the value is written to its cache file; a failed create or write is an error, otherwise the value is returned |
| FileCache.FromCacheOr | src/file_cache.rs:8-36 | result and disk are those of `Memoised`, and the callback runs once exactly on a miss |
| FileCache.HitNeverProduces | src/file_cache.rs:19-24 | on a hit the callback never runs, the disk is unchanged and the result is the decoded file, or an error when it does not decode |
| FileCache.ProducerErrorWritesNothing | src/file_cache.rs:26 | on a miss the callback's error is returned and nothing is written |
| FileCache.WriteErrorPropagates | src/file_cache.rs:28-30 | a computed value that cannot be stored gives an error |
| FileCache.OnlyTheCacheFileChanges | src/file_cache.rs:17-30 | no file other than the path's cache file changes |
| FileCache.StoredValueIsReused | src/file_cache.rs:19-34 | after a stored miss, the next call with that path returns the stored value without running its callback |
| FileCache.FailedWriteLeavesUndecodableFile | src/file_cache.rs:28-30 | a write that fails after creation leaves an empty file, so every later call is an error that does not run the callback |
| Rounds.DeserializeStringToU64Accepts | src/rounds.rs:441-463 | only u64 values are accepted: a string exactly when `u64::from_str` parses it, a number exactly when it is in range, nothing else |
| Rounds.StringAndNumberAgree | src/rounds.rs:453-458 | the decimal string of n and the number n decode to the same n |
| Rounds.NonNumericStringRejected | src/rounds.rs:457-458 | a string with a non-digit (other than a leading '+') is an error |
| Rounds.DecodeDetails | src/rounds.rs:72-74 | the list decodes exactly when every `number` does, keeping length and every field |
| Rounds.DedupDetails | src/rounds.rs:78 | the deduplicated details are `DedupAdjacent` of the input |
| Rounds.DedupByNumber | src/rounds.rs:78 | `dedup_by_key` in place: the kept prefix of the array is `DedupAdjacent` of its old contents |
| Rounds.KeepIfNew | src/rounds.rs:78 | one step of the dedup: the next element is kept exactly when its number differs from the last kept one |
| Rounds.DedupStep | src/rounds.rs:78 | extending the input by one element appends it to the result exactly when its number differs from its predecessor's |
| Rounds.DedupKeepsLastNumber | src/rounds.rs:78 | the last kept element has the number of the input's last element |
| Rounds.DedupHasNoAdjacentRepeats | src/rounds.rs:78 | the result has no two neighbours with the same number |
| Rounds.DedupDropsOnlyRepeats | src/rounds.rs:78 | exactly one element is dropped per adjacent repeat, and the result is a sub-multiset of the input |
| Rounds.DedupOfRepeatFree | src/rounds.rs:78 | a list without adjacent repeats is unchanged |
| Rounds.DedupIdempotent | src/rounds.rs:78 | deduplicating twice is deduplicating once |
| Rounds.DedupKeepsDistantRepeats | src/rounds.rs:78 | an illustration only, covered in general by `DedupStep` and `DedupHasNoAdjacentRepeats`: 5, 7, 5 is kept whole, and 5, 5, 7 loses its second 5 |
| Rounds.FilesChanged | src/rounds.rs:335-375 | no file list on a request error or time-out; an empty list when the body does not decode; otherwise the listed files in order |
| Rounds.CacheFilePathInjective | src/rounds.rs:424-429 | two test merges share a cache file only if they share number and commit |
| Rounds.FileNameInjective | src/rounds.rs:426 | "<number>_<commit>.json" determines number and commit |
| Rounds.RoundCacheFileIsRoundFile | src/rounds.rs:70 | the cache file of "rounds/<id>.json" is the file the janitor keeps for the round |
| Rounds.RoundFileInjective | src/rounds.rs:70 | two rounds share a cache file only if they share the id |
| Rounds.MergeFileIsNotRoundFile | src/rounds.rs:424-429 | a test-merge cache file is never a round cache file |
| Rounds.ServerName | src/rounds.rs:91-94 | the table's name for a known port, else "unknown server: <port>" |
| Rounds.GroupedIsByName | src/rounds.rs:261-272 | a name is a key exactly when some path has it, and its list is the paths with that name, in tree order |
| Rounds.PathInItsOwnList | src/rounds.rs:261-272 | each path is in the list of its own file name and in no other |
| Rounds.WithNameMembers | src/rounds.rs:264-271 | a path is listed under a name exactly when it is in the tree and has that file name |
| Rounds.GroupByFileName | src/rounds.rs:261-272 | the grouping loop builds `Grouped` of the tree |
| Rounds.FileUnderAt | src/rounds.rs:264-271 | one step of the grouping: only the list of the path's own file name changes, and the path is appended to it |
| Rounds.EnrichOnlyGuesses | src/rounds.rs:146-157 | enrichment changes only the guess; a `Definitely` batch is untouched; another batch gets `Possible(tree[source_file])` when the name is indexed, and is unchanged otherwise |
| Rounds.EnrichAll | src/rounds.rs:146-157 | every batch is enriched, in place and in order |
| Rounds.RuntimesFromSteps | src/rounds.rs:116-160 | an unknown port fails with "unknown server: <port>"; loading succeeds exactly when the log is fetched and parses, and then gives the enriched batches |
| Rounds.GitTree | src/rounds.rs:238-323 | a listed tree is the grouping of its paths; otherwise the disk is untouched, and without a decodable saved tree the index is empty; no file but the tree's cache file ever changes |
| Rounds.GitTreeKeepsCacheDirs | src/rounds.rs:238-323 | the tree step leaves every file of the round and test-merge cache directories as it was |
| Rounds.SavedTreeIsFallback | src/rounds.rs:274-306 | a tree that was fetched and saved is what a later run reads back when its fetch fails |
| Rounds.MergeLookup | src/rounds.rs:325-401 | a stored commit returns its test merge and changes nothing; otherwise the new test merge of these details and the fetched files is stored under the commit and written to its cache file |
| Rounds.MergeLookupMemoises | src/rounds.rs:329-331 | the result belongs to the requested commit, the map stays keyed by commit, and a second request for the commit is a hit that changes nothing |
| Rounds.MergesFrom | src/rounds.rs:80-83 | the loop over the details yields one test merge per deduplicated detail |
| Rounds.MergesFromByCommit | src/rounds.rs:80-83 | the map stays keyed by commit and never loses or replaces an entry, and the i-th collected test merge is the one the map holds for the i-th detail's commit |
| Rounds.MergesFromKeepsRoundFiles | src/rounds.rs:80-83 | collecting test merges leaves every round cache file as it was |
| Rounds.BuiltFields | src/rounds.rs:71-110 | the closure succeeds exactly when the details parse and the port and commit hash are present; the round then has the row's time, revision, server name, the runtimes when they load, and the map's test merge for each deduplicated detail's commit; details that do not parse change nothing |
| Rounds.BuiltKeepsRoundFiles | src/rounds.rs:71-110 | building a round leaves every round cache file as it was |
| Rounds.RoundFromRowHit | src/rounds.rs:68-70 | a row whose round is cached gets that file decoded (an error when it does not decode), and neither the map nor the disk changes |
| Rounds.RoundFromRowMiss | src/rounds.rs:64-113 | a row whose round is not cached loads exactly when its details parse, the port and the commit hash are present and the cache file can be written; the round then has the row's id, time, revision and server name, the runtimes when they load, and the map's test merge for each deduplicated detail's commit, and the cache file holds its encoding; details that do not parse change nothing |
| Rounds.RoundFromRowReused | src/rounds.rs:64-113 | loading a row again after its round was built and stored gives the same round and changes nothing, whatever the network now answers |
| Rounds.RoundFromRowKeepsOtherRoundFiles | src/rounds.rs:64-113 | loading a row touches no round cache file but its own |
| Rounds.LoadAll | src/rounds.rs:44-59 | the row loop yields one outcome per row |
| Rounds.LoadAllSnoc | src/rounds.rs:44-59 | one more row appends its outcome and continues from the map and disk the earlier rows left |
| Rounds.LoadAllOutcome | src/rounds.rs:44-59 | the outcome of row i is that row's load on the map and disk the rows before it left |
| Rounds.RowStepKeyed | src/rounds.rs:45-58 | loading a row keeps the test-merge map keyed by commit |
| Rounds.RowStepKeepsRoundFile | src/rounds.rs:45-58 | loading a row never changes or removes an existing round cache file |
| Rounds.RowStepKeepsAbsentRoundFile | src/rounds.rs:45-58 | loading a row creates no round cache file but its own |
| Rounds.LoadAllKeyed | src/rounds.rs:44-59 | the row loop keeps the test-merge map keyed by commit |
| Rounds.LoadAllKeepsRoundFile | src/rounds.rs:44-59 | the row loop never changes or removes a round cache file that existed before it |
| Rounds.LoadAllKeepsAbsentRoundFile | src/rounds.rs:44-59 | the row loop creates no cache file for a round that none of its rows names |
| Rounds.LoadAllCachedRound | src/rounds.rs:44-70 | a row whose round was cached before the loop gets that file decoded, or an error when it does not decode |
| Rounds.LoadAllFreshRound | src/rounds.rs:44-113 | the first row naming an uncached round loads exactly when its details parse, the port and the commit hash are present and the cache file can be written; the round then has the row's id, time, revision, server name and runtimes, and one test merge per deduplicated detail |
| Rounds.Successes | src/rounds.rs:53-58 | the kept rounds are no more than the outcomes |
| Rounds.SuccessPositions | src/rounds.rs:53-58 | the kept rounds are exactly the successful outcomes, in their order |
| Rounds.AllSuccessesKept | src/rounds.rs:53-58 | when every row loads, every round is kept, in order |
| Rounds.SuccessesSnoc | src/rounds.rs:53-58 | one more row adds its round exactly when it loads |
| Rounds.RoundCollectionContext.Reload | src/rounds.rs:175-235 | every stored test merge comes from a decodable cache file, every decodable cache file's commit is stored (`HoldsEveryCachedCommit`), and the tree is `GitTree` |
| Rounds.RoundCollectionContext.GetGitTree | src/rounds.rs:238-323 | the index and the disk afterwards are `GitTree` of the disk before |
| Rounds.RoundCollectionContext.TestMergeFromDetails | src/rounds.rs:325-401 | result, map and disk are `MergeLookup`, and the tree is unchanged |
| Rounds.RoundCollectionContext.LoadRuntimesFrom | src/rounds.rs:116-160 | the result is `RuntimesFrom` of the context's tree |
| Rounds.RoundCollectionContext.EnrichInPlace | src/rounds.rs:146-157 | the array afterwards is `EnrichAll` of its old contents |
| Rounds.RoundCollectionContext.CollectTestMerges | src/rounds.rs:80-83 | the test merges, the map and the disk afterwards are `MergesFrom` of the map and disk before, so each test merge is the map's entry for its detail's commit (`MergesFromByCommit`) |
| Rounds.RoundCollectionContext.BuildRound | src/rounds.rs:71-110 | the outcome, the map and the disk afterwards are `Built`: details that do not parse fail before anything changes, the test merges are collected before the port and commit hash are read, and the fields are those `RoundFromRowMiss` states |
| Rounds.RoundCollectionContext.LoadRoundFromRow | src/rounds.rs:64-113 | the outcome, the map and the disk afterwards are `RoundFromRow`: no id is an error, a cached round is decoded (`RoundFromRowHit`), and an uncached one is built and stored (`RoundFromRowMiss`) |
| Rounds.LoadRow | src/rounds.rs:45-58 | the outcome, the map and the disk afterwards are `RowStep`: a row with no id is skipped with nothing changed, any other is `RoundFromRow` |
| Rounds.LoadRows | src/rounds.rs:44-59 | the outcomes, the map and the disk afterwards are `LoadAll` of the rows, and the kept rounds are the successful outcomes in row order |
| Rounds.LoadRoundsOverCloud | src/rounds.rs:17-62 | the reloaded test merges come from decodable cache files and include the commit of every decodable test-merge cache file; the call fails only when the query does, and then only the tree's cache file may have changed; otherwise the outcomes and the disk are `LoadAll` of the rows, started from the reloaded test merges and the tree step's disk, and the result is the successful outcomes in row order |
| State.MergeFilesIff | src/state.rs:123-125 | a file is a test-merge file in use exactly when it is the cache file of one of the test merges |
| State.UsedFilesIff | src/state.rs:115-126 | a file is in use exactly when one round uses it |
| State.CollectUsedFiles | src/state.rs:115-126 | the loops build exactly `UsedFiles` |
| State.RoundFileIsUsed | src/state.rs:117-125 | each round's own cache file, and each of its test merges' files, are in use |
| State.TrashedIff | src/state.rs:128-140 | a file is kept exactly when it is not an unused, removable entry of a cleared directory, and keeps its contents |
| State.TrashDir | src/state.rs:129-138 | clearing one directory leaves the disk `TrashedDir` |
| State.TrashOldCache | src/state.rs:114-141 | the disk afterwards is the old one with both cache directories cleared of unused files |
| State.TrashKeeps | src/state.rs:128-140 | a used file, or one outside the two cache directories, is kept with its contents |
| State.TrashRemoves | src/state.rs:128-140 | an unused entry of a cache directory whose removal does not fail is gone |
| State.AppState.constructor | src/state.rs:21-26 | the slot starts empty |
| State.AppState.GetRounds | src/state.rs:49-69 | a filled slot is returned without loading or touching the disk; an empty slot is loaded, with a connected load reloading every decodable cached test merge, and filled exactly when the load succeeds, with the rounds and disk `LoadRounds` states; a failure leaves it empty and, when the query failed, every round and test-merge cache file as it was |
| State.LoadRounds | src/state.rs:72-112 | the load succeeds exactly when connecting and the query do; a failed connection changes nothing; once connected, the reloaded test merges come from decodable cache files and include the commit of every decodable test-merge cache file; a failed query leaves every round and test-merge cache file as it was; after a success the rounds are `CloudLoad`'s, the successful outcomes of `LoadAll` over the rows, the disk is the janitor's `Trashed` of the disk the load left, every file those rounds use and every file outside the two cache directories keeps its content, and every cache file left is in use or could not be removed |
| RuntimeKey.KeyLayout | public/js/runtimeToKey.ts:4-6 | the key is the exception, then "_______", then the procedure path, so its length is the exception's length plus 7 plus the path's length |
| RuntimeKey.KeyIgnoresOtherFields | public/js/runtimeToKey.ts:4-6 | batches with equal exception and procedure path have equal keys |
| RuntimeKey.KeyCanCollide | public/js/runtimeToKey.ts:5 | two batches with different fields can share a key |
| RuntimeKey.KeyInjectiveWithoutSeparator | public/js/runtimeToKey.ts:5 | when neither exception contains '_', equal keys mean equal exceptions and equal paths |
| Sorting.Insert | public/js/components/RuntimeTable.tsx:111-113 | insertion adds exactly the element |
| Sorting.InsertKeepsOrder | public/js/components/RuntimeTable.tsx:111-113 | inserting into a list sorted by descending score keeps it sorted |
| Sorting.SortDescCorrect | public/js/components/RuntimeTable.tsx:111-113 | the sort is a permutation of its input, in non-increasing score order |
| RuntimeTable.EntriesIff | public/js/components/RuntimeTable.tsx:88-93 | the walked batches are exactly those of rounds with runtimes, each with its round's id |
| RuntimeTable.AbsentRuntimesContributeNothing | public/js/components/RuntimeTable.tsx:88-91 | a round without runtimes adds nothing |
| RuntimeTable.AppendOne | public/js/components/RuntimeTable.tsx:93-107 | one more walked batch adds its key, is listed exactly when its key is new, adds its round to its key's set, and adds its count to its key's total only |
| RuntimeTable.KeysIff | public/js/components/RuntimeTable.tsx:94-101 | a key is known exactly when some walked batch has it |
| RuntimeTable.FirstPerKeyDistinct | public/js/components/RuntimeTable.tsx:96-101 | the listed runtimes have pairwise distinct keys |
| RuntimeTable.FirstPerKeyCovers | public/js/components/RuntimeTable.tsx:96-101 | every key of a walked batch has a listed runtime with that key |
| RuntimeTable.FirstPerKeyIsFirst | public/js/components/RuntimeTable.tsx:96-101 | each listed runtime is the first walked batch with its key |
| RuntimeTable.RoundSetIff | public/js/components/RuntimeTable.tsx:96-100 | a round id is in a key's set exactly when that round has a batch with the key |
| RuntimeTable.TotalAppend | public/js/components/RuntimeTable.tsx:103-107 | the total of a key over two runs of batches is the sum of the totals |
| RuntimeTable.TotalOfAbsentKey | public/js/components/RuntimeTable.tsx:103-107 | a key that no batch has totals 0 |
| RuntimeTable.TotalOfOne | public/js/components/RuntimeTable.tsx:103-107 | a single batch totals its own count under its key |
| RuntimeTable.RoundCountsStep | public/js/components/RuntimeTable.tsx:96-100 | one batch adds its round to its key's set, creating the set when missing |
| RuntimeTable.RuntimeCountsStep | public/js/components/RuntimeTable.tsx:103-107 | one batch adds its count to its key's total, and a missing or zero total becomes the count |
| RuntimeTable.AddBatch | public/js/components/RuntimeTable.tsx:93-108 | the body of the inner loop keeps the three records equal to the summary of the batches walked so far |
| RuntimeTable.AddRound | public/js/components/RuntimeTable.tsx:88-109 | a round with runtimes extends the summary by all its batches, in order |
| RuntimeTable.Aggregate | public/js/components/RuntimeTable.tsx:80-109 | the runtimes are the first batch per key; the keys of both records are exactly the walked keys; each round set and each total is that of its key |
| RuntimeTable.Table | public/js/components/RuntimeTable.tsx:80-113 | the same records, and the runtimes are a permutation of the first batch per key in non-increasing order of total |
| Collation.CollatedKeys | public/js/components/Main.tsx:166-196 | a collated round has one batch per collation key, with pairwise distinct keys, in first-occurrence order |
| Collation.CollatedBatch | public/js/components/Main.tsx:176-195 | each collated batch is the first batch with its key among all rounds so far, with the round's total count for that key |
| Collation.FirstKeysAreKeys | public/js/components/Main.tsx:173 | the keys met, in first-occurrence order, are exactly the round's keys, each once |
| Collation.CollationKeepsTotal | public/js/components/Main.tsx:176-195 | collation keeps the round's summed count |
| Collation.CollateRound | public/js/components/Main.tsx:167-197 | the collation loop builds `Collated` and leaves `collatedRuntimes` as the first batch per key of all rounds so far |
| Collation.CollateOne | public/js/components/Main.tsx:173-195 | one batch of the loop keeps the collation state |
| Collation.RepeatedKeyStep | public/js/components/Main.tsx:177-180 | a key already met this round adds the count to its merged batch |
| Collation.EarlierKeyStep | public/js/components/Main.tsx:181-188 | a key met only in an earlier round appends a copy of the shared batch with this count |
| Collation.NewKeyStep | public/js/components/Main.tsx:190-195 | a new key appends the batch and shares it |
| Collation.CollatedExisting | public/js/components/Main.tsx:179-180 | a batch whose key this round already met adds its count to that key's collated batch and changes nothing else |
| Collation.CollatedNew | public/js/components/Main.tsx:182-195 | a batch with a key new to this round appends one collated batch: the first batch with that key among all rounds so far, carrying this batch's count |
| MainView.PassingIff | public/js/components/Main.tsx:127-143 | a round is kept exactly when it is an input round that passes the server filter and the timeframe |
| MainView.PassingAppend | public/js/components/Main.tsx:127-143 | the filter works round by round, in order |
| MainView.PassingAll | public/js/components/Main.tsx:128-130 | with "all" and every round recent, all rounds pass |
| MainView.MatchingIff | public/js/components/Main.tsx:150-157 | a batch survives the search exactly when it is there and matches |
| MainView.MatchingAppend | public/js/components/Main.tsx:150-157 | the search works batch by batch, in order |
| MainView.ProcPathSearchIsCaseSensitive | public/js/components/Main.tsx:154 | a procedure path "/Foo" is not found by the search "Foo" |
| MainView.SearchRuntimes | public/js/components/Main.tsx:148-158 | the loop collects `Matching` |
| MainView.FilteredRounds | public/js/components/Main.tsx:126-207 | the result is `View` of the passing rounds |
| MainView.ViewStep | public/js/components/Main.tsx:144-207 | the `map` over passing rounds extends the view by the next round shown after the batches seen so far |
| MainView.ShowRound | public/js/components/Main.tsx:144-206 | one round is shown as `ViewRound`, and the shared record grows by its batches |
| MainView.ViewKeepsRoundFields | public/js/components/Main.tsx:160-163 | one shown round per passing round, differing only in its runtimes |
| MainView.ViewIsIdentityWhenIdle | public/js/components/Main.tsx:145-206 | with no search and no collation the rounds are shown as they are |
| MainView.SearchedViewIff | public/js/components/Main.tsx:147-163 | with a search, a shown round has runtimes, and a batch is shown exactly when the round had it and it matches |
| MainView.SearchIgnoresCase | public/js/components/Main.tsx:118-157 | two searches with the same lower case show the same batches |
| MainView.CollatedViewKeepsTotals | public/js/components/Main.tsx:166-203 | with collation, a shown round has runtimes and keeps its searched total count |
| MainView.ChartData | public/js/components/Main.tsx:66-79 | one label and one data point per round with runtimes, carrying its id, server and summed count |
| MainView.BarsIff | public/js/components/Main.tsx:66-79 | a bar exists exactly for a round with runtimes, with that round's id, server and total |
| MainView.BarsOfPresent | public/js/components/Main.tsx:66-79 | when every round has runtimes there is one bar per round, in order |
| MainView.CollatedViewBarsEveryRound | public/js/components/Main.tsx:166-204 | with collation on, every shown round has runtimes and so a bar (`RuntimeChart`, lines 66-79), as high as its searched total |
| RuntimeViewer.NoMarkerNoChange | public/js/components/RuntimeViewer.tsx:6-11 | a text without "tgstation/tree/" is returned as is |
| RuntimeViewer.NoMatchFrom | public/js/components/RuntimeViewer.tsx:6-11 | when the marker occurs nowhere in the text, no match is found from any index |
| RuntimeViewer.ExtractOfUrl | public/js/components/RuntimeViewer.tsx:6-31 | the code file of a link built by `addFilename` is the file with its line anchor |
| RuntimeViewer.AddFilename | public/js/components/RuntimeViewer.tsx:23-31 | one link at the revision and one at master are added |
| RuntimeViewer.AddGuesses | public/js/components/RuntimeViewer.tsx:50-64 | a guess adds the links of its files: one for `Definitely`, one per entry for `Possible`, none when absent |
| RuntimeViewer.GatherRound | public/js/components/RuntimeViewer.tsx:41-65 | one round updates the heading, the found rounds and both link sets by its matching batches |
| RuntimeViewer.GatherRuntime | public/js/components/RuntimeViewer.tsx:33-66 | the loops give `ExceptionAfter`, `FoundRounds` and `Urls` at the revisions and at master |
| RuntimeViewer.LastHitSpec | public/js/components/RuntimeViewer.tsx:41-48 | no batch matches exactly when there is no last hit; a last hit is a matching batch after which none matches |
| RuntimeViewer.ExceptionWhenNotFound | public/js/components/RuntimeViewer.tsx:33 | with no match the heading is "Couldn't find runtime" |
| RuntimeViewer.ExceptionWhenFound | public/js/components/RuntimeViewer.tsx:46 | otherwise it is the exception of the last match of the last round that has one |
| RuntimeViewer.FoundRoundsBelow | public/js/components/RuntimeViewer.tsx:48 | every found round's index is below the number of input rounds |
| RuntimeViewer.FoundRoundsOrdered | public/js/components/RuntimeViewer.tsx:48 | found rounds appear in input order, each once |
| RuntimeViewer.FoundRoundsEntries | public/js/components/RuntimeViewer.tsx:36-48 | each found round has a match, and its count is that of its last matching batch |
| RuntimeViewer.FoundRoundsCover | public/js/components/RuntimeViewer.tsx:36-48 | every round with a match is found |
| RuntimeViewer.MapSetOfNew | public/js/components/RuntimeViewer.tsx:48 | setting a round not yet in the map appends it |
| RuntimeViewer.MapSetOfLast | public/js/components/RuntimeViewer.tsx:48 | setting the last-added round again replaces its count in place |
| RuntimeViewer.FileUrlsIff | public/js/components/RuntimeViewer.tsx:23-31 | a link is added for files exactly when it is the link of one of them |
| RuntimeViewer.BatchUrlsIff | public/js/components/RuntimeViewer.tsx:50-64 | a round's links are exactly those of the guessed files of its matching batches |
| RuntimeViewer.UrlsIff | public/js/components/RuntimeViewer.tsx:36-64 | a link is gathered exactly when some round with runtimes contributes it |
| RuntimeViewer.SortedRoundsSpec | public/js/components/RuntimeViewer.tsx:68-72 | the sorted rounds are a permutation of the found rounds in non-increasing count order, each round once |
| RuntimeViewer.AtMostOnce | public/js/components/RuntimeViewer.tsx:68-72 | in a list of found rounds with strictly increasing indices, each entry occurs at most once |

## Left out

- The MySQL connection and query: rows and the schema-revision query are inputs. `current_db_revision` is not modelled.
- HTTP requests, the user agent, `error_for_status` and the 8-second time-out: each request's outcome is part of the `Network` input.
- `serde_json`: encoding and decoding are a `Codec` pair of functions. `Sound` requires that decoding an encoding gives the value back and that an empty file does not decode.
- Error texts: the model keeps which call fails and what the runtime-block error quotes, not the `eyre` context chain.
- `fs::create_dir_all`: its failure is a panic in the source and is not modelled. Each directory is assumed to exist.
- Directory listings: they are the files under the directory's prefix. Subdirectories, `flatten` of unreadable entries and a `read_dir` that fails are not modelled.
- The `regex` crate: the runtime pattern is a recogniser over four consecutive lines, each starting with its marker. A match that starts in the middle of a line is not recognised. `captures_iter` skips the four lines of a match and otherwise moves on one line.
- Opening and writing cache files: a file on the disk always opens, so an open that fails for a reason other than absence (permissions, say), which `from_cache_or` treats as a miss, is not modelled. A write that fails part-way through leaves the file empty in the model, not partly written; either way it does not decode.
- `to_string_lossy`: paths are strings, so invalid UTF-8 is not modelled.
- `RwLock` and its race: `AppState::rounds` is a sequential method, so two concurrent first readers are not modelled.
- The mock-data file of `load_rounds` (`src/state.rs:73-107`): configuration-driven file I/O. The janitor runs only after a cloud load, as modelled.
- Tracing and logging: these are side effects.
- `NaiveDateTime`: a round's time is a date plus second of day, used only to build the log URL. The front end's timeframe filter is the `recent` predicate, because it is float date arithmetic. `dateOfLastRound` reads `rounds[rounds.length - 1]`, which throws on an empty list; that case is not modelled.
- Counts are unbounded naturals in the front end. JavaScript numbers are floats, and a float sum that loses precision is not modelled.
- `toLowerCase` is modelled for ASCII letters only.
- `Array.prototype.sort` and the in-place `runtimes.sort`: the sort is modelled on values by a stable insertion sort with the same comparator.
- `foundRounds` is a `Map` keyed by object identity. The model keys it by the round's position in the input, so two equal round values in different positions stay distinct, as two objects would.
- Aliasing between `collatedRuntimes` and the shown batches is modelled on values. A merged batch's count grows only in this round's copy (`multipleThisRound`). The shared record keeps the first batch, whose non-count fields are all that is read back.
- A `RuntimeBatch` is patched in place through `&mut self`. It is owned and never aliased, so the model updates it as a value.
- `SERVER_COLORS`, JSX rendering, routing, `percent`/`toFixed`/`toLocaleString`, `App.tsx`, `Loading.tsx`, `main.rs`, `config.rs` and `routes/data.rs` are not part of this model.
- The test-merge cache directory is read in an order the file system chooses. When two files hold the same commit, which one wins is left open.
- Rounds.LoadAllFreshRound: states the round of the first row that names an id. A later row with the same id reads the file the first one wrote, which `RoundFromRowReused` states for one row and is not restated for the whole list.
- Rounds.Grouped: a path without a file name is passed over. The source's `unwrap` would panic there, so the loop `GroupByFileName` requires every path to have a name.
- Runtimes.PatchStackTrace: the source also panics when the line digits exceed 2^64-1. That case is an error in the corrected patch, but no lemma exhibits it.

## Findings

| source | as written | input that shows it | evidently intended | confidence | as-written member | corrected member |
|---|---|---|---|---|---|---|
| src/runtimes.rs:40-45 | `patch_stack_trace` unwraps `file_name()` of the captured path and the parse of the captured line | a `/proc/_stack_trace` batch whose exception is "x(..:7)": the path ".." has no file name, so the `unwrap` panics while parsing a whole round (a line above 2^64-1 panics the same way) | a malformed suffix fails the block, like the other capture errors of `group_to_runtime_batch`, so that `get_runtimes_for_round` returns an error | not executed | Runtimes.PatchAsWrittenPanicsOnDotDot | Runtimes.PatchStackTrace |
