/**
 * The application state: the loaded rounds, kept once they were loaded
 * successfully, and the janitor that deletes cache files no loaded round
 * uses any more (`AppState::rounds`, `load_rounds`, `trash_old_cache`).
 */
module State {
  import opened Wrappers
  import FileCache
  import Rounds

  /** What connecting to the database and running the round query give. */
  datatype Database = ConnectFailed | Connected(query: Option<seq<Rounds.Row>>)

  // ---------------------------------------------------------------------------
  // The files the loaded rounds use

  /** The cache files of a list of test merges. */
  function MergeFiles(tms: seq<Rounds.TestMerge>): set<string>
    decreases |tms|
  {
    if tms == [] then {} else MergeFiles(tms[..|tms| - 1]) + {Rounds.CacheFilePath(tms[|tms| - 1])}
  }

  /** The cache files one round uses: its own, and one per test merge. */
  function RoundUsed(r: Rounds.Round): set<string>
  {
    {Rounds.RoundFile(r.roundId)} + MergeFiles(r.testMerges)
  }

  /** The `used_files` set the janitor builds. */
  function UsedFiles(rounds: seq<Rounds.Round>): set<string>
    decreases |rounds|
  {
    if rounds == [] then {} else UsedFiles(rounds[..|rounds| - 1]) + RoundUsed(rounds[|rounds| - 1])
  }

  lemma {:induction false} MergeFileOf(tms: seq<Rounds.TestMerge>, j: nat)
    requires j < |tms|
    ensures Rounds.CacheFilePath(tms[j]) in MergeFiles(tms)
    decreases |tms|
  {
    var n := |tms| - 1;
    if j < n {
      assert tms[..n][j] == tms[j];
      MergeFileOf(tms[..n], j);
    }
  }

  lemma {:induction false} MergeFileFrom(tms: seq<Rounds.TestMerge>, p: string) returns (j: nat)
    requires p in MergeFiles(tms)
    ensures j < |tms| && p == Rounds.CacheFilePath(tms[j])
    decreases |tms|
  {
    var n := |tms| - 1;
    if p in MergeFiles(tms[..n]) {
      j := MergeFileFrom(tms[..n], p);
      assert tms[..n][j] == tms[j];
    } else {
      j := n;
    }
  }

  /** A file belongs to a list of test merges exactly when it is the cache file of one of them. */
  lemma MergeFilesIff(tms: seq<Rounds.TestMerge>, p: string)
    ensures p in MergeFiles(tms) <==> exists j :: 0 <= j < |tms| && p == Rounds.CacheFilePath(tms[j])
  {
    if p in MergeFiles(tms) {
      var j := MergeFileFrom(tms, p);
    }
    if exists j :: 0 <= j < |tms| && p == Rounds.CacheFilePath(tms[j]) {
      var j :| 0 <= j < |tms| && p == Rounds.CacheFilePath(tms[j]);
      MergeFileOf(tms, j);
    }
  }

  lemma {:induction false} UsedFilesPrefix(rounds: seq<Rounds.Round>, k: nat)
    requires k <= |rounds|
    ensures UsedFiles(rounds[..k]) <= UsedFiles(rounds)
    decreases |rounds|
  {
    if k == |rounds| {
      assert rounds[..k] == rounds;
    } else {
      var n := |rounds| - 1;
      var earlier := UsedFiles(rounds[..n]);
      assert UsedFiles(rounds) == earlier + RoundUsed(rounds[n]);
      UsedFilesPrefix(rounds[..n], k);
      assert rounds[..n][..k] == rounds[..k];
      assert UsedFiles(rounds[..k]) <= earlier;
    }
  }

  lemma UsedFileOf(rounds: seq<Rounds.Round>, p: string, i: nat)
    requires i < |rounds| && p in RoundUsed(rounds[i])
    ensures p in UsedFiles(rounds)
  {
    UsedFilesPrefix(rounds, i + 1);
    var prefix := rounds[..i + 1];
    assert prefix[..i] == rounds[..i] && prefix[i] == rounds[i];
    assert RoundUsed(rounds[i]) <= UsedFiles(prefix);
  }

  lemma {:induction false} UsedFileFrom(rounds: seq<Rounds.Round>, p: string) returns (i: nat)
    requires p in UsedFiles(rounds)
    ensures i < |rounds| && p in RoundUsed(rounds[i])
    decreases |rounds|
  {
    var n := |rounds| - 1;
    if p in UsedFiles(rounds[..n]) {
      i := UsedFileFrom(rounds[..n], p);
      assert rounds[..n][i] == rounds[i];
    } else {
      i := n;
    }
  }

  /** A file is used exactly when it is the cache file of some round or of one of its test merges. */
  lemma UsedFilesIff(rounds: seq<Rounds.Round>, p: string)
    ensures p in UsedFiles(rounds) <==> exists i :: 0 <= i < |rounds| && p in RoundUsed(rounds[i])
  {
    if p in UsedFiles(rounds) {
      var i := UsedFileFrom(rounds, p);
    }
    if exists i :: 0 <= i < |rounds| && p in RoundUsed(rounds[i]) {
      var i :| 0 <= i < |rounds| && p in RoundUsed(rounds[i]);
      UsedFileOf(rounds, p, i);
    }
  }

  /** The nested loops of `trash_old_cache` that collect the used files. */
  method CollectUsedFiles(rounds: seq<Rounds.Round>) returns (used: set<string>)
    ensures used == UsedFiles(rounds)
  {
    used := {};
    for i := 0 to |rounds|
      invariant used == UsedFiles(rounds[..i])
    {
      var r := rounds[i];
      used := used + {Rounds.RoundFile(r.roundId)};
      for j := 0 to |r.testMerges|
        invariant used == UsedFiles(rounds[..i]) + {Rounds.RoundFile(r.roundId)} + MergeFiles(r.testMerges[..j])
      {
        used := used + {Rounds.CacheFilePath(r.testMerges[j])};
        assert r.testMerges[..j + 1][..j] == r.testMerges[..j];
      }
      assert r.testMerges[..|r.testMerges|] == r.testMerges;
      assert rounds[..i + 1][..i] == rounds[..i];
    }
    assert rounds[..|rounds|] == rounds;
  }

  // ---------------------------------------------------------------------------
  // The janitor

  /** The two cache directories the janitor clears, in order. */
  const TRASHED_DIRS: seq<string> := [Rounds.ROUND_DIR, Rounds.TEST_MERGE_DIR]

  /** A file is trashed when it is an entry of `dir`, unused, and its removal succeeds. */
  predicate Trashes(dir: string, used: set<string>, removeFails: set<string>, p: string)
  {
    Rounds.InDir(p, dir) && p !in used && p !in removeFails
  }

  /** The disk after clearing one directory of unused files. */
  function TrashedDir(files: map<string, string>, dir: string, used: set<string>, removeFails: set<string>)
    : map<string, string>
  {
    map p | p in files && !Trashes(dir, used, removeFails, p) :: files[p]
  }

  /** The disk after clearing every directory of `dirs`, first to last. */
  function Trashed(files: map<string, string>, dirs: seq<string>, used: set<string>, removeFails: set<string>)
    : map<string, string>
    decreases |dirs|
  {
    if dirs == [] then files
    else TrashedDir(Trashed(files, dirs[..|dirs| - 1], used, removeFails), dirs[|dirs| - 1], used, removeFails)
  }

  /**
   * What clearing a list of directories keeps: exactly the files that are not
   * an unused, removable entry of one of them, with their contents.
   */
  lemma {:induction false} TrashedIff(files: map<string, string>, dirs: seq<string>, used: set<string>,
                                      removeFails: set<string>, p: string)
    ensures p in Trashed(files, dirs, used, removeFails) <==>
              p in files && !exists k :: 0 <= k < |dirs| && Trashes(dirs[k], used, removeFails, p)
    ensures p in Trashed(files, dirs, used, removeFails) ==> Trashed(files, dirs, used, removeFails)[p] == files[p]
    decreases |dirs|
  {
    if dirs != [] {
      var n := |dirs| - 1;
      TrashedIff(files, dirs[..n], used, removeFails, p);
      assert forall k :: 0 <= k < n ==> dirs[..n][k] == dirs[k];
    }
  }

  /** One directory of the janitor: every entry that is not used is removed, a failed removal is ignored. */
  method TrashDir(disk: FileCache.Disk, dir: string, used: set<string>)
    modifies disk
    ensures disk.files == TrashedDir(old(disk.files), dir, used, disk.removeFails)
  {
    ghost var start := disk.files;
    var entries := set p | p in disk.files && Rounds.InDir(p, dir);
    ghost var all := entries;
    while entries != {}
      invariant entries <= all
      invariant forall p :: p in disk.files <==> p in start && !(p in all - entries && Trashes(dir, used, disk.removeFails, p))
      invariant forall p :: p in disk.files ==> disk.files[p] == start[p]
      decreases entries
    {
      var p :| p in entries;
      if p !in used {
        var _ := disk.Remove(p);
      }
      entries := entries - {p};
    }
    assert disk.files == TrashedDir(start, dir, used, disk.removeFails);
  }

  /** `trash_old_cache`: the cache directories keep only the files `rounds` use. */
  method TrashOldCache(disk: FileCache.Disk, rounds: seq<Rounds.Round>)
    modifies disk
    ensures disk.files == Trashed(old(disk.files), TRASHED_DIRS, UsedFiles(rounds), disk.removeFails)
  {
    var used := CollectUsedFiles(rounds);
    for k := 0 to |TRASHED_DIRS|
      invariant disk.files == Trashed(old(disk.files), TRASHED_DIRS[..k], used, disk.removeFails)
    {
      TrashDir(disk, TRASHED_DIRS[k], used);
      assert TRASHED_DIRS[..k + 1][..k] == TRASHED_DIRS[..k];
    }
    assert TRASHED_DIRS[..|TRASHED_DIRS|] == TRASHED_DIRS;
  }

  /** The janitor never touches a file in use, nor any file outside the two cache directories. */
  lemma TrashKeeps(files: map<string, string>, rounds: seq<Rounds.Round>, removeFails: set<string>, p: string)
    requires p in files
    requires p in UsedFiles(rounds) || (!Rounds.InDir(p, Rounds.ROUND_DIR) && !Rounds.InDir(p, Rounds.TEST_MERGE_DIR))
    ensures var after := Trashed(files, TRASHED_DIRS, UsedFiles(rounds), removeFails);
            p in after && after[p] == files[p]
  {
    TrashedIff(files, TRASHED_DIRS, UsedFiles(rounds), removeFails, p);
  }

  /** Every entry of a cache directory that no round uses is gone, unless removing it fails. */
  lemma TrashRemoves(files: map<string, string>, rounds: seq<Rounds.Round>, removeFails: set<string>, p: string)
    requires Rounds.InDir(p, Rounds.ROUND_DIR) || Rounds.InDir(p, Rounds.TEST_MERGE_DIR)
    requires p !in UsedFiles(rounds) && p !in removeFails
    ensures p !in Trashed(files, TRASHED_DIRS, UsedFiles(rounds), removeFails)
  {
    TrashedIff(files, TRASHED_DIRS, UsedFiles(rounds), removeFails, p);
    if Rounds.InDir(p, Rounds.ROUND_DIR) {
      assert Trashes(TRASHED_DIRS[0], UsedFiles(rounds), removeFails, p);
    } else {
      assert Trashes(TRASHED_DIRS[1], UsedFiles(rounds), removeFails, p);
    }
  }

  /** The cache file of each kept round, and of each of its test merges, is in use. */
  lemma RoundFileIsUsed(rounds: seq<Rounds.Round>, i: nat)
    requires i < |rounds|
    ensures Rounds.RoundFile(rounds[i].roundId) in UsedFiles(rounds)
    ensures forall j :: 0 <= j < |rounds[i].testMerges| ==> Rounds.CacheFilePath(rounds[i].testMerges[j]) in UsedFiles(rounds)
  {
    UsedFilesIff(rounds, Rounds.RoundFile(rounds[i].roundId));
    forall j | 0 <= j < |rounds[i].testMerges|
      ensures Rounds.CacheFilePath(rounds[i].testMerges[j]) in UsedFiles(rounds)
    {
      MergeFilesIff(rounds[i].testMerges, Rounds.CacheFilePath(rounds[i].testMerges[j]));
      UsedFilesIff(rounds, Rounds.CacheFilePath(rounds[i].testMerges[j]));
    }
  }

  /**
   * A successful `load_rounds_over_cloud` as a value, for the test merges the
   * reload found: the rounds it returns and the disk it leaves for the janitor.
   */
  function CloudLoad(rows: seq<Rounds.Row>, files: map<string, string>, createFails: set<string>,
                     writeFails: set<string>, codecs: Rounds.Codecs, net: Rounds.Network,
                     reloaded: map<string, Rounds.TestMerge>): (seq<Rounds.Round>, map<string, string>)
    requires net.tree.TreeListed? ==> Rounds.AllNamed(net.tree.paths)
  {
    var start := Rounds.GitTree(files, createFails, writeFails, codecs.tree, net.tree);
    var all := Rounds.LoadAll(rows, start.0, reloaded, start.1, createFails, writeFails, codecs, net);
    (Rounds.Successes(all.0), all.2)
  }

  // ---------------------------------------------------------------------------
  // The shared state

  class AppState {
    /** `None` until a load succeeds; never reset afterwards. */
    var rounds: Option<seq<Rounds.Round>>

    constructor ()
      ensures rounds == None
    {
      rounds := None;
    }

    /**
     * `rounds`: the loaded rounds if there are any; otherwise they are loaded
     * now, and kept only if the load succeeds.
     */
    method GetRounds(db: Database, net: Rounds.Network, disk: FileCache.Disk, codecs: Rounds.Codecs)
      returns (r: Result<seq<Rounds.Round>>, ghost reloaded: map<string, Rounds.TestMerge>)
      requires net.tree.TreeListed? ==> Rounds.AllNamed(net.tree.paths)
      modifies this, disk
      ensures old(rounds).Some? ==> r == Ok(old(rounds).value) && rounds == old(rounds) && disk.files == old(disk.files)
      ensures old(rounds).None? ==> (r.Ok? <==> db.Connected? && db.query.Some?)
      ensures old(rounds).None? ==> rounds == (if r.Ok? then Some(r.value) else None)
      ensures old(rounds).None? && db.ConnectFailed? ==> disk.files == old(disk.files)
      ensures old(rounds).None? && db.Connected? && db.query.None? ==>
                forall p :: Rounds.InDir(p, Rounds.ROUND_DIR) || Rounds.InDir(p, Rounds.TEST_MERGE_DIR) ==>
                  && (p in disk.files <==> p in old(disk.files))
                  && (p in disk.files ==> disk.files[p] == old(disk.files)[p])
      ensures old(rounds).None? && r.Ok? ==>
                forall p :: p in disk.files && (Rounds.InDir(p, Rounds.ROUND_DIR) || Rounds.InDir(p, Rounds.TEST_MERGE_DIR))
                  ==> p in UsedFiles(r.value) || p in disk.removeFails
      ensures Rounds.KeyedByCommit(reloaded)
      ensures old(rounds).None? ==>
                forall c :: c in reloaded ==> Rounds.CachedTestMerge(old(disk.files), codecs.testMerge, reloaded[c])
      ensures old(rounds).None? && db.Connected? ==> Rounds.HoldsEveryCachedCommit(old(disk.files), codecs.testMerge, reloaded)
      ensures old(rounds).None? && r.Ok? ==>
                var loaded := CloudLoad(db.query.value, old(disk.files), disk.createFails, disk.writeFails, codecs, net, reloaded);
                && r.value == loaded.0
                && disk.files == Trashed(loaded.1, TRASHED_DIRS, UsedFiles(r.value), disk.removeFails)
                && forall p :: p in loaded.1 && (p in UsedFiles(r.value) || (!Rounds.InDir(p, Rounds.ROUND_DIR) && !Rounds.InDir(p, Rounds.TEST_MERGE_DIR)))
                     ==> p in disk.files && disk.files[p] == loaded.1[p]
    {
      reloaded := map[];
      if rounds.Some? {
        return Ok(rounds.value), reloaded;
      }
      r, reloaded := LoadRounds(db, net, disk, codecs);
      if r.Ok? {
        rounds := Some(r.value);
      }
    }
  }

  /**
   * `load_rounds` without the mock-data file: connect, load over the cloud,
   * and on success trash the cache files the result does not use.
   */
  method LoadRounds(db: Database, net: Rounds.Network, disk: FileCache.Disk, codecs: Rounds.Codecs)
    returns (r: Result<seq<Rounds.Round>>, ghost reloaded: map<string, Rounds.TestMerge>)
    requires net.tree.TreeListed? ==> Rounds.AllNamed(net.tree.paths)
    modifies disk
    ensures r.Ok? <==> db.Connected? && db.query.Some?
    ensures db.ConnectFailed? ==> disk.files == old(disk.files)
    ensures db.Connected? && db.query.None? ==>
              forall p :: Rounds.InDir(p, Rounds.ROUND_DIR) || Rounds.InDir(p, Rounds.TEST_MERGE_DIR) ==>
                && (p in disk.files <==> p in old(disk.files))
                && (p in disk.files ==> disk.files[p] == old(disk.files)[p])
    ensures r.Ok? ==>
              forall p :: p in disk.files && (Rounds.InDir(p, Rounds.ROUND_DIR) || Rounds.InDir(p, Rounds.TEST_MERGE_DIR))
                ==> p in UsedFiles(r.value) || p in disk.removeFails
    ensures Rounds.KeyedByCommit(reloaded)
    ensures forall c :: c in reloaded ==> Rounds.CachedTestMerge(old(disk.files), codecs.testMerge, reloaded[c])
    ensures db.Connected? ==> Rounds.HoldsEveryCachedCommit(old(disk.files), codecs.testMerge, reloaded)
    ensures r.Ok? ==>
              var loaded := CloudLoad(db.query.value, old(disk.files), disk.createFails, disk.writeFails, codecs, net, reloaded);
              && r.value == loaded.0
              && disk.files == Trashed(loaded.1, TRASHED_DIRS, UsedFiles(r.value), disk.removeFails)
              && forall p :: p in loaded.1 && (p in UsedFiles(r.value) || (!Rounds.InDir(p, Rounds.ROUND_DIR) && !Rounds.InDir(p, Rounds.TEST_MERGE_DIR)))
                   ==> p in disk.files && disk.files[p] == loaded.1[p]
  {
    reloaded := map[];
    if db.ConnectFailed? {
      return Err("couldn't connect to database"), reloaded;
    }
    var loaded;
    ghost var outcomes;
    loaded, outcomes, reloaded := Rounds.LoadRoundsOverCloud(db.query, net, disk, codecs);
    if loaded.Err? {
      forall p | Rounds.InDir(p, Rounds.ROUND_DIR) || Rounds.InDir(p, Rounds.TEST_MERGE_DIR)
        ensures (p in disk.files <==> p in old(disk.files)) && (p in disk.files ==> disk.files[p] == old(disk.files)[p])
      {
        Rounds.GitTreeKeepsCacheDirs(old(disk.files), disk.createFails, disk.writeFails, codecs.tree, net.tree, p);
      }
      return Err("couldn't load rounds over cloud"), reloaded;
    }
    ghost var before := disk.files;
    TrashOldCache(disk, loaded.value);
    forall p | p in before && (p in UsedFiles(loaded.value) || (!Rounds.InDir(p, Rounds.ROUND_DIR) && !Rounds.InDir(p, Rounds.TEST_MERGE_DIR)))
      ensures p in disk.files && disk.files[p] == before[p]
    {
      TrashKeeps(before, loaded.value, disk.removeFails, p);
    }
    forall p | p in disk.files && (Rounds.InDir(p, Rounds.ROUND_DIR) || Rounds.InDir(p, Rounds.TEST_MERGE_DIR))
      ensures p in UsedFiles(loaded.value) || p in disk.removeFails
    {
      if p !in UsedFiles(loaded.value) && p !in disk.removeFails {
        TrashRemoves(before, loaded.value, disk.removeFails, p);
      }
    }
    r := loaded;
  }
}
