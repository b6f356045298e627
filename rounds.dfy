/**
 * Round assembly: database rows become `Round` records, each with its test
 * merges (deduplicated, looked up in a commit-keyed cache or fetched) and its
 * runtimes (fetched, parsed and enriched with file-name guesses from the
 * repository tree).  The network is an input: the outcome of every request
 * is fixed in a `Network` value.
 */
module Rounds {
  import opened Wrappers
  import opened Text
  import opened Runtimes
  import Servers
  import FileCache

  type RoundId = int

  datatype TestMergeDetails = TestMergeDetails(number: nat, title: string, author: string, commit: string)

  datatype TestMerge = TestMerge(details: TestMergeDetails, filesChanged: Option<seq<Path>>)

  /** The round's start; only the date enters the model (it names the log directory). */
  datatype Timestamp = Timestamp(year: int, month: nat, day: nat, secondOfDay: nat)

  datatype Round = Round(
    roundId: RoundId,
    timestamp: Timestamp,
    revision: string,
    server: string,
    runtimes: Option<seq<RuntimeBatch>>,
    testMerges: seq<TestMerge>)

  // ---------------------------------------------------------------------------
  // `number`: a JSON string or a JSON number

  /** A JSON value in the `number` position of a test-merge record. */
  datatype JsonValue = JNumber(n: int) | JString(s: string) | JOther

  /**
   * `deserialize_string_to_u64`: a non-negative JSON integer that fits in 64
   * bits is taken as is, a JSON string is parsed with `u64::from_str`; a
   * negative or too large number, a fraction and any other JSON value are errors.
   */
  function DeserializeStringToU64(v: JsonValue): Result<nat>
  {
    match v
    case JNumber(n) => if 0 <= n <= U64_MAX then Ok(n as nat) else Err("invalid type: expected a string or number")
    case JString(s) =>
      (match ParseU64(s)
       case Some(n) => Ok(n)
       case None => Err("invalid digit found in string"))
    case JOther => Err("invalid type: expected a string or number")
  }

  /**
   * Only a u64 is accepted: a number within range, or a string `u64::from_str`
   * accepts; anything else (a list, an object, a float) is an error.
   */
  lemma DeserializeStringToU64Accepts(v: JsonValue)
    ensures DeserializeStringToU64(v).Ok? ==> DeserializeStringToU64(v).value <= U64_MAX
    ensures v.JString? ==> (DeserializeStringToU64(v).Ok? <==> ParseU64(v.s).Some?)
    ensures v.JNumber? ==> (DeserializeStringToU64(v).Ok? <==> 0 <= v.n <= U64_MAX)
    ensures v.JOther? ==> DeserializeStringToU64(v).Err?
  {
  }

  /** A number and its decimal string decode to the same u64. */
  lemma StringAndNumberAgree(n: nat)
    requires n <= U64_MAX
    ensures DeserializeStringToU64(JString(NatToDecimal(n))) == DeserializeStringToU64(JNumber(n)) == Ok(n)
  {
    ParseU64OfDecimal(n);
  }

  /** A string holding a character that is neither a digit nor a leading '+' is rejected. */
  lemma NonNumericStringRejected(s: string, i: nat)
    requires i < |s| && !IsDigit(s[i]) && !(i == 0 && s[i] == '+')
    ensures DeserializeStringToU64(JString(s)).Err?
  {
    var d := if |s| > 0 && s[0] == '+' then s[1..] else s;
    if s[0] == '+' {
      assert d[i - 1] == s[i];
    } else {
      assert d[i] == s[i];
    }
  }

  /** A test-merge record as stored in the `testmerged_prs` feedback JSON. */
  datatype RawDetails = RawDetails(number: JsonValue, title: string, author: string, commit: string)

  /** The `test_merges` column: text that is not a JSON list of records, or such a list. */
  datatype TestMergesColumn = Malformed | Records(records: seq<RawDetails>)

  /** Decodes every record; the first record whose `number` fails to decode fails the list. */
  function DecodeDetails(raws: seq<RawDetails>): (r: Result<seq<TestMergeDetails>>)
    ensures r.Ok? <==> forall i :: 0 <= i < |raws| ==> DeserializeStringToU64(raws[i].number).Ok?
    ensures r.Ok? ==> |r.value| == |raws|
    ensures r.Ok? ==> forall i :: 0 <= i < |raws| ==>
      r.value[i] == TestMergeDetails(DeserializeStringToU64(raws[i].number).value, raws[i].title, raws[i].author, raws[i].commit)
    decreases |raws|
  {
    if raws == [] then Ok([])
    else
      match (DeserializeStringToU64(raws[0].number), DecodeDetails(raws[1..]))
      case (Ok(n), Ok(rest)) => Ok([TestMergeDetails(n, raws[0].title, raws[0].author, raws[0].commit)] + rest)
      case (Err(e), _) => Err(e)
      case (_, Err(e)) => Err(e)
  }

  // ---------------------------------------------------------------------------
  // `dedup_by_key(|test_merge| test_merge.number)`

  /** The details with every record dropped whose number equals its predecessor's. */
  function DedupAdjacent(ds: seq<TestMergeDetails>): seq<TestMergeDetails>
    decreases |ds|
  {
    if |ds| <= 1 then ds
    else if ds[|ds| - 1].number == ds[|ds| - 2].number then DedupAdjacent(ds[..|ds| - 1])
    else DedupAdjacent(ds[..|ds| - 1]) + [ds[|ds| - 1]]
  }

  /** How many records repeat the number of the record just before them. */
  function AdjacentRepeats(ds: seq<TestMergeDetails>): nat
    decreases |ds|
  {
    if |ds| <= 1 then 0
    else AdjacentRepeats(ds[..|ds| - 1]) + (if ds[|ds| - 1].number == ds[|ds| - 2].number then 1 else 0)
  }

  predicate NoAdjacentRepeats(ds: seq<TestMergeDetails>)
  {
    forall i :: 0 < i < |ds| ==> ds[i].number != ds[i - 1].number
  }

  /** The last kept record has the number of the last record. */
  lemma {:induction false} DedupKeepsLastNumber(ds: seq<TestMergeDetails>)
    requires ds != []
    ensures DedupAdjacent(ds) != []
    ensures DedupAdjacent(ds)[|DedupAdjacent(ds)| - 1].number == ds[|ds| - 1].number
    decreases |ds|
  {
    if |ds| > 1 && ds[|ds| - 1].number == ds[|ds| - 2].number {
      DedupKeepsLastNumber(ds[..|ds| - 1]);
    }
  }

  /** Dedup leaves no two neighbours with the same number. */
  lemma {:induction false} DedupHasNoAdjacentRepeats(ds: seq<TestMergeDetails>)
    ensures NoAdjacentRepeats(DedupAdjacent(ds))
    decreases |ds|
  {
    if |ds| > 1 {
      var init := ds[..|ds| - 1];
      DedupHasNoAdjacentRepeats(init);
      if ds[|ds| - 1].number != ds[|ds| - 2].number {
        DedupKeepsLastNumber(init);
      }
    }
  }

  /** Dedup drops exactly one record per adjacent repeat, and only records of the input. */
  lemma {:induction false} DedupDropsOnlyRepeats(ds: seq<TestMergeDetails>)
    ensures |DedupAdjacent(ds)| == |ds| - AdjacentRepeats(ds)
    ensures multiset(DedupAdjacent(ds)) <= multiset(ds)
    decreases |ds|
  {
    if |ds| > 1 {
      var init := ds[..|ds| - 1];
      assert ds == init + [ds[|ds| - 1]];
      DedupDropsOnlyRepeats(init);
    }
  }

  /** A list without adjacent repeats is left as it is, so dedup is idempotent. */
  lemma {:induction false} DedupOfRepeatFree(ds: seq<TestMergeDetails>)
    requires NoAdjacentRepeats(ds)
    ensures DedupAdjacent(ds) == ds
    decreases |ds|
  {
    if |ds| > 1 {
      DedupOfRepeatFree(ds[..|ds| - 1]);
      assert ds[..|ds| - 1] + [ds[|ds| - 1]] == ds;
    }
  }

  lemma DedupIdempotent(ds: seq<TestMergeDetails>)
    ensures DedupAdjacent(DedupAdjacent(ds)) == DedupAdjacent(ds)
  {
    DedupHasNoAdjacentRepeats(ds);
    DedupOfRepeatFree(DedupAdjacent(ds));
  }

  /** Repeats that are not neighbours survive: 5, 7, 5 stays 5, 7, 5, while 5, 5, 7 becomes 5, 7. */
  lemma DedupKeepsDistantRepeats(a: TestMergeDetails, b: TestMergeDetails, c: TestMergeDetails)
    requires a.number == 5 && b.number == 7 && c.number == 5
    ensures DedupAdjacent([a, b, c]) == [a, b, c]
    ensures DedupAdjacent([a, c, b]) == [a, b]
  {
    assert [a, b][..1] == [a];
    assert DedupAdjacent([a, b]) == [a] + [b] == [a, b];
    assert [a, b, c][..2] == [a, b];
    assert DedupAdjacent([a, b, c]) == [a, b] + [c];
    assert [a, c][..1] == [a];
    assert DedupAdjacent([a, c]) == [a];
    assert [a, c, b][..2] == [a, c];
    assert DedupAdjacent([a, c, b]) == [a] + [b];
  }

  /** Dedups a list of details through an array, as the source does on its vector. */
  method DedupDetails(ds: seq<TestMergeDetails>) returns (merged: seq<TestMergeDetails>)
    ensures merged == DedupAdjacent(ds)
  {
    var a := new TestMergeDetails[|ds|](i requires 0 <= i < |ds| => ds[i]);
    assert a[..] == ds;
    var len := DedupByNumber(a);
    merged := a[..len];
  }

  /** One more record either repeats the last kept number and is dropped, or is kept. */
  lemma DedupStep(ds: seq<TestMergeDetails>, i: nat)
    requires 1 <= i < |ds|
    ensures DedupAdjacent(ds[..i]) != []
    ensures DedupAdjacent(ds[..i])[|DedupAdjacent(ds[..i])| - 1].number == ds[i - 1].number
    ensures ds[i].number == ds[i - 1].number ==> DedupAdjacent(ds[..i + 1]) == DedupAdjacent(ds[..i])
    ensures ds[i].number != ds[i - 1].number ==> DedupAdjacent(ds[..i + 1]) == DedupAdjacent(ds[..i]) + [ds[i]]
  {
    var prefix := ds[..i + 1];
    assert prefix[..i] == ds[..i];
    assert prefix[i] == ds[i] && prefix[i - 1] == ds[i - 1];
    DedupKeepsLastNumber(ds[..i]);
  }

  /** `Vec::dedup_by_key` in place: compacts the kept records to the front and returns their count. */
  method DedupByNumber(a: array<TestMergeDetails>) returns (len: nat)
    modifies a
    ensures len <= a.Length && a[..len] == DedupAdjacent(old(a[..]))
  {
    ghost var input := a[..];
    if a.Length == 0 {
      return 0;
    }
    len := 1;
    var read := 1;
    assert input[..1] == [input[0]];
    while read < a.Length
      invariant 1 <= len <= read <= a.Length
      invariant a[..len] == DedupAdjacent(input[..read])
      invariant a[read..] == input[read..]
    {
      len := KeepIfNew(a, len, read, input);
      read := read + 1;
    }
    assert input[..a.Length] == input;
  }

  /** One step of the compaction: record `read` is copied to `len` unless it repeats the last kept number. */
  method KeepIfNew(a: array<TestMergeDetails>, len: nat, read: nat, ghost input: seq<TestMergeDetails>)
    returns (len': nat)
    modifies a
    requires 1 <= len <= read < a.Length == |input|
    requires a[..len] == DedupAdjacent(input[..read]) && a[read..] == input[read..]
    ensures len <= len' <= read + 1
    ensures a[..len'] == DedupAdjacent(input[..read + 1]) && a[read + 1..] == input[read + 1..]
  {
    DedupStep(input, read);
    ghost var kept := a[..len];
    ghost var rest := a[read + 1..];
    assert rest == input[read + 1..] by {
      assert a[read + 1..] == a[read..][1..];
    }
    assert a[read] == input[read] by {
      assert a[read] == a[read..][0];
    }
    assert a[len - 1] == kept[len - 1];
    len' := len;
    if a[read].number != a[len - 1].number {
      a[len] := a[read];
      assert a[..len + 1] == kept + [input[read]];
      len' := len + 1;
    }
    assert a[read + 1..] == rest;
  }

  // ---------------------------------------------------------------------------
  // Test merges

  /** The outcome of fetching the files a pull request changed. */
  datatype PullFiles = Listed(files: Option<seq<Path>>) | RequestFailed | TimedOut

  /**
   * `files_changed`: None when the request fails or times out, the empty list
   * when the response body does not decode, and otherwise the file names in
   * response order.
   */
  function FilesChanged(f: PullFiles): (r: Option<seq<Path>>)
    ensures r.None? <==> !f.Listed?
    ensures f.Listed? && f.files.None? ==> r == Some([])
    ensures f.Listed? && f.files.Some? ==> r == f.files
  {
    match f
    case Listed(files) => if files.Some? then files else Some([])
    case _ => None
  }

  const TEST_MERGE_DIR: string := "cache/test_merges"
  const ROUND_DIR: string := "cache/rounds"

  /** "<number>_<commit>.json", the name of a test merge's cache file. */
  function TestMergeFileName(d: TestMergeDetails): string
  {
    NatToDecimal(d.number) + "_" + d.commit + ".json"
  }

  /** `TestMerge::cache_file_path`: "cache/test_merges/<number>_<commit>.json". */
  function CacheFilePath(tm: TestMerge): string
  {
    TEST_MERGE_DIR + "/" + TestMergeFileName(tm.details)
  }

  /** Test merges with different numbers or commits are cached in different files. */
  lemma CacheFilePathInjective(a: TestMerge, b: TestMerge)
    requires CacheFilePath(a) == CacheFilePath(b)
    ensures a.details.number == b.details.number && a.details.commit == b.details.commit
  {
    var k := |TEST_MERGE_DIR + "/"|;
    assert TestMergeFileName(a.details) == CacheFilePath(a)[k..];
    assert TestMergeFileName(b.details) == CacheFilePath(b)[k..];
    FileNameInjective(a.details, b.details);
  }

  lemma FileNameInjective(a: TestMergeDetails, b: TestMergeDetails)
    requires TestMergeFileName(a) == TestMergeFileName(b)
    ensures a.number == b.number && a.commit == b.commit
  {
    var na, nb := NatToDecimal(a.number), NatToDecimal(b.number);
    var ta, tb := "_" + a.commit + ".json", "_" + b.commit + ".json";
    assert TestMergeFileName(a) == na + ta;
    assert TestMergeFileName(b) == nb + tb;
    NatToDecimalDenotes(a.number);
    NatToDecimalDenotes(b.number);
    DigitsThenSeparator(na, ta, nb, tb);
    assert a.commit == ta[1..|ta| - 5];
    assert b.commit == tb[1..|tb| - 5];
  }

  /** A digit run followed by a non-digit splits the same way in two equal texts. */
  lemma DigitsThenSeparator(na: string, ta: string, nb: string, tb: string)
    requires AllDigits(na) && AllDigits(nb) && ta != [] && tb != [] && !IsDigit(ta[0]) && !IsDigit(tb[0])
    requires na + ta == nb + tb
    ensures na == nb && ta == tb
  {
    LeadingDigitsOf(na, ta);
    LeadingDigitsOf(nb, tb);
    assert ta == (na + ta)[|na|..];
    assert tb == (nb + tb)[|nb|..];
  }

  /** The cache file of round `id`, as `from_cache_or` names it and the janitor keeps it. */
  function RoundCachePath(id: RoundId): string
  {
    "rounds/" + IntToDecimal(id) + ".json"
  }

  function RoundFile(id: RoundId): string
  {
    ROUND_DIR + "/" + IntToDecimal(id) + ".json"
  }

  /** `from_cache_or` stores round `id` in exactly the file the janitor counts as used. */
  lemma RoundCacheFileIsRoundFile(id: RoundId)
    ensures FileCache.CachePath(RoundCachePath(id)) == RoundFile(id)
  {
    assert RoundCachePath(id)[0] == 'r';
  }

  // ---------------------------------------------------------------------------
  // Server names

  /** The server's table name, or "unknown server: <port>". */
  function ServerName(port: Servers.Port): (name: string)
    ensures Servers.ServerByPort(port).Some? ==> name == Servers.ServerByPort(port).value.name
    ensures Servers.ServerByPort(port).None? ==> name == "unknown server: " + NatToDecimal(port)
  {
    match Servers.ServerByPort(port)
    case Some(server) => server.name
    case None => "unknown server: " + NatToDecimal(port)
  }

  // ---------------------------------------------------------------------------
  // Grouping the repository tree by file name

  predicate AllNamed(paths: seq<Path>)
  {
    forall i :: 0 <= i < |paths| ==> FileName(paths[i]).Some?
  }

  /** The paths, in tree order, whose last component is `name`. */
  function WithName(paths: seq<Path>, name: string): (r: seq<Path>)
    ensures |r| <= |paths|
    decreases |paths|
  {
    if paths == [] then []
    else
      var init := WithName(paths[..|paths| - 1], name);
      if FileName(paths[|paths| - 1]) == Some(name) then init + [paths[|paths| - 1]] else init
  }

  /**
   * `names.entry(file_name).or_default().push(path)` over the tree, as a value.
   * A path without a file name is passed over here; the loop itself is only
   * called on trees where every path has one, since the source unwraps it.
   */
  function Grouped(paths: seq<Path>): map<string, seq<Path>>
    decreases |paths|
  {
    if paths == [] then map[]
    else
      var p := paths[|paths| - 1];
      FileUnder(Grouped(paths[..|paths| - 1]), FileName(p), p)
  }

  /** One step of the grouping: `p` is appended to the list of its file name `file`. */
  function FileUnder(names: map<string, seq<Path>>, file: Option<string>, p: Path): map<string, seq<Path>>
  {
    match file
    case None => names
    case Some(name) => names[name := (if name in names then names[name] else []) + [p]]
  }

  /**
   * Every key lists exactly the paths with that file name, in tree order, and a
   * name is a key exactly when some path has it.
   */
  lemma {:induction false} GroupedIsByName(paths: seq<Path>, name: string)
    ensures name in Grouped(paths) <==> |WithName(paths, name)| > 0
    ensures name in Grouped(paths) ==> Grouped(paths)[name] == WithName(paths, name)
    decreases |paths|
  {
    if paths != [] {
      var init, p := paths[..|paths| - 1], paths[|paths| - 1];
      GroupedIsByName(init, name);
      assert Grouped(paths) == FileUnder(Grouped(init), FileName(p), p);
      FileUnderAt(Grouped(init), FileName(p), p, name);
    }
  }

  lemma FileUnderAt(names: map<string, seq<Path>>, file: Option<string>, p: Path, name: string)
    ensures name in FileUnder(names, file, p) <==> name in names || file == Some(name)
    ensures name in FileUnder(names, file, p) ==>
      FileUnder(names, file, p)[name] == (if name in names then names[name] else []) + (if file == Some(name) then [p] else [])
  {
  }

  /** Each path is in the list of its own file name, and in no other. */
  lemma {:induction false} PathInItsOwnList(paths: seq<Path>, i: nat, name: string)
    requires i < |paths|
    ensures name in Grouped(paths) && paths[i] in Grouped(paths)[name] ==> FileName(paths[i]) == Some(name)
    ensures FileName(paths[i]) == Some(name) ==> name in Grouped(paths) && paths[i] in Grouped(paths)[name]
    decreases |paths|
  {
    GroupedIsByName(paths, name);
    WithNameMembers(paths, name, paths[i]);
  }

  lemma {:induction false} WithNameMembers(paths: seq<Path>, name: string, p: Path)
    ensures p in WithName(paths, name) <==> p in paths && FileName(p) == Some(name)
    decreases |paths|
  {
    if paths != [] {
      WithNameMembers(paths[..|paths| - 1], name, p);
      assert paths == paths[..|paths| - 1] + [paths[|paths| - 1]];
    }
  }

  /** Grouping one more path files it under its own name. */
  lemma {:induction false} GroupedSnoc(init: seq<Path>, p: Path)
    ensures Grouped(init + [p]) == FileUnder(Grouped(init), FileName(p), p)
  {
    var all := init + [p];
    assert all[|all| - 1] == p;
    assert all[..|all| - 1] == init;
  }

  lemma GroupedPrefix(paths: seq<Path>, i: nat)
    requires i < |paths|
    ensures Grouped(paths[..i + 1]) == FileUnder(Grouped(paths[..i]), FileName(paths[i]), paths[i])
  {
    assert paths[..i + 1] == paths[..i] + [paths[i]];
    GroupedSnoc(paths[..i], paths[i]);
  }

  /** The loop of `get_git_tree` over the tree entries. */
  method GroupByFileName(paths: seq<Path>) returns (names: map<string, seq<Path>>)
    requires AllNamed(paths)
    ensures names == Grouped(paths)
  {
    names := map[];
    for i := 0 to |paths|
      invariant names == Grouped(paths[..i])
    {
      var path := paths[i];
      GroupedPrefix(paths, i);
      var name := FileName(path).value;
      var list := if name in names then names[name] else [];
      names := names[name := list + [path]];
    }
    assert paths[..|paths|] == paths;
  }

  // ---------------------------------------------------------------------------
  // Enrichment with file-name guesses

  /**
   * A batch without a definite location gets every tree path with its source
   * file's name as possible locations, when that name is in the tree.
   */
  function Enrich(tree: map<string, seq<Path>>, b: RuntimeBatch): RuntimeBatch
  {
    if b.bestGuessFilenames.Some? && b.bestGuessFilenames.value.Definitely? then b
    else if b.sourceFile in tree then b.(bestGuessFilenames := Some(Possible(tree[b.sourceFile])))
    else b
  }

  /**
   * Enrichment touches nothing but the guesses: a definite location is kept,
   * an indexed source file gets its paths as possible locations, and any
   * other batch is left as it was.
   */
  lemma EnrichOnlyGuesses(tree: map<string, seq<Path>>, b: RuntimeBatch)
    ensures var r := Enrich(tree, b);
            && r.count == b.count && r.exception == b.exception && r.procPath == b.procPath
            && r.sourceFile == b.sourceFile && r.line == b.line
    ensures b.bestGuessFilenames.Some? && b.bestGuessFilenames.value.Definitely? ==> Enrich(tree, b) == b
    ensures !(b.bestGuessFilenames.Some? && b.bestGuessFilenames.value.Definitely?) && b.sourceFile in tree ==>
              Enrich(tree, b).bestGuessFilenames == Some(Possible(tree[b.sourceFile]))
    ensures b.sourceFile !in tree ==> Enrich(tree, b) == b
  {
  }

  /** The zero-padded two-digit rendering of `{:02}`. */
  function Pad2(n: nat): string
  {
    if n < 10 then "0" + NatToDecimal(n) else NatToDecimal(n)
  }

  /** Where the condensed runtime log of a round lives. */
  function RuntimesUrl(server: string, t: Timestamp, id: RoundId): string
  {
    "https://tgstation13.org/parsed-logs/" + server + "/data/logs/" + IntToDecimal(t.year) + "/" + Pad2(t.month)
      + "/" + Pad2(t.day) + "/round-" + IntToDecimal(id) + "/runtime.condensed.txt"
  }

  /** The outcome of fetching the repository tree. */
  datatype TreeFetch = TreeListed(paths: seq<Path>) | TreeUndecodable | TreeRequestFailed

  /**
   * Every request's outcome: the tree, the lines of each log that could be
   * fetched (a missing URL is a failed request) and the changed files of each
   * pull request (a missing number is a failed request).
   */
  datatype Network = Network(tree: TreeFetch, logs: map<string, seq<string>>, pulls: map<nat, PullFiles>)
  {
    function Pull(number: nat): PullFiles
    {
      if number in pulls then pulls[number] else RequestFailed
    }
  }

  /** Every batch enriched, in order. */
  function EnrichAll(tree: map<string, seq<Path>>, bs: seq<RuntimeBatch>): (r: seq<RuntimeBatch>)
    ensures |r| == |bs| && forall i :: 0 <= i < |bs| ==> r[i] == Enrich(tree, bs[i])
  {
    seq(|bs|, i requires 0 <= i < |bs| => Enrich(tree, bs[i]))
  }

  /** `load_runtimes_from` as a value: which of its steps fails, or the enriched batches. */
  function RuntimesFrom(tree: map<string, seq<Path>>, id: RoundId, port: Servers.Port, t: Timestamp, net: Network)
    : Result<seq<RuntimeBatch>>
  {
    match Servers.ServerByPort(port)
    case None => Err("unknown server: " + NatToDecimal(port))
    case Some(server) =>
      var url := RuntimesUrl(server.name, t, id);
      if url !in net.logs then Err("couldn't get runtime.condensed.txt")
      else
        match GetRuntimesForRound(net.logs[url])
        case Err(e) => Err(e)
        case Ok(batches) => Ok(EnrichAll(tree, batches))
  }

  /**
   * An unknown port fails before any request; otherwise the runtimes are those
   * of the log at the round's URL, each enriched.
   */
  lemma RuntimesFromSteps(tree: map<string, seq<Path>>, id: RoundId, port: Servers.Port, t: Timestamp, net: Network)
    ensures Servers.ServerByPort(port).None? ==> RuntimesFrom(tree, id, port, t, net) == Err("unknown server: " + NatToDecimal(port))
    ensures RuntimesFrom(tree, id, port, t, net).Ok? <==>
              && Servers.ServerByPort(port).Some?
              && RuntimesUrl(Servers.ServerByPort(port).value.name, t, id) in net.logs
              && GetRuntimesForRound(net.logs[RuntimesUrl(Servers.ServerByPort(port).value.name, t, id)]).Ok?
    ensures RuntimesFrom(tree, id, port, t, net).Ok? ==>
              RuntimesFrom(tree, id, port, t, net).value
              == EnrichAll(tree, GetRuntimesForRound(net.logs[RuntimesUrl(Servers.ServerByPort(port).value.name, t, id)]).value)
  {
  }

  /** The records of the round query; a column that fails to convert is None. */
  datatype Row = Row(
    id: Option<RoundId>,
    initializeDatetime: Timestamp,
    serverPort: Option<Servers.Port>,
    commitHash: Option<string>,
    testMerges: Option<TestMergesColumn>)

  /** The round's test-merge details before dedup: no column is no test merge. */
  function RowDetails(row: Row): Result<seq<TestMergeDetails>>
  {
    match row.testMerges
    case None => Ok([])
    case Some(Malformed) => Err("couldn't parse test merges")
    case Some(Records(raws)) => DecodeDetails(raws)
  }

  // ---------------------------------------------------------------------------
  // The collection context

  /** The JSON codecs of the three kinds of cache file. */
  datatype Codecs = Codecs(
    testMerge: FileCache.Codec<TestMerge>,
    tree: FileCache.Codec<map<string, seq<Path>>>,
    round: FileCache.Codec<Round>)

  const GIT_TREE_CACHE_FILE: string := "cache/git_tree.json"

  /** `p` is a direct entry of directory `dir` (what `read_dir` lists). */
  predicate InDir(p: string, dir: string)
  {
    && |p| > |dir| + 1
    && p[..|dir| + 1] == dir + "/"
    && forall i :: |dir| + 1 <= i < |p| ==> p[i] != '/'
  }

  /** Some file of the test-merge cache directory decodes to `tm`. */
  ghost predicate CachedTestMerge(files: map<string, string>, codec: FileCache.Codec<TestMerge>, tm: TestMerge)
  {
    exists p :: p in files && InDir(p, TEST_MERGE_DIR) && codec.decode(files[p]) == Some(tm)
  }

  /** Every test-merge cache file that decodes has its commit among the stored test merges. */
  ghost predicate HoldsEveryCachedCommit(files: map<string, string>, codec: FileCache.Codec<TestMerge>, tms: map<string, TestMerge>)
  {
    forall p :: p in files && InDir(p, TEST_MERGE_DIR) && codec.decode(files[p]).Some?
      ==> codec.decode(files[p]).value.details.commit in tms
  }

  /** Every stored test merge sits under its own commit. */
  predicate KeyedByCommit(tms: map<string, TestMerge>)
  {
    forall c :: c in tms ==> tms[c].details.commit == c
  }

  /**
   * `get_git_tree` as a value: a listed tree is grouped by file name and saved
   * (a failed save is only logged); otherwise the saved tree is read back, and
   * without a readable one the index is empty.
   */
  function GitTree(files: map<string, string>, createFails: set<string>, writeFails: set<string>,
                   codec: FileCache.Codec<map<string, seq<Path>>>, fetch: TreeFetch)
    : (r: (map<string, seq<Path>>, map<string, string>))
    requires fetch.TreeListed? ==> AllNamed(fetch.paths)
    ensures fetch.TreeListed? ==> r.0 == Grouped(fetch.paths)
    ensures !fetch.TreeListed? ==> r.1 == files
    ensures !fetch.TreeListed? && (GIT_TREE_CACHE_FILE !in files || codec.decode(files[GIT_TREE_CACHE_FILE]).None?)
            ==> r.0 == map[]
    ensures forall p :: p != GIT_TREE_CACHE_FILE ==> (p in r.1 <==> p in files) && (p in r.1 ==> r.1[p] == files[p])
  {
    match fetch
    case TreeListed(paths) =>
      var names := Grouped(paths);
      (names, FileCache.AfterWrite(files, createFails, writeFails, GIT_TREE_CACHE_FILE, codec.encode(names)))
    case _ =>
      if GIT_TREE_CACHE_FILE in files && codec.decode(files[GIT_TREE_CACHE_FILE]).Some?
      then (codec.decode(files[GIT_TREE_CACHE_FILE]).value, files)
      else (map[], files)
  }

  /** The tree step leaves every file of the round and test-merge cache directories as it was. */
  lemma GitTreeKeepsCacheDirs(files: map<string, string>, createFails: set<string>, writeFails: set<string>,
                              codec: FileCache.Codec<map<string, seq<Path>>>, fetch: TreeFetch, p: string)
    requires fetch.TreeListed? ==> AllNamed(fetch.paths)
    requires InDir(p, ROUND_DIR) || InDir(p, TEST_MERGE_DIR)
    ensures var after := GitTree(files, createFails, writeFails, codec, fetch).1;
            && (p in after <==> p in files)
            && (p in after ==> after[p] == files[p])
  {
    var dir := if InDir(p, ROUND_DIR) then ROUND_DIR else TEST_MERGE_DIR;
    assert p[6] == (dir + "/")[6] != GIT_TREE_CACHE_FILE[6] by { assert p[..|dir| + 1][6] == p[6]; }
  }

  /** A tree that was fetched and saved is what a later run falls back to when the fetch fails. */
  lemma {:induction false} SavedTreeIsFallback(files: map<string, string>, createFails: set<string>, writeFails: set<string>,
                                               codec: FileCache.Codec<map<string, seq<Path>>>, paths: seq<Path>, later: TreeFetch)
    requires FileCache.Sound(codec) && AllNamed(paths) && !later.TreeListed?
    requires GIT_TREE_CACHE_FILE !in createFails && GIT_TREE_CACHE_FILE !in writeFails
    ensures var first := GitTree(files, createFails, writeFails, codec, TreeListed(paths));
            GitTree(first.1, createFails, writeFails, codec, later).0 == first.0
  {
    var first := GitTree(files, createFails, writeFails, codec, TreeListed(paths));
    assert first.1 == files[GIT_TREE_CACHE_FILE := codec.encode(first.0)];
    assert codec.decode(codec.encode(first.0)) == Some(first.0);
  }

  /**
   * `test_merge_from_details` as a value: the test merge stored under the
   * commit if there is one, with nothing changed; otherwise a new test merge of
   * these details and the fetched files, stored under the commit and written
   * to its cache file (a failed write is only logged).
   */
  function MergeLookup(tms: map<string, TestMerge>, files: map<string, string>, createFails: set<string>,
                       writeFails: set<string>, codec: FileCache.Codec<TestMerge>, details: TestMergeDetails,
                       pull: PullFiles): (r: (TestMerge, map<string, TestMerge>, map<string, string>))
    ensures details.commit in tms ==> r == (tms[details.commit], tms, files)
    ensures details.commit !in tms ==>
              && r.0 == TestMerge(details, FilesChanged(pull))
              && r.1 == tms[details.commit := r.0]
              && r.2 == FileCache.AfterWrite(files, createFails, writeFails, CacheFilePath(r.0), codec.encode(r.0))
  {
    if details.commit in tms then (tms[details.commit], tms, files)
    else
      var tm := TestMerge(details, FilesChanged(pull));
      (tm, tms[details.commit := tm], FileCache.AfterWrite(files, createFails, writeFails, CacheFilePath(tm), codec.encode(tm)))
  }

  /**
   * The result always belongs to the requested commit and the map stays keyed
   * by commit; asking again for the same commit is a hit that returns the same
   * test merge and changes nothing, whatever the network does the second time.
   */
  lemma {:induction false} MergeLookupMemoises(tms: map<string, TestMerge>, files: map<string, string>,
                                               createFails: set<string>, writeFails: set<string>,
                                               codec: FileCache.Codec<TestMerge>, details: TestMergeDetails,
                                               pull: PullFiles, again: PullFiles)
    requires KeyedByCommit(tms)
    ensures var r := MergeLookup(tms, files, createFails, writeFails, codec, details, pull);
            && r.0.details.commit == details.commit
            && KeyedByCommit(r.1)
            && MergeLookup(r.1, r.2, createFails, writeFails, codec, details, again) == (r.0, r.1, r.2)
  {
    var r := MergeLookup(tms, files, createFails, writeFails, codec, details, pull);
    assert details.commit in r.1;
  }

  /**
   * The loop of `load_round_from_row` over the deduplicated details, as a
   * value: each detail is looked up against the map and the disk the earlier
   * ones left, and the test merges come out in detail order.
   */
  function MergesFrom(tms: map<string, TestMerge>, files: map<string, string>, createFails: set<string>,
                      writeFails: set<string>, codec: FileCache.Codec<TestMerge>, merged: seq<TestMergeDetails>,
                      net: Network): (r: (seq<TestMerge>, map<string, TestMerge>, map<string, string>))
    ensures |r.0| == |merged|
    decreases |merged|
  {
    if merged == [] then ([], tms, files)
    else
      var n := |merged| - 1;
      var prev := MergesFrom(tms, files, createFails, writeFails, codec, merged[..n], net);
      var step := MergeLookup(prev.1, prev.2, createFails, writeFails, codec, merged[n], net.Pull(merged[n].number));
      (prev.0 + [step.0], step.1, step.2)
  }

  /**
   * The map only grows, never replaces the test merge of a commit and stays
   * keyed by commit, so each collected test merge is the one the map holds
   * for its detail's commit at the end.
   */
  lemma {:induction false} MergesFromByCommit(tms: map<string, TestMerge>, files: map<string, string>,
                                              createFails: set<string>, writeFails: set<string>,
                                              codec: FileCache.Codec<TestMerge>, merged: seq<TestMergeDetails>, net: Network)
    requires KeyedByCommit(tms)
    ensures var r := MergesFrom(tms, files, createFails, writeFails, codec, merged, net);
            && KeyedByCommit(r.1)
            && (forall c :: c in tms ==> c in r.1 && r.1[c] == tms[c])
            && (forall j :: 0 <= j < |merged| ==>
                  && merged[j].commit in r.1 && r.0[j] == r.1[merged[j].commit]
                  && r.0[j].details.commit == merged[j].commit)
    decreases |merged|
  {
    if merged != [] {
      var n := |merged| - 1;
      var prev := MergesFrom(tms, files, createFails, writeFails, codec, merged[..n], net);
      MergesFromByCommit(tms, files, createFails, writeFails, codec, merged[..n], net);
      var pull := net.Pull(merged[n].number);
      var step := MergeLookup(prev.1, prev.2, createFails, writeFails, codec, merged[n], pull);
      MergeLookupMemoises(prev.1, prev.2, createFails, writeFails, codec, merged[n], pull, pull);
      var r := MergesFrom(tms, files, createFails, writeFails, codec, merged, net);
      assert r == (prev.0 + [step.0], step.1, step.2);
      assert forall c :: c in prev.1 ==> c in step.1 && step.1[c] == prev.1[c];
      forall j | 0 <= j < |merged|
        ensures merged[j].commit in r.1 && r.0[j] == r.1[merged[j].commit] && r.0[j].details.commit == merged[j].commit
      {
        if j < n {
          assert merged[..n][j] == merged[j] && r.0[j] == prev.0[j];
        } else {
          assert r.0[j] == step.0;
        }
      }
    }
  }

  /** A test-merge cache file is never a round cache file. */
  lemma MergeFileIsNotRoundFile(tm: TestMerge, id: RoundId)
    ensures CacheFilePath(tm) != RoundFile(id)
  {
    assert CacheFilePath(tm)[6] == 't' && RoundFile(id)[6] == 'r';
  }

  /** Distinct rounds have distinct cache files. */
  lemma RoundFileInjective(a: RoundId, b: RoundId)
    requires RoundFile(a) == RoundFile(b)
    ensures a == b
  {
    var k := |ROUND_DIR + "/"|;
    assert IntToDecimal(a) == RoundFile(a)[k..|RoundFile(a)| - 5];
    assert IntToDecimal(b) == RoundFile(b)[k..|RoundFile(b)| - 5];
    IntToDecimalInjective(a, b);
  }

  /** Collecting test merges leaves every round cache file as it was. */
  lemma {:induction false} MergesFromKeepsRoundFiles(tms: map<string, TestMerge>, files: map<string, string>,
                                                     createFails: set<string>, writeFails: set<string>,
                                                     codec: FileCache.Codec<TestMerge>, merged: seq<TestMergeDetails>,
                                                     net: Network, id: RoundId)
    ensures var after := MergesFrom(tms, files, createFails, writeFails, codec, merged, net).2;
            && (RoundFile(id) in after <==> RoundFile(id) in files)
            && (RoundFile(id) in after ==> after[RoundFile(id)] == files[RoundFile(id)])
    decreases |merged|
  {
    if merged != [] {
      var n := |merged| - 1;
      var prev := MergesFrom(tms, files, createFails, writeFails, codec, merged[..n], net);
      MergesFromKeepsRoundFiles(tms, files, createFails, writeFails, codec, merged[..n], net, id);
      var step := MergeLookup(prev.1, prev.2, createFails, writeFails, codec, merged[n], net.Pull(merged[n].number));
      MergeFileIsNotRoundFile(step.0, id);
    }
  }

  /** The list of kept elements of a sequence of outcomes, in order. */
  function Successes<T>(outcomes: seq<Result<T>>): (r: seq<T>)
    ensures |r| <= |outcomes|
    decreases |outcomes|
  {
    if outcomes == [] then []
    else
      var init := Successes(outcomes[..|outcomes| - 1]);
      if outcomes[|outcomes| - 1].Ok? then init + [outcomes[|outcomes| - 1].value] else init
  }

  /**
   * Where each kept element came from: a strictly increasing list of positions,
   * one per success, naming every success exactly once.
   */
  function SuccessPositions<T>(outcomes: seq<Result<T>>): (idx: seq<nat>)
    ensures |idx| == |Successes(outcomes)|
    ensures forall k :: 0 <= k < |idx| ==> idx[k] < |outcomes| && outcomes[idx[k]] == Ok(Successes(outcomes)[k])
    ensures forall k, l :: 0 <= k < l < |idx| ==> idx[k] < idx[l]
    ensures forall i :: 0 <= i < |outcomes| && outcomes[i].Ok? ==> i in idx
    decreases |outcomes|
  {
    if outcomes == [] then []
    else
      var n := |outcomes| - 1;
      var init := SuccessPositions(outcomes[..n]);
      if outcomes[n].Ok? then init + [n] else init
  }

  /** Every outcome of a run of successes is kept. */
  lemma {:induction false} AllSuccessesKept<T>(outcomes: seq<Result<T>>)
    requires forall i :: 0 <= i < |outcomes| ==> outcomes[i].Ok?
    ensures |Successes(outcomes)| == |outcomes|
    ensures forall i :: 0 <= i < |outcomes| ==> Successes(outcomes)[i] == outcomes[i].value
    decreases |outcomes|
  {
    if outcomes != [] {
      AllSuccessesKept(outcomes[..|outcomes| - 1]);
    }
  }

  /**
   * The closure `load_round_from_row` hands to `from_cache_or`, as a value:
   * the details are parsed and deduplicated and their test merges collected
   * before the server port and the commit hash are read, so a missing column
   * fails after the test merges were stored.
   */
  function Built(row: Row, id: RoundId, tree: map<string, seq<Path>>, tms: map<string, TestMerge>,
                 files: map<string, string>, createFails: set<string>, writeFails: set<string>,
                 codecs: Codecs, net: Network): (Result<Round>, map<string, TestMerge>, map<string, string>)
  {
    match RowDetails(row)
    case Err(e) => (Err(e), tms, files)
    case Ok(details) =>
      var m := MergesFrom(tms, files, createFails, writeFails, codecs.testMerge, DedupAdjacent(details), net);
      if row.serverPort.None? then (Err("couldn't read server_port"), m.1, m.2)
      else if row.commitHash.None? then (Err("couldn't read commit_hash"), m.1, m.2)
      else
        var rt := RuntimesFrom(tree, id, row.serverPort.value, row.initializeDatetime, net);
        (Ok(Round(id, row.initializeDatetime, row.commitHash.value, ServerName(row.serverPort.value),
                  if rt.Ok? then Some(rt.value) else None, m.0)), m.1, m.2)
  }

  /**
   * `load_round_from_row` as a value: the round, the test-merge map and the
   * disk after it.  A cached round is decoded and nothing changes; otherwise
   * the round is built and, when that succeeds, written to its cache file.
   */
  function RoundFromRow(row: Row, tree: map<string, seq<Path>>, tms: map<string, TestMerge>,
                        files: map<string, string>, createFails: set<string>, writeFails: set<string>,
                        codecs: Codecs, net: Network): (Result<Round>, map<string, TestMerge>, map<string, string>)
  {
    match row.id
    case None => (Err("couldn't read id"), tms, files)
    case Some(id) =>
      var file := FileCache.CachePath(RoundCachePath(id));
      if file in files then
        (match codecs.round.decode(files[file])
         case Some(v) => Ok(v)
         case None => Err("couldn't decode cached value"), tms, files)
      else
        var b := Built(row, id, tree, tms, files, createFails, writeFails, codecs, net);
        if b.0.Err? then b
        else
          (if file in createFails || file in writeFails then Err("couldn't write cached value") else b.0,
           b.1, FileCache.AfterWrite(b.2, createFails, writeFails, file, codecs.round.encode(b.0.value)))
  }

  /**
   * The closure succeeds exactly when the details parse and the server port
   * and the commit hash are present.  The round then has the row's time,
   * revision and server name, the runtimes when they load, and the map's test
   * merge for each deduplicated detail's commit; details that do not parse
   * change nothing.
   */
  lemma BuiltFields(row: Row, id: RoundId, tree: map<string, seq<Path>>, tms: map<string, TestMerge>,
                    files: map<string, string>, createFails: set<string>, writeFails: set<string>,
                    codecs: Codecs, net: Network)
    requires KeyedByCommit(tms)
    ensures var b := Built(row, id, tree, tms, files, createFails, writeFails, codecs, net);
            && KeyedByCommit(b.1)
            && (RowDetails(row).Err? ==> b.0.Err? && b.1 == tms && b.2 == files)
            && (b.0.Ok? <==> RowDetails(row).Ok? && row.serverPort.Some? && row.commitHash.Some?)
    ensures var b := Built(row, id, tree, tms, files, createFails, writeFails, codecs, net);
            b.0.Ok? ==>
              var merged := DedupAdjacent(RowDetails(row).value);
              var rt := RuntimesFrom(tree, id, row.serverPort.value, row.initializeDatetime, net);
              && b.0.value.roundId == id
              && b.0.value.timestamp == row.initializeDatetime
              && b.0.value.revision == row.commitHash.value
              && b.0.value.server == ServerName(row.serverPort.value)
              && b.0.value.runtimes == (if rt.Ok? then Some(rt.value) else None)
              && |b.0.value.testMerges| == |merged|
              && (forall k :: 0 <= k < |merged| ==>
                    merged[k].commit in b.1 && b.0.value.testMerges[k] == b.1[merged[k].commit])
  {
    if RowDetails(row).Ok? {
      var merged := DedupAdjacent(RowDetails(row).value);
      var m := MergesFrom(tms, files, createFails, writeFails, codecs.testMerge, merged, net);
      MergesFromByCommit(tms, files, createFails, writeFails, codecs.testMerge, merged, net);
      var b := Built(row, id, tree, tms, files, createFails, writeFails, codecs, net);
      assert b.1 == m.1;
      assert b.0.Ok? ==> b.0.value.testMerges == m.0;
    }
  }

  /** A row whose round is cached gives the decoded cache file and changes nothing. */
  lemma RoundFromRowHit(row: Row, tree: map<string, seq<Path>>, tms: map<string, TestMerge>,
                        files: map<string, string>, createFails: set<string>, writeFails: set<string>,
                        codecs: Codecs, net: Network)
    requires row.id.Some? && RoundFile(row.id.value) in files
    ensures var r := RoundFromRow(row, tree, tms, files, createFails, writeFails, codecs, net);
            var cached := codecs.round.decode(files[RoundFile(row.id.value)]);
            && r.1 == tms && r.2 == files
            && (r.0.Ok? <==> cached.Some?)
            && (r.0.Ok? ==> Some(r.0.value) == cached)
  {
    RoundCacheFileIsRoundFile(row.id.value);
  }

  /**
   * A row whose round is not cached: the load succeeds exactly when the
   * details parse, the server port and the commit hash are present and the
   * cache file can be written.  The round then has the row's id, time,
   * revision and server name, the runtimes when they load, and the test
   * merges the map holds for the deduplicated details' commits; it is what
   * the cache file now holds.  Details that do not parse change nothing.
   */
  lemma RoundFromRowMiss(row: Row, tree: map<string, seq<Path>>, tms: map<string, TestMerge>,
                         files: map<string, string>, createFails: set<string>, writeFails: set<string>,
                         codecs: Codecs, net: Network)
    requires row.id.Some? && RoundFile(row.id.value) !in files
    requires KeyedByCommit(tms)
    ensures var r := RoundFromRow(row, tree, tms, files, createFails, writeFails, codecs, net);
            && KeyedByCommit(r.1)
            && (RowDetails(row).Err? ==> r.0.Err? && r.1 == tms && r.2 == files)
            && (r.0.Ok? <==> && RowDetails(row).Ok? && row.serverPort.Some? && row.commitHash.Some?
                             && RoundFile(row.id.value) !in createFails && RoundFile(row.id.value) !in writeFails)
    ensures var r := RoundFromRow(row, tree, tms, files, createFails, writeFails, codecs, net);
            r.0.Ok? ==>
              var merged := DedupAdjacent(RowDetails(row).value);
              var rt := RuntimesFrom(tree, row.id.value, row.serverPort.value, row.initializeDatetime, net);
              && r.0.value.roundId == row.id.value
              && r.0.value.timestamp == row.initializeDatetime
              && r.0.value.revision == row.commitHash.value
              && r.0.value.server == ServerName(row.serverPort.value)
              && r.0.value.runtimes == (if rt.Ok? then Some(rt.value) else None)
              && |r.0.value.testMerges| == |merged|
              && (forall k :: 0 <= k < |merged| ==>
                    merged[k].commit in r.1 && r.0.value.testMerges[k] == r.1[merged[k].commit])
              && RoundFile(row.id.value) in r.2 && r.2[RoundFile(row.id.value)] == codecs.round.encode(r.0.value)
  {
    var id := row.id.value;
    RoundCacheFileIsRoundFile(id);
    BuiltFields(row, id, tree, tms, files, createFails, writeFails, codecs, net);
  }

  /**
   * Once a row's round was built and stored, loading the same row again is a
   * cache hit: the same round, with nothing changed and nothing fetched.
   */
  lemma RoundFromRowReused(row: Row, tree: map<string, seq<Path>>, tms: map<string, TestMerge>,
                           files: map<string, string>, createFails: set<string>, writeFails: set<string>,
                           codecs: Codecs, net: Network, laterTree: map<string, seq<Path>>, later: Network)
    requires FileCache.Sound(codecs.round)
    requires row.id.Some? && RoundFile(row.id.value) !in files
    requires RoundFromRow(row, tree, tms, files, createFails, writeFails, codecs, net).0.Ok?
    ensures var first := RoundFromRow(row, tree, tms, files, createFails, writeFails, codecs, net);
            RoundFromRow(row, laterTree, first.1, first.2, createFails, writeFails, codecs, later) == first
  {
    RoundCacheFileIsRoundFile(row.id.value);
    var first := RoundFromRow(row, tree, tms, files, createFails, writeFails, codecs, net);
    assert codecs.round.decode(codecs.round.encode(first.0.value)) == Some(first.0.value);
  }

  /** One row of `load_rounds_over_cloud`: a row without an id is skipped. */
  function RowStep(row: Row, tree: map<string, seq<Path>>, tms: map<string, TestMerge>,
                   files: map<string, string>, createFails: set<string>, writeFails: set<string>,
                   codecs: Codecs, net: Network): (Result<Round>, map<string, TestMerge>, map<string, string>)
  {
    if row.id.None? then (Err("round with no id found, skipping"), tms, files)
    else RoundFromRow(row, tree, tms, files, createFails, writeFails, codecs, net)
  }

  /** The row loop of `load_rounds_over_cloud` as a value: every row's outcome, then the map and the disk. */
  function LoadAll(rows: seq<Row>, tree: map<string, seq<Path>>, tms: map<string, TestMerge>,
                   files: map<string, string>, createFails: set<string>, writeFails: set<string>,
                   codecs: Codecs, net: Network): (r: (seq<Result<Round>>, map<string, TestMerge>, map<string, string>))
    ensures |r.0| == |rows|
    decreases |rows|
  {
    if rows == [] then ([], tms, files)
    else
      var n := |rows| - 1;
      var prev := LoadAll(rows[..n], tree, tms, files, createFails, writeFails, codecs, net);
      var step := RowStep(rows[n], tree, prev.1, prev.2, createFails, writeFails, codecs, net);
      (prev.0 + [step.0], step.1, step.2)
  }

  lemma LoadAllSnoc(rows: seq<Row>, row: Row, tree: map<string, seq<Path>>, tms: map<string, TestMerge>,
                    files: map<string, string>, createFails: set<string>, writeFails: set<string>,
                    codecs: Codecs, net: Network)
    ensures var prev := LoadAll(rows, tree, tms, files, createFails, writeFails, codecs, net);
            var step := RowStep(row, tree, prev.1, prev.2, createFails, writeFails, codecs, net);
            LoadAll(rows + [row], tree, tms, files, createFails, writeFails, codecs, net) == (prev.0 + [step.0], step.1, step.2)
  {
    assert (rows + [row])[..|rows|] == rows;
  }

  /** The outcome of row i is that row's load on the map and disk the rows before it left. */
  lemma {:induction false} LoadAllOutcome(rows: seq<Row>, i: nat, tree: map<string, seq<Path>>, tms: map<string, TestMerge>,
                                          files: map<string, string>, createFails: set<string>, writeFails: set<string>,
                                          codecs: Codecs, net: Network)
    requires i < |rows|
    ensures var before := LoadAll(rows[..i], tree, tms, files, createFails, writeFails, codecs, net);
            LoadAll(rows, tree, tms, files, createFails, writeFails, codecs, net).0[i]
            == RowStep(rows[i], tree, before.1, before.2, createFails, writeFails, codecs, net).0
    decreases |rows|
  {
    var n := |rows| - 1;
    var prev := LoadAll(rows[..n], tree, tms, files, createFails, writeFails, codecs, net);
    var step := RowStep(rows[n], tree, prev.1, prev.2, createFails, writeFails, codecs, net);
    assert LoadAll(rows, tree, tms, files, createFails, writeFails, codecs, net).0 == prev.0 + [step.0];
    if i < n {
      LoadAllOutcome(rows[..n], i, tree, tms, files, createFails, writeFails, codecs, net);
      assert rows[..n][..i] == rows[..i] && rows[..n][i] == rows[i];
    } else {
      assert rows[..i] == rows[..n];
    }
  }

  /** A row's load keeps the map keyed by commit. */
  lemma RowStepKeyed(row: Row, tree: map<string, seq<Path>>, tms: map<string, TestMerge>,
                     files: map<string, string>, createFails: set<string>, writeFails: set<string>,
                     codecs: Codecs, net: Network)
    requires KeyedByCommit(tms)
    ensures KeyedByCommit(RowStep(row, tree, tms, files, createFails, writeFails, codecs, net).1)
  {
    if row.id.Some? && RoundFile(row.id.value) !in files {
      RoundFromRowMiss(row, tree, tms, files, createFails, writeFails, codecs, net);
    } else if row.id.Some? {
      RoundFromRowHit(row, tree, tms, files, createFails, writeFails, codecs, net);
    }
  }

  /** Building a round leaves every round cache file as it was. */
  lemma BuiltKeepsRoundFiles(row: Row, id: RoundId, tree: map<string, seq<Path>>, tms: map<string, TestMerge>,
                             files: map<string, string>, createFails: set<string>, writeFails: set<string>,
                             codecs: Codecs, net: Network, other: RoundId)
    ensures var after := Built(row, id, tree, tms, files, createFails, writeFails, codecs, net).2;
            && (RoundFile(other) in after <==> RoundFile(other) in files)
            && (RoundFile(other) in after ==> after[RoundFile(other)] == files[RoundFile(other)])
  {
    if RowDetails(row).Ok? {
      var merged := DedupAdjacent(RowDetails(row).value);
      MergesFromKeepsRoundFiles(tms, files, createFails, writeFails, codecs.testMerge, merged, net, other);
      assert Built(row, id, tree, tms, files, createFails, writeFails, codecs, net).2
             == MergesFrom(tms, files, createFails, writeFails, codecs.testMerge, merged, net).2;
    }
  }

  /** Loading a row touches no round cache file but its own. */
  lemma RoundFromRowKeepsOtherRoundFiles(row: Row, tree: map<string, seq<Path>>, tms: map<string, TestMerge>,
                                         files: map<string, string>, createFails: set<string>, writeFails: set<string>,
                                         codecs: Codecs, net: Network, id: RoundId)
    requires row.id.Some? && RoundFile(id) != RoundFile(row.id.value)
    ensures var after := RoundFromRow(row, tree, tms, files, createFails, writeFails, codecs, net).2;
            && (RoundFile(id) in after <==> RoundFile(id) in files)
            && (RoundFile(id) in after ==> after[RoundFile(id)] == files[RoundFile(id)])
  {
    var own := RoundFile(row.id.value);
    RoundCacheFileIsRoundFile(row.id.value);
    if own !in files {
      var b := Built(row, row.id.value, tree, tms, files, createFails, writeFails, codecs, net);
      BuiltKeepsRoundFiles(row, row.id.value, tree, tms, files, createFails, writeFails, codecs, net, id);
      var after := RoundFromRow(row, tree, tms, files, createFails, writeFails, codecs, net).2;
      assert after == b.2 || after == FileCache.AfterWrite(b.2, createFails, writeFails, own, codecs.round.encode(b.0.value));
    }
  }

  /** A row's load never changes or removes a round cache file that exists. */
  lemma RowStepKeepsRoundFile(row: Row, tree: map<string, seq<Path>>, tms: map<string, TestMerge>,
                              files: map<string, string>, createFails: set<string>, writeFails: set<string>,
                              codecs: Codecs, net: Network, id: RoundId)
    requires RoundFile(id) in files
    ensures var after := RowStep(row, tree, tms, files, createFails, writeFails, codecs, net).2;
            RoundFile(id) in after && after[RoundFile(id)] == files[RoundFile(id)]
  {
    if row.id.Some? {
      if RoundFile(row.id.value) in files {
        RoundFromRowHit(row, tree, tms, files, createFails, writeFails, codecs, net);
      } else {
        RoundFromRowKeepsOtherRoundFiles(row, tree, tms, files, createFails, writeFails, codecs, net, id);
      }
    }
  }

  /** A row's load creates no round cache file but its own. */
  lemma RowStepKeepsAbsentRoundFile(row: Row, tree: map<string, seq<Path>>, tms: map<string, TestMerge>,
                                    files: map<string, string>, createFails: set<string>, writeFails: set<string>,
                                    codecs: Codecs, net: Network, id: RoundId)
    requires RoundFile(id) !in files && row.id != Some(id)
    ensures RoundFile(id) !in RowStep(row, tree, tms, files, createFails, writeFails, codecs, net).2
  {
    if row.id.Some? {
      if RoundFile(row.id.value) == RoundFile(id) {
        RoundFileInjective(row.id.value, id);
      }
      RoundFromRowKeepsOtherRoundFiles(row, tree, tms, files, createFails, writeFails, codecs, net, id);
    }
  }

  /** The row loop keeps the map keyed by commit. */
  lemma {:induction false} LoadAllKeyed(rows: seq<Row>, tree: map<string, seq<Path>>, tms: map<string, TestMerge>,
                                        files: map<string, string>, createFails: set<string>, writeFails: set<string>,
                                        codecs: Codecs, net: Network)
    requires KeyedByCommit(tms)
    ensures KeyedByCommit(LoadAll(rows, tree, tms, files, createFails, writeFails, codecs, net).1)
    decreases |rows|
  {
    if rows != [] {
      var n := |rows| - 1;
      var prev := LoadAll(rows[..n], tree, tms, files, createFails, writeFails, codecs, net);
      var step := RowStep(rows[n], tree, prev.1, prev.2, createFails, writeFails, codecs, net);
      assert LoadAll(rows, tree, tms, files, createFails, writeFails, codecs, net).1 == step.1;
      LoadAllKeyed(rows[..n], tree, tms, files, createFails, writeFails, codecs, net);
      RowStepKeyed(rows[n], tree, prev.1, prev.2, createFails, writeFails, codecs, net);
    }
  }

  /** The row loop never changes or removes a round cache file that exists. */
  lemma {:induction false} LoadAllKeepsRoundFile(rows: seq<Row>, tree: map<string, seq<Path>>, tms: map<string, TestMerge>,
                                                 files: map<string, string>, createFails: set<string>, writeFails: set<string>,
                                                 codecs: Codecs, net: Network, id: RoundId)
    requires RoundFile(id) in files
    ensures var after := LoadAll(rows, tree, tms, files, createFails, writeFails, codecs, net).2;
            RoundFile(id) in after && after[RoundFile(id)] == files[RoundFile(id)]
    decreases |rows|
  {
    if rows != [] {
      var n := |rows| - 1;
      var prev := LoadAll(rows[..n], tree, tms, files, createFails, writeFails, codecs, net);
      var step := RowStep(rows[n], tree, prev.1, prev.2, createFails, writeFails, codecs, net);
      assert LoadAll(rows, tree, tms, files, createFails, writeFails, codecs, net).2 == step.2;
      LoadAllKeepsRoundFile(rows[..n], tree, tms, files, createFails, writeFails, codecs, net, id);
      RowStepKeepsRoundFile(rows[n], tree, prev.1, prev.2, createFails, writeFails, codecs, net, id);
    }
  }

  /** The row loop creates no cache file for a round none of its rows names. */
  lemma {:induction false} LoadAllKeepsAbsentRoundFile(rows: seq<Row>, tree: map<string, seq<Path>>,
                                                       tms: map<string, TestMerge>, files: map<string, string>,
                                                       createFails: set<string>, writeFails: set<string>,
                                                       codecs: Codecs, net: Network, id: RoundId)
    requires RoundFile(id) !in files
    requires forall j :: 0 <= j < |rows| ==> rows[j].id != Some(id)
    ensures RoundFile(id) !in LoadAll(rows, tree, tms, files, createFails, writeFails, codecs, net).2
    decreases |rows|
  {
    if rows != [] {
      var n := |rows| - 1;
      var prev := LoadAll(rows[..n], tree, tms, files, createFails, writeFails, codecs, net);
      var step := RowStep(rows[n], tree, prev.1, prev.2, createFails, writeFails, codecs, net);
      assert LoadAll(rows, tree, tms, files, createFails, writeFails, codecs, net).2 == step.2;
      forall j | 0 <= j < n
        ensures rows[..n][j].id != Some(id)
      {
        assert rows[..n][j] == rows[j];
      }
      LoadAllKeepsAbsentRoundFile(rows[..n], tree, tms, files, createFails, writeFails, codecs, net, id);
      RowStepKeepsAbsentRoundFile(rows[n], tree, prev.1, prev.2, createFails, writeFails, codecs, net, id);
    }
  }

  /** A row whose round was cached before the loop gets that cache file, decoded. */
  lemma LoadAllCachedRound(rows: seq<Row>, i: nat, tree: map<string, seq<Path>>, tms: map<string, TestMerge>,
                           files: map<string, string>, createFails: set<string>, writeFails: set<string>,
                           codecs: Codecs, net: Network)
    requires i < |rows| && rows[i].id.Some? && RoundFile(rows[i].id.value) in files
    ensures var o := LoadAll(rows, tree, tms, files, createFails, writeFails, codecs, net).0[i];
            var cached := codecs.round.decode(files[RoundFile(rows[i].id.value)]);
            && (o.Ok? <==> cached.Some?)
            && (o.Ok? ==> Some(o.value) == cached)
  {
    var before := LoadAll(rows[..i], tree, tms, files, createFails, writeFails, codecs, net);
    LoadAllOutcome(rows, i, tree, tms, files, createFails, writeFails, codecs, net);
    LoadAllKeepsRoundFile(rows[..i], tree, tms, files, createFails, writeFails, codecs, net, rows[i].id.value);
    RoundFromRowHit(rows[i], tree, before.1, before.2, createFails, writeFails, codecs, net);
  }

  /**
   * The first row naming a round that was not cached builds it: the load
   * succeeds exactly when the details parse, the port and the commit hash
   * are present and the cache file can be written, and the round has the
   * row's id, time, revision, server name and runtimes.
   */
  lemma LoadAllFreshRound(rows: seq<Row>, i: nat, tree: map<string, seq<Path>>, tms: map<string, TestMerge>,
                          files: map<string, string>, createFails: set<string>, writeFails: set<string>,
                          codecs: Codecs, net: Network)
    requires KeyedByCommit(tms)
    requires i < |rows| && rows[i].id.Some? && RoundFile(rows[i].id.value) !in files
    requires forall j :: 0 <= j < i ==> rows[j].id != rows[i].id
    ensures var o := LoadAll(rows, tree, tms, files, createFails, writeFails, codecs, net).0[i];
            var row := rows[i];
            && (o.Ok? <==> && RowDetails(row).Ok? && row.serverPort.Some? && row.commitHash.Some?
                           && RoundFile(row.id.value) !in createFails && RoundFile(row.id.value) !in writeFails)
            && (o.Ok? ==>
                  var rt := RuntimesFrom(tree, row.id.value, row.serverPort.value, row.initializeDatetime, net);
                  && o.value.roundId == row.id.value
                  && o.value.timestamp == row.initializeDatetime
                  && o.value.revision == row.commitHash.value
                  && o.value.server == ServerName(row.serverPort.value)
                  && o.value.runtimes == (if rt.Ok? then Some(rt.value) else None)
                  && |o.value.testMerges| == |DedupAdjacent(RowDetails(row).value)|)
  {
    var before := LoadAll(rows[..i], tree, tms, files, createFails, writeFails, codecs, net);
    LoadAllOutcome(rows, i, tree, tms, files, createFails, writeFails, codecs, net);
    assert forall j :: 0 <= j < i ==> rows[..i][j] == rows[j];
    LoadAllKeepsAbsentRoundFile(rows[..i], tree, tms, files, createFails, writeFails, codecs, net, rows[i].id.value);
    LoadAllKeyed(rows[..i], tree, tms, files, createFails, writeFails, codecs, net);
    RoundFromRowMiss(rows[i], tree, before.1, before.2, createFails, writeFails, codecs, net);
  }

  class RoundCollectionContext {
    /** File name -> every tree path with that name. */
    var gitTree: map<string, seq<Path>>
    /** Commit -> its test merge. */
    var testMerges: map<string, TestMerge>

    ghost predicate Valid()
      reads this
    {
      KeyedByCommit(testMerges)
    }

    /**
     * `reload`: every readable file of the test-merge cache directory, stored
     * under its commit (the directory order decides between two files of one
     * commit), then the repository tree.
     */
    constructor Reload(disk: FileCache.Disk, codecs: Codecs, net: Network)
      requires net.tree.TreeListed? ==> AllNamed(net.tree.paths)
      modifies disk
      ensures Valid()
      ensures forall c :: c in testMerges ==> CachedTestMerge(old(disk.files), codecs.testMerge, testMerges[c])
      ensures HoldsEveryCachedCommit(old(disk.files), codecs.testMerge, testMerges)
      ensures (gitTree, disk.files) == GitTree(old(disk.files), disk.createFails, disk.writeFails, codecs.tree, net.tree)
    {
      var files := disk.files;
      var entries := set p | p in files && InDir(p, TEST_MERGE_DIR);
      ghost var all := entries;
      var tms: map<string, TestMerge> := map[];
      while entries != {}
        invariant entries <= all
        invariant KeyedByCommit(tms)
        invariant forall c :: c in tms ==> CachedTestMerge(files, codecs.testMerge, tms[c])
        invariant forall p :: p in all - entries && codecs.testMerge.decode(files[p]).Some?
                    ==> codecs.testMerge.decode(files[p]).value.details.commit in tms
        decreases |entries|
      {
        var p :| p in entries;
        match codecs.testMerge.decode(files[p]) {
          case Some(tm) => tms := tms[tm.details.commit := tm];
          case None =>
        }
        entries := entries - {p};
      }
      var tree := GetGitTree(disk, codecs.tree, net.tree);
      gitTree := tree;
      testMerges := tms;
    }

    /** `get_git_tree`. */
    static method GetGitTree(disk: FileCache.Disk, codec: FileCache.Codec<map<string, seq<Path>>>, fetch: TreeFetch)
      returns (names: map<string, seq<Path>>)
      requires fetch.TreeListed? ==> AllNamed(fetch.paths)
      modifies disk
      ensures (names, disk.files) == GitTree(old(disk.files), disk.createFails, disk.writeFails, codec, fetch)
    {
      match fetch {
        case TreeListed(paths) =>
          names := GroupByFileName(paths);
          var _ := disk.Write(GIT_TREE_CACHE_FILE, codec.encode(names));
        case _ =>
          names := map[];
          if GIT_TREE_CACHE_FILE in disk.files {
            var decoded := codec.decode(disk.files[GIT_TREE_CACHE_FILE]);
            if decoded.Some? {
              names := decoded.value;
            }
          }
      }
    }

    /** `test_merge_from_details`. */
    method TestMergeFromDetails(details: TestMergeDetails, net: Network, disk: FileCache.Disk,
                                codec: FileCache.Codec<TestMerge>) returns (tm: TestMerge)
      requires Valid()
      modifies this, disk
      ensures Valid() && gitTree == old(gitTree)
      ensures (tm, testMerges, disk.files)
              == MergeLookup(old(testMerges), old(disk.files), disk.createFails, disk.writeFails, codec, details, net.Pull(details.number))
    {
      if details.commit in testMerges {
        return testMerges[details.commit];
      }
      tm := TestMerge(details, FilesChanged(net.Pull(details.number)));
      testMerges := testMerges[details.commit := tm];
      var _ := disk.Write(CacheFilePath(tm), codec.encode(tm));
    }

    /**
     * `load_runtimes_from`: fetch and parse the round's log, then give every
     * batch without a definite location the tree's paths for its file name, in place.
     */
    method LoadRuntimesFrom(id: RoundId, port: Servers.Port, t: Timestamp, net: Network)
      returns (r: Result<seq<RuntimeBatch>>)
      ensures r == RuntimesFrom(gitTree, id, port, t, net)
    {
      var server := Servers.ServerByPort(port);
      if server.None? {
        return Err("unknown server: " + NatToDecimal(port));
      }
      var url := RuntimesUrl(server.value.name, t, id);
      if url !in net.logs {
        return Err("couldn't get runtime.condensed.txt");
      }
      var parsed := GetRuntimesForRound(net.logs[url]);
      if parsed.Err? {
        return Err(parsed.error);
      }
      var a := ToArray(parsed.value);
      EnrichInPlace(a);
      r := Ok(a[..]);
    }

    static method ToArray(batches: seq<RuntimeBatch>) returns (a: array<RuntimeBatch>)
      ensures fresh(a) && a[..] == batches
    {
      a := new RuntimeBatch[|batches|](i requires 0 <= i < |batches| => batches[i]);
    }

    /** The `iter_mut` loop of `load_runtimes_from`. */
    method EnrichInPlace(a: array<RuntimeBatch>)
      modifies a
      ensures a[..] == EnrichAll(gitTree, old(a[..]))
    {
      ghost var before := a[..];
      for i := 0 to a.Length
        invariant forall k :: 0 <= k < i ==> a[k] == Enrich(gitTree, before[k])
        invariant forall k :: i <= k < a.Length ==> a[k] == before[k]
      {
        var b := a[i];
        if b.bestGuessFilenames.Some? && b.bestGuessFilenames.value.Definitely? {
          continue;
        }
        if b.sourceFile in gitTree {
          a[i] := b.(bestGuessFilenames := Some(Possible(gitTree[b.sourceFile])));
        }
      }
      assert a[..] == EnrichAll(gitTree, before);
    }

    /** The loop of `load_round_from_row` over the deduplicated details. */
    method CollectTestMerges(merged: seq<TestMergeDetails>, net: Network, disk: FileCache.Disk,
                             codec: FileCache.Codec<TestMerge>) returns (tms: seq<TestMerge>)
      requires Valid()
      modifies this, disk
      ensures Valid() && gitTree == old(gitTree)
      ensures (tms, testMerges, disk.files)
              == MergesFrom(old(testMerges), old(disk.files), disk.createFails, disk.writeFails, codec, merged, net)
    {
      tms := [];
      for k := 0 to |merged|
        invariant Valid() && gitTree == old(gitTree)
        invariant (tms, testMerges, disk.files)
                  == MergesFrom(old(testMerges), old(disk.files), disk.createFails, disk.writeFails, codec, merged[..k], net)
      {
        assert merged[..k + 1][..k] == merged[..k];
        var tm := TestMergeFromDetails(merged[k], net, disk, codec);
        tms := tms + [tm];
      }
      assert merged[..|merged|] == merged;
    }

    /** The body of the closure `load_round_from_row` hands to `from_cache_or`. */
    method BuildRound(row: Row, id: RoundId, net: Network, disk: FileCache.Disk, codecs: Codecs)
      returns (r: Result<Round>)
      requires Valid()
      modifies this, disk
      ensures Valid() && gitTree == old(gitTree)
      ensures (r, testMerges, disk.files)
              == Built(row, id, gitTree, old(testMerges), old(disk.files), disk.createFails, disk.writeFails, codecs, net)
    {
      var details := RowDetails(row);
      if details.Err? {
        return Err(details.error);
      }
      var merged := DedupDetails(details.value);
      var tms := CollectTestMerges(merged, net, disk, codecs.testMerge);
      if row.serverPort.None? {
        return Err("couldn't read server_port");
      }
      var port := row.serverPort.value;
      var server := ServerName(port);
      if row.commitHash.None? {
        return Err("couldn't read commit_hash");
      }
      var runtimes := LoadRuntimesFrom(id, port, row.initializeDatetime, net);
      r := Ok(Round(id, row.initializeDatetime, row.commitHash.value, server,
                    if runtimes.Ok? then Some(runtimes.value) else None, tms));
    }

    /**
     * `load_round_from_row`: a row without an id is an error; otherwise the
     * round's cache file is decoded if it exists, and the round is built and
     * stored if it does not.
     */
    method LoadRoundFromRow(row: Row, net: Network, disk: FileCache.Disk, codecs: Codecs)
      returns (r: Result<Round>)
      requires Valid()
      modifies this, disk
      ensures Valid() && gitTree == old(gitTree)
      ensures (r, testMerges, disk.files)
              == RoundFromRow(row, gitTree, old(testMerges), old(disk.files), disk.createFails, disk.writeFails, codecs, net)
    {
      if row.id.None? {
        return Err("couldn't read id");
      }
      var id := row.id.value;
      var path := RoundCachePath(id);
      var l := FileCache.Probe(disk, codecs.round, path);
      match l {
        case Hit(v) => r := Ok(v);
        case Undecodable => r := Err("couldn't decode cached value");
        case Miss =>
          var built := BuildRound(row, id, net, disk, codecs);
          if built.Err? {
            return built;
          }
          r := FileCache.Store(disk, codecs.round, path, built.value);
      }
    }
  }

  lemma SuccessesSnoc<T>(outcomes: seq<Result<T>>, o: Result<T>)
    ensures Successes(outcomes + [o]) == Successes(outcomes) + (if o.Ok? then [o.value] else [])
  {
    assert (outcomes + [o])[..|outcomes|] == outcomes;
  }

  /**
   * `load_rounds_over_cloud`: the context is reloaded first, then the round
   * query runs (`None` when it fails, which fails the whole call).  Rows are
   * loaded in order; a row without an id or whose load fails is skipped, and
   * no row can fail the call.  `outcomes` records each row's load and
   * `reloaded` the test merges the reload found; the disk after the reload
   * is the one the tree step leaves.
   */
  method LoadRoundsOverCloud(query: Option<seq<Row>>, net: Network, disk: FileCache.Disk, codecs: Codecs)
    returns (r: Result<seq<Round>>, ghost outcomes: seq<Result<Round>>, ghost reloaded: map<string, TestMerge>)
    requires net.tree.TreeListed? ==> AllNamed(net.tree.paths)
    modifies disk
    ensures r.Ok? <==> query.Some?
    ensures KeyedByCommit(reloaded)
    ensures forall c :: c in reloaded ==> CachedTestMerge(old(disk.files), codecs.testMerge, reloaded[c])
    ensures HoldsEveryCachedCommit(old(disk.files), codecs.testMerge, reloaded)
    ensures query.None? ==> disk.files == GitTree(old(disk.files), disk.createFails, disk.writeFails, codecs.tree, net.tree).1
    ensures query.Some? ==>
              var start := GitTree(old(disk.files), disk.createFails, disk.writeFails, codecs.tree, net.tree);
              var all := LoadAll(query.value, start.0, reloaded, start.1, disk.createFails, disk.writeFails, codecs, net);
              outcomes == all.0 && disk.files == all.2
    ensures r.Ok? ==> r.value == Successes(outcomes)
  {
    var context := new RoundCollectionContext.Reload(disk, codecs, net);
    outcomes, reloaded := [], context.testMerges;
    if query.None? {
      return Err("couldn't run the round query"), outcomes, reloaded;
    }
    var rounds;
    rounds, outcomes := LoadRows(context, query.value, net, disk, codecs);
    r := Ok(rounds);
  }

  /** The row loop of `load_rounds_over_cloud`: every row in order, keeping the rounds that load. */
  method LoadRows(context: RoundCollectionContext, rows: seq<Row>, net: Network, disk: FileCache.Disk, codecs: Codecs)
    returns (rounds: seq<Round>, ghost outcomes: seq<Result<Round>>)
    requires context.Valid()
    modifies context, disk
    ensures context.Valid() && context.gitTree == old(context.gitTree)
    ensures (outcomes, context.testMerges, disk.files)
            == LoadAll(rows, context.gitTree, old(context.testMerges), old(disk.files), disk.createFails, disk.writeFails, codecs, net)
    ensures rounds == Successes(outcomes)
  {
    ghost var tree, tms, files := context.gitTree, context.testMerges, disk.files;
    outcomes, rounds := [], [];
    assert rows[..0] == [];
    for i := 0 to |rows|
      invariant context.Valid() && context.gitTree == tree
      invariant (outcomes, context.testMerges, disk.files)
                == LoadAll(rows[..i], tree, tms, files, disk.createFails, disk.writeFails, codecs, net)
      invariant rounds == Successes(outcomes)
    {
      LoadAllSnoc(rows[..i], rows[i], tree, tms, files, disk.createFails, disk.writeFails, codecs, net);
      assert rows[..i] + [rows[i]] == rows[..i + 1];
      var loaded := LoadRow(context, rows[i], net, disk, codecs);
      if loaded.Ok? {
        rounds := rounds + [loaded.value];
      }
      SuccessesSnoc(outcomes, loaded);
      outcomes := outcomes + [loaded];
    }
    assert rows[..|rows|] == rows;
  }

  /** One row of `load_rounds_over_cloud`: a row without an id is skipped, any other is loaded. */
  method LoadRow(context: RoundCollectionContext, row: Row, net: Network, disk: FileCache.Disk, codecs: Codecs)
    returns (loaded: Result<Round>)
    requires context.Valid()
    modifies context, disk
    ensures context.Valid() && context.gitTree == old(context.gitTree)
    ensures (loaded, context.testMerges, disk.files)
            == RowStep(row, context.gitTree, old(context.testMerges), old(disk.files), disk.createFails, disk.writeFails, codecs, net)
  {
    if row.id.None? {
      loaded := Err("round with no id found, skipping");
    } else {
      loaded := context.LoadRoundFromRow(row, net, disk, codecs);
    }
  }
}
