/**
 * The page for one runtime key (`RuntimeViewer`): the exception text, the
 * rounds in which the runtime occurred with their counts, and the GitHub
 * links to the files it may come from, at each round's revision and at
 * master.
 */
module RuntimeViewer {
  import opened Wrappers
  import opened Text
  import opened Runtimes
  import opened RuntimeKey
  import Rounds
  import Sorting

  type Round = Rounds.Round

  // ---------------------------------------------------------------------------
  // Links and the code file shown for them

  /** The repository's tree on GitHub: its address followed by the marker `extractCodeFile` looks for. */
  const GITHUB_TREE: string := "https://github.com/tgstation/" + CODE_FILE_MARKER

  /** The link `addFilename` builds: a file at a revision, anchored at a line. */
  function Url(revision: string, filename: string, line: nat): string
  {
    GITHUB_TREE + revision + "/" + filename + "#L" + NatToDecimal(line)
  }

  /** The literal part of `/tgstation\/tree\/.+?\/(.+)$/`. */
  const CODE_FILE_MARKER: string := "tgstation/tree/"

  /** The characters a JavaScript `.` does not match. */
  predicate IsLineTerminator(c: char)
  {
    c == '\n' || c == '\r' || c == '\U{2028}' || c == '\U{2029}'
  }

  predicate NoLineTerminator(s: string)
  {
    forall i :: 0 <= i < |s| ==> !IsLineTerminator(s[i])
  }

  /** The index of the first '/' of `s` at or after `k`, or `|s|` when there is none. */
  function FirstSlashFrom(s: string, k: nat): (j: nat)
    decreases |s| - k
  {
    if k >= |s| then |s| else if s[k] == '/' then k else FirstSlashFrom(s, k + 1)
  }

  /**
   * The pattern tried at index `i`: the marker, then the shortest non-empty
   * segment `.+?` up to a '/', then `(.+)$`, a non-empty rest running to the
   * end.  None of the three parts may hold a line terminator, so the match
   * needs the whole text from the segment on to be free of them.  Yields the
   * index of the '/' that closes the segment.
   */
  function MatchAt(s: string, i: nat): Option<nat>
  {
    if OccursAt(s, CODE_FILE_MARKER, i) && NoLineTerminator(s[i + |CODE_FILE_MARKER|..]) then
      var j := FirstSlashFrom(s, i + |CODE_FILE_MARKER| + 1);
      if j + 1 < |s| then Some(j) else None
    else None
  }

  /** The leftmost index from `i` on at which the pattern matches. */
  function FirstMatch(s: string, i: nat): Option<nat>
    decreases |s| - i
  {
    if i >= |s| then None
    else match MatchAt(s, i)
      case Some(j) => Some(j)
      case None => FirstMatch(s, i + 1)
  }

  /** `extractCodeFile`: the first capture group when the pattern matches, else the input. */
  function ExtractCodeFile(filename: string): string
  {
    match FirstMatch(filename, 0)
    case Some(j) => if j + 1 <= |filename| then filename[j + 1..] else filename
    case None => filename
  }

  /** Without the marker anywhere, the pattern cannot match and the text is shown as it is. */
  lemma NoMarkerNoChange(filename: string)
    requires !Contains(filename, CODE_FILE_MARKER)
    ensures ExtractCodeFile(filename) == filename
  {
    ContainsIff(filename, CODE_FILE_MARKER);
    NoMatchFrom(filename, 0);
  }

  lemma {:induction false} NoMatchFrom(s: string, i: nat)
    requires forall k: nat :: !OccursAt(s, CODE_FILE_MARKER, k)
    ensures FirstMatch(s, i) == None
    decreases |s| - i
  {
    if i < |s| {
      NoMatchFrom(s, i + 1);
    }
  }

  /**
   * On a link `addFilename` builds, the shown code file is the file name with
   * its line anchor: the revision segment is dropped.  The revision must be a
   * non-empty single path segment, and neither it nor the file may hold a
   * line break.
   */
  lemma ExtractOfUrl(revision: string, filename: string, line: nat)
    requires revision != [] && NoLineTerminator(revision) && NoLineTerminator(filename)
    requires forall k :: 0 <= k < |revision| ==> revision[k] != '/'
    ensures ExtractCodeFile(Url(revision, filename, line)) == filename + "#L" + NatToDecimal(line)
  {
    var u := Url(revision, filename, line);
    var rest := filename + "#L" + NatToDecimal(line);
    var tail := revision + "/" + rest;
    assert u == GITHUB_TREE + tail;
    assert u == GITHUB_TREE + revision + "/" + rest;
    MarkerNotBefore29(tail);
    AnchorNoLineTerminator(filename, line);
    MatchAt29(revision, rest);
    FirstMatchFrom29(u, 0);
    assert u[|GITHUB_TREE| + |revision| + 1..] == rest;
  }

  /** A file name with a line anchor holds no line break when the file name holds none. */
  lemma AnchorNoLineTerminator(filename: string, line: nat)
    requires NoLineTerminator(filename)
    ensures NoLineTerminator(filename + "#L" + NatToDecimal(line))
  {
    var rest := filename + "#L" + NatToDecimal(line);
    NatToDecimalDenotes(line);
    forall k | 0 <= k < |rest| ensures !IsLineTerminator(rest[k]) {
      if k >= |filename| + 2 {
        assert rest[k] == NatToDecimal(line)[k - |filename| - 2];
      }
    }
  }

  /** In a link, the pattern matches at the marker, with the revision as the lazy segment. */
  lemma MatchAt29(revision: string, rest: string)
    requires revision != [] && NoLineTerminator(revision) && NoLineTerminator(rest) && rest != []
    requires forall k :: 0 <= k < |revision| ==> revision[k] != '/'
    ensures MatchAt(GITHUB_TREE + revision + "/" + rest, 29) == Some(|GITHUB_TREE| + |revision|)
  {
    var u := GITHUB_TREE + revision + "/" + rest;
    var seg := GITHUB_TREE + revision;
    assert u == seg + "/" + rest;
    assert OccursAt(u, CODE_FILE_MARKER, 29) by {
      assert u[29..44] == GITHUB_TREE[29..44] == CODE_FILE_MARKER;
    }
    assert NoLineTerminator(u[44..]) by {
      assert u[44..] == revision + "/" + rest;
    }
    assert forall m :: 45 <= m < |seg| ==> seg[m] == revision[m - 44];
    FirstSlashOf(seg, rest, 45);
  }

  /** Where the fixed prefix of a link has its slashes. */
  lemma TreeSlashes()
    ensures forall k :: 0 <= k < |GITHUB_TREE| && GITHUB_TREE[k] == '/' ==>
              k == 6 || k == 7 || k == 18 || k == 28 || k == 38 || k == 43
  {
  }

  /** Before index 29 the marker does not start in the fixed prefix of a link. */
  lemma MarkerNotBefore29(tail: string)
    ensures forall i: nat :: i < 29 ==> !OccursAt(GITHUB_TREE + tail, CODE_FILE_MARKER, i)
  {
    var u := GITHUB_TREE + tail;
    TreeSlashes();
    forall i: nat | i < 29 ensures !OccursAt(u, CODE_FILE_MARKER, i) {
      assert u[i + 9] == GITHUB_TREE[i + 9] && u[i + 14] == GITHUB_TREE[i + 14];
      assert GITHUB_TREE[i + 9] != '/' || GITHUB_TREE[i + 14] != '/';
      assert u[i..i + 15][9] == u[i + 9] && u[i..i + 15][14] == u[i + 14];
      assert CODE_FILE_MARKER[9] == '/' && CODE_FILE_MARKER[14] == '/';
    }
  }

  /** The leftmost match, when nothing matches before index 29, is the one at 29. */
  lemma {:induction false} FirstMatchFrom29(u: string, i: nat)
    requires i <= 29 < |u|
    requires forall k: nat :: k < 29 ==> !OccursAt(u, CODE_FILE_MARKER, k)
    requires MatchAt(u, 29).Some?
    ensures FirstMatch(u, i) == MatchAt(u, 29)
    decreases 29 - i
  {
    if i < 29 {
      FirstMatchFrom29(u, i + 1);
    }
  }

  /** The first '/' at or after `k` in `seg + "/" + rest`, when `seg` has none from `k` on, is the one after `seg`. */
  lemma {:induction false} FirstSlashOf(seg: string, rest: string, k: nat)
    requires k <= |seg|
    requires forall m :: k <= m < |seg| ==> seg[m] != '/'
    ensures FirstSlashFrom(seg + "/" + rest, k) == |seg|
    decreases |seg| - k
  {
    if k < |seg| {
      FirstSlashOf(seg, rest, k + 1);
    }
  }

  // ---------------------------------------------------------------------------
  // What the page gathers, as functions of the rounds

  const NOT_FOUND: string := "Couldn't find runtime"

  /** A batch belongs to the page when its key is the route's. */
  predicate IsHit(b: RuntimeBatch, runtimeKey: string)
  {
    RuntimeToKey(b) == runtimeKey
  }

  /** The last batch of `bs` with the route's key. */
  function LastHit(bs: seq<RuntimeBatch>, runtimeKey: string): Option<RuntimeBatch>
    decreases |bs|
  {
    if bs == [] then None
    else if IsHit(bs[|bs| - 1], runtimeKey) then Some(bs[|bs| - 1])
    else LastHit(bs[..|bs| - 1], runtimeKey)
  }

  /** The heading: the exception of the last matching batch of all rounds, or `NOT_FOUND`. */
  function ExceptionAfter(rounds: seq<Round>, runtimeKey: string): string
    decreases |rounds|
  {
    if rounds == [] then NOT_FOUND
    else
      var n := |rounds| - 1;
      match LastHit(OrEmpty(rounds[n].runtimes), runtimeKey)
      case Some(b) => b.exception
      case None => ExceptionAfter(rounds[..n], runtimeKey)
  }

  /** An entry of `foundRounds`: the round (and its position in the input) with a count. */
  datatype FoundRound = FoundRound(index: nat, round: Round, count: nat)

  /** `foundRounds` as a list in insertion order: each round with a match, holding the count of its last match. */
  function FoundRounds(rounds: seq<Round>, runtimeKey: string): seq<FoundRound>
    decreases |rounds|
  {
    if rounds == [] then []
    else
      var n := |rounds| - 1;
      FoundRounds(rounds[..n], runtimeKey)
      + match LastHit(OrEmpty(rounds[n].runtimes), runtimeKey)
        case Some(b) => [FoundRound(n, rounds[n], b.count)]
        case None => []
  }

  /** The files a guess names: one when definite, each candidate when possible, none when absent. */
  function GuessedFiles(guess: Option<BestGuessFilenames>): seq<Path>
  {
    match guess
    case None => []
    case Some(Definitely(p)) => [p]
    case Some(Possible(ps)) => ps
  }

  /** The links to `files` at `revision`, anchored at `line`. */
  function FileUrls(files: seq<Path>, revision: string, line: nat): set<string>
    decreases |files|
  {
    if files == [] then {}
    else FileUrls(files[..|files| - 1], revision, line) + {Url(revision, files[|files| - 1], line)}
  }

  /** The links the matching batches of one round contribute at `revision`. */
  function BatchUrls(bs: seq<RuntimeBatch>, runtimeKey: string, revision: string): set<string>
    decreases |bs|
  {
    if bs == [] then {}
    else
      var b := bs[|bs| - 1];
      BatchUrls(bs[..|bs| - 1], runtimeKey, revision)
      + (if IsHit(b, runtimeKey) then FileUrls(GuessedFiles(b.bestGuessFilenames), revision, b.line) else {})
  }

  /** The revision a link points at: the round's own, or master. */
  function LinkRevision(r: Round, atMaster: bool): string
  {
    if atMaster then "master" else r.revision
  }

  /** `filenames` (`atMaster` false) or `masterFilenames` (`atMaster` true). */
  function Urls(rounds: seq<Round>, runtimeKey: string, atMaster: bool): set<string>
    decreases |rounds|
  {
    if rounds == [] then {}
    else
      var r := rounds[|rounds| - 1];
      Urls(rounds[..|rounds| - 1], runtimeKey, atMaster) + BatchUrls(OrEmpty(r.runtimes), runtimeKey, LinkRevision(r, atMaster))
  }

  /** `Map.prototype.set` on the entry list: replaces the entry of the same round, else appends. */
  function MapSet(entries: seq<FoundRound>, e: FoundRound): seq<FoundRound>
    decreases |entries|
  {
    if entries == [] then [e]
    else if entries[0].index == e.index then [e] + entries[1..]
    else [entries[0]] + MapSet(entries[1..], e)
  }

  /** `sortedRounds`: the entries by non-increasing count. */
  function SortedRounds(found: seq<FoundRound>): seq<FoundRound>
  {
    Sorting.SortDesc(found, FoundCount)
  }

  /** The sort key of `sortedRounds`. */
  function FoundCount(f: FoundRound): nat
  {
    f.count
  }

  // ---------------------------------------------------------------------------
  // The loops

  /**
   * The page's loops over the rounds and their batches: the heading, the
   * found rounds in insertion order and the two sets of links.
   */
  method GatherRuntime(rounds: seq<Round>, runtimeKey: string)
    returns (exception: string, foundRounds: seq<FoundRound>, filenames: set<string>, masterFilenames: set<string>)
    ensures exception == ExceptionAfter(rounds, runtimeKey)
    ensures foundRounds == FoundRounds(rounds, runtimeKey)
    ensures filenames == Urls(rounds, runtimeKey, false)
    ensures masterFilenames == Urls(rounds, runtimeKey, true)
  {
    exception, foundRounds, filenames, masterFilenames := NOT_FOUND, [], {}, {};
    for i := 0 to |rounds|
      invariant exception == ExceptionAfter(rounds[..i], runtimeKey)
      invariant foundRounds == FoundRounds(rounds[..i], runtimeKey)
      invariant filenames == Urls(rounds[..i], runtimeKey, false)
      invariant masterFilenames == Urls(rounds[..i], runtimeKey, true)
    {
      assert rounds[..i + 1][..i] == rounds[..i];
      FoundRoundsBelow(rounds[..i], runtimeKey);
      if rounds[i].runtimes.None? {
        continue;
      }
      exception, foundRounds, filenames, masterFilenames :=
        GatherRound(rounds[i], i, runtimeKey, exception, foundRounds, filenames, masterFilenames);
    }
    assert rounds[..|rounds|] == rounds;
  }

  /** The inner loop over one round's batches. */
  method GatherRound(round: Round, index: nat, runtimeKey: string, exception: string, foundRounds: seq<FoundRound>,
                     filenames: set<string>, masterFilenames: set<string>)
    returns (exception': string, foundRounds': seq<FoundRound>, filenames': set<string>, masterFilenames': set<string>)
    requires round.runtimes.Some?
    requires forall p :: 0 <= p < |foundRounds| ==> foundRounds[p].index < index
    ensures exception' == match LastHit(round.runtimes.value, runtimeKey)
                          case Some(b) => b.exception
                          case None => exception
    ensures foundRounds' == foundRounds + match LastHit(round.runtimes.value, runtimeKey)
                                          case Some(b) => [FoundRound(index, round, b.count)]
                                          case None => []
    ensures filenames' == filenames + BatchUrls(round.runtimes.value, runtimeKey, round.revision)
    ensures masterFilenames' == masterFilenames + BatchUrls(round.runtimes.value, runtimeKey, "master")
  {
    var bs := round.runtimes.value;
    exception', foundRounds', filenames', masterFilenames' := exception, foundRounds, filenames, masterFilenames;
    for k := 0 to |bs|
      invariant exception' == match LastHit(bs[..k], runtimeKey)
                              case Some(b) => b.exception
                              case None => exception
      invariant foundRounds' == foundRounds + match LastHit(bs[..k], runtimeKey)
                                              case Some(b) => [FoundRound(index, round, b.count)]
                                              case None => []
      invariant filenames' == filenames + BatchUrls(bs[..k], runtimeKey, round.revision)
      invariant masterFilenames' == masterFilenames + BatchUrls(bs[..k], runtimeKey, "master")
    {
      assert bs[..k + 1][..k] == bs[..k];
      var runtime := bs[k];
      if RuntimeToKey(runtime) != runtimeKey {
        continue;
      }
      exception' := runtime.exception;
      MapSetOfNew(foundRounds, FoundRound(index, round, runtime.count));
      if LastHit(bs[..k], runtimeKey).Some? {
        MapSetOfLast(foundRounds, FoundRound(index, round, LastHit(bs[..k], runtimeKey).value.count),
                     FoundRound(index, round, runtime.count));
      }
      foundRounds' := MapSet(foundRounds', FoundRound(index, round, runtime.count));
      filenames', masterFilenames' := AddGuesses(runtime.bestGuessFilenames, round.revision, runtime.line,
                                                 filenames', masterFilenames');
    }
    assert bs[..|bs|] == bs;
  }

  /** The `bestGuessFilenames` branch: `addFilename` once for a definite guess, once per candidate for a possible one. */
  method AddGuesses(guess: Option<BestGuessFilenames>, revision: string, line: nat,
                    filenames: set<string>, masterFilenames: set<string>)
    returns (filenames': set<string>, masterFilenames': set<string>)
    ensures filenames' == filenames + FileUrls(GuessedFiles(guess), revision, line)
    ensures masterFilenames' == masterFilenames + FileUrls(GuessedFiles(guess), "master", line)
  {
    filenames', masterFilenames' := filenames, masterFilenames;
    match guess {
      case None =>
      case Some(Definitely(p)) =>
        assert [p][..0] == [];
        filenames', masterFilenames' := AddFilename(p, revision, line, filenames', masterFilenames');
      case Some(Possible(ps)) =>
        for k := 0 to |ps|
          invariant filenames' == filenames + FileUrls(ps[..k], revision, line)
          invariant masterFilenames' == masterFilenames + FileUrls(ps[..k], "master", line)
        {
          assert ps[..k + 1][..k] == ps[..k];
          filenames', masterFilenames' := AddFilename(ps[k], revision, line, filenames', masterFilenames');
        }
        assert ps[..|ps|] == ps;
    }
  }

  /** `addFilename`: the file's link at the round's revision and at master. */
  method AddFilename(filename: Path, revision: string, line: nat, filenames: set<string>, masterFilenames: set<string>)
    returns (filenames': set<string>, masterFilenames': set<string>)
    ensures filenames' == filenames + {Url(revision, filename, line)}
    ensures masterFilenames' == masterFilenames + {Url("master", filename, line)}
  {
    filenames' := filenames + {Url(revision, filename, line)};
    masterFilenames' := masterFilenames + {Url("master", filename, line)};
  }

  // ---------------------------------------------------------------------------
  // Facts

  /** Setting a round not yet in the map appends its entry. */
  lemma {:induction false} MapSetOfNew(entries: seq<FoundRound>, e: FoundRound)
    requires forall p :: 0 <= p < |entries| ==> entries[p].index != e.index
    ensures MapSet(entries, e) == entries + [e]
    decreases |entries|
  {
    if entries != [] {
      MapSetOfNew(entries[1..], e);
    }
  }

  /** Setting the round of the last entry again replaces that entry. */
  lemma {:induction false} MapSetOfLast(entries: seq<FoundRound>, last: FoundRound, e: FoundRound)
    requires forall p :: 0 <= p < |entries| ==> entries[p].index != e.index
    requires last.index == e.index
    ensures MapSet(entries + [last], e) == entries + [e]
    decreases |entries|
  {
    if entries != [] {
      assert (entries + [last])[1..] == entries[1..] + [last];
      MapSetOfLast(entries[1..], last, e);
    } else {
      assert entries + [last] == [last];
    }
  }

  /** Every found round lies before the rounds not yet visited. */
  lemma {:induction false} FoundRoundsBelow(rounds: seq<Round>, runtimeKey: string)
    ensures forall p :: 0 <= p < |FoundRounds(rounds, runtimeKey)| ==> FoundRounds(rounds, runtimeKey)[p].index < |rounds|
    decreases |rounds|
  {
    if rounds != [] {
      FoundRoundsBelow(rounds[..|rounds| - 1], runtimeKey);
    }
  }

  /** The last hit is a matching batch of the round with no match after it; there is none only when nothing matches. */
  lemma {:induction false} LastHitSpec(bs: seq<RuntimeBatch>, runtimeKey: string)
    ensures LastHit(bs, runtimeKey).None? <==> forall k :: 0 <= k < |bs| ==> !IsHit(bs[k], runtimeKey)
    ensures LastHit(bs, runtimeKey).Some? ==>
              exists k :: 0 <= k < |bs| && bs[k] == LastHit(bs, runtimeKey).value && IsHit(bs[k], runtimeKey)
                          && forall j :: k < j < |bs| ==> !IsHit(bs[j], runtimeKey)
    decreases |bs|
  {
    if bs != [] {
      var n := |bs| - 1;
      LastHitSpec(bs[..n], runtimeKey);
      if !IsHit(bs[n], runtimeKey) && LastHit(bs[..n], runtimeKey).Some? {
        var k :| 0 <= k < n && bs[..n][k] == LastHit(bs, runtimeKey).value && IsHit(bs[..n][k], runtimeKey)
                 && forall j :: k < j < n ==> !IsHit(bs[..n][j], runtimeKey);
        assert bs[k] == bs[..n][k];
      }
    }
  }

  /** The round has a batch with the route's key. */
  predicate HasHit(r: Round, runtimeKey: string)
  {
    LastHit(OrEmpty(r.runtimes), runtimeKey).Some?
  }

  /** When no round matches, the heading is `NOT_FOUND`. */
  lemma {:induction false} ExceptionWhenNotFound(rounds: seq<Round>, runtimeKey: string)
    requires forall i :: 0 <= i < |rounds| ==> !HasHit(rounds[i], runtimeKey)
    ensures ExceptionAfter(rounds, runtimeKey) == NOT_FOUND
    decreases |rounds|
  {
    if rounds != [] {
      var n := |rounds| - 1;
      assert forall i :: 0 <= i < n ==> rounds[..n][i] == rounds[i];
      ExceptionWhenNotFound(rounds[..n], runtimeKey);
    }
  }

  /** When a round matches, the heading is the exception of the last match of the last round that has one. */
  lemma {:induction false} ExceptionWhenFound(rounds: seq<Round>, runtimeKey: string, i: nat)
    requires i < |rounds| && HasHit(rounds[i], runtimeKey)
    requires forall j :: i < j < |rounds| ==> !HasHit(rounds[j], runtimeKey)
    ensures ExceptionAfter(rounds, runtimeKey) == LastHit(OrEmpty(rounds[i].runtimes), runtimeKey).value.exception
    decreases |rounds|
  {
    var n := |rounds| - 1;
    if i < n {
      assert forall j :: 0 <= j < n ==> rounds[..n][j] == rounds[j];
      ExceptionWhenFound(rounds[..n], runtimeKey, i);
    }
  }

  /** The found rounds are listed in round order, so no round twice. */
  lemma {:induction false} FoundRoundsOrdered(rounds: seq<Round>, runtimeKey: string)
    ensures forall p, q :: 0 <= p < q < |FoundRounds(rounds, runtimeKey)| ==>
              FoundRounds(rounds, runtimeKey)[p].index < FoundRounds(rounds, runtimeKey)[q].index
    decreases |rounds|
  {
    if rounds != [] {
      var n := |rounds| - 1;
      FoundRoundsOrdered(rounds[..n], runtimeKey);
      FoundRoundsBelow(rounds[..n], runtimeKey);
      var found := FoundRounds(rounds, runtimeKey);
      var before := FoundRounds(rounds[..n], runtimeKey);
      assert |found| <= |before| + 1;
      forall p, q | 0 <= p < q < |found| ensures found[p].index < found[q].index {
        assert found[p] == before[p];
        if q < |before| {
          assert found[q] == before[q];
          assert before[p].index < before[q].index;
        } else {
          assert found[q].index == n;
          assert before[p].index < n;
        }
      }
    }
  }

  /** `e` names a matching round of `rounds` and carries the count of its last match. */
  predicate FoundEntryOf(rounds: seq<Round>, runtimeKey: string, e: FoundRound)
  {
    && e.index < |rounds|
    && e.round == rounds[e.index]
    && HasHit(rounds[e.index], runtimeKey)
    && e.count == LastHit(OrEmpty(rounds[e.index].runtimes), runtimeKey).value.count
  }

  /** Each entry is a matching round with the count of its last match. */
  lemma {:induction false} FoundRoundsEntries(rounds: seq<Round>, runtimeKey: string)
    ensures forall p :: 0 <= p < |FoundRounds(rounds, runtimeKey)| ==>
              FoundEntryOf(rounds, runtimeKey, FoundRounds(rounds, runtimeKey)[p])
    decreases |rounds|
  {
    if rounds != [] {
      var n := |rounds| - 1;
      var init := rounds[..n];
      FoundRoundsEntries(init, runtimeKey);
      FoundRoundsBelow(init, runtimeKey);
      var found := FoundRounds(rounds, runtimeKey);
      var before := FoundRounds(init, runtimeKey);
      forall p | 0 <= p < |found| ensures FoundEntryOf(rounds, runtimeKey, found[p]) {
        if p < |before| {
          assert found[p] == before[p];
          assert rounds[before[p].index] == init[before[p].index];
        }
      }
    }
  }

  /** The last round adds an entry exactly when it matches. */
  lemma FoundRoundsSnoc(rounds: seq<Round>, runtimeKey: string)
    requires rounds != []
    ensures var n := |rounds| - 1;
            var before := FoundRounds(rounds[..n], runtimeKey);
            && (!HasHit(rounds[n], runtimeKey) ==> FoundRounds(rounds, runtimeKey) == before)
            && (HasHit(rounds[n], runtimeKey) ==>
                  FoundRounds(rounds, runtimeKey)
                  == before + [FoundRound(n, rounds[n], LastHit(OrEmpty(rounds[n].runtimes), runtimeKey).value.count)])
  {
  }

  /** Every matching round has an entry. */
  lemma {:induction false} FoundRoundsCover(rounds: seq<Round>, runtimeKey: string, i: nat)
    requires i < |rounds| && HasHit(rounds[i], runtimeKey)
    ensures exists p :: 0 <= p < |FoundRounds(rounds, runtimeKey)| && FoundRounds(rounds, runtimeKey)[p].index == i
    decreases |rounds|
  {
    var n := |rounds| - 1;
    var init := rounds[..n];
    var found := FoundRounds(rounds, runtimeKey);
    var before := FoundRounds(init, runtimeKey);
    FoundRoundsSnoc(rounds, runtimeKey);
    assert |before| <= |found|;
    if i < n {
      assert init[i] == rounds[i];
      FoundRoundsCover(init, runtimeKey, i);
      var p :| 0 <= p < |before| && before[p].index == i;
      assert found[p] == before[p];
    } else {
      assert found[|before|].index == i;
    }
  }

  /** A link at a revision exists exactly for each listed file. */
  lemma {:induction false} FileUrlsIff(files: seq<Path>, revision: string, line: nat, u: string)
    ensures u in FileUrls(files, revision, line) <==> exists f :: f in files && u == Url(revision, f, line)
    decreases |files|
  {
    if files != [] {
      var n := |files| - 1;
      FileUrlsIff(files[..n], revision, line, u);
      assert files == files[..n] + [files[n]];
    }
  }

  /** A round contributes a link exactly when a matching batch's guess names that file. */
  lemma {:induction false} BatchUrlsIff(bs: seq<RuntimeBatch>, runtimeKey: string, revision: string, u: string)
    ensures u in BatchUrls(bs, runtimeKey, revision)
            <==> exists b :: b in bs && IsHit(b, runtimeKey) && u in FileUrls(GuessedFiles(b.bestGuessFilenames), revision, b.line)
    decreases |bs|
  {
    if bs != [] {
      var n := |bs| - 1;
      BatchUrlsIff(bs[..n], runtimeKey, revision, u);
      assert bs == bs[..n] + [bs[n]];
    }
  }

  /** Round `r` puts link `u` on the page. */
  predicate Contributes(r: Round, runtimeKey: string, atMaster: bool, u: string)
  {
    u in BatchUrls(OrEmpty(r.runtimes), runtimeKey, LinkRevision(r, atMaster))
  }

  /** Every link a round contributes is on the page. */
  lemma {:induction false} UrlsOfRound(rounds: seq<Round>, runtimeKey: string, atMaster: bool, u: string, i: nat)
    requires i < |rounds| && Contributes(rounds[i], runtimeKey, atMaster, u)
    ensures u in Urls(rounds, runtimeKey, atMaster)
    decreases |rounds|
  {
    var n := |rounds| - 1;
    if i < n {
      var init := rounds[..n];
      assert init[i] == rounds[i];
      UrlsOfRound(init, runtimeKey, atMaster, u, i);
    }
  }

  /** Every link on the page comes from some round. */
  lemma {:induction false} UrlsFromRound(rounds: seq<Round>, runtimeKey: string, atMaster: bool, u: string)
      returns (i: nat)
    requires u in Urls(rounds, runtimeKey, atMaster)
    ensures i < |rounds| && Contributes(rounds[i], runtimeKey, atMaster, u)
    decreases |rounds|
  {
    var n := |rounds| - 1;
    var init := rounds[..n];
    if u in Urls(init, runtimeKey, atMaster) {
      i := UrlsFromRound(init, runtimeKey, atMaster, u);
      assert init[i] == rounds[i];
    } else {
      i := n;
    }
  }

  /** A link is on the page exactly when some round contributes it. */
  lemma UrlsIff(rounds: seq<Round>, runtimeKey: string, atMaster: bool, u: string)
    ensures u in Urls(rounds, runtimeKey, atMaster)
            <==> exists i :: 0 <= i < |rounds| && Contributes(rounds[i], runtimeKey, atMaster, u)
  {
    if u in Urls(rounds, runtimeKey, atMaster) {
      var i := UrlsFromRound(rounds, runtimeKey, atMaster, u);
    }
    if exists i :: 0 <= i < |rounds| && Contributes(rounds[i], runtimeKey, atMaster, u) {
      var i :| 0 <= i < |rounds| && Contributes(rounds[i], runtimeKey, atMaster, u);
      UrlsOfRound(rounds, runtimeKey, atMaster, u, i);
    }
  }

  /**
   * `sortedRounds` holds the found rounds, each once, by non-increasing count:
   * a permutation of `foundRounds`, sorted, with no round twice.
   */
  lemma SortedRoundsSpec(rounds: seq<Round>, runtimeKey: string)
    ensures var found := FoundRounds(rounds, runtimeKey);
            var sorted := SortedRounds(found);
            && multiset(sorted) == multiset(found)
            && Sorting.SortedDesc(sorted, FoundCount)
            && (forall p, q :: 0 <= p < q < |sorted| ==> sorted[p].index != sorted[q].index)
  {
    var found := FoundRounds(rounds, runtimeKey);
    var sorted := SortedRounds(found);
    Sorting.SortDescCorrect(found, FoundCount);
    FoundRoundsOrdered(rounds, runtimeKey);
    DistinctIndicesKept(found, sorted);
  }

  /** A permutation of a list with distinct round indices has distinct round indices. */
  lemma DistinctIndicesKept(a: seq<FoundRound>, b: seq<FoundRound>)
    requires multiset(a) == multiset(b)
    requires forall p, q :: 0 <= p < q < |a| ==> a[p].index < a[q].index
    ensures forall p, q :: 0 <= p < q < |b| ==> b[p].index != b[q].index
  {
    forall p, q | 0 <= p < q < |b| ensures b[p].index != b[q].index {
      assert b[p] in multiset(a) && b[q] in multiset(a);
      var p' :| 0 <= p' < |a| && a[p'] == b[p];
      var q' :| 0 <= q' < |a| && a[q'] == b[q];
      if p' == q' {
        AtTwoPlaces(b, p, q);
        AtMostOnce(a, a[p']);
      }
    }
  }

  /** An element at two positions occurs twice. */
  lemma AtTwoPlaces(s: seq<FoundRound>, p: nat, q: nat)
    requires p < q < |s| && s[p] == s[q]
    ensures multiset(s)[s[p]] >= 2
  {
    assert s == s[..q] + [s[q]] + s[q + 1..];
    assert s[p] in multiset(s[..q]) by {
      assert s[..q][p] == s[p];
    }
  }

  /** In a list with strictly increasing indices each element occurs once. */
  lemma {:induction false} AtMostOnce(s: seq<FoundRound>, x: FoundRound)
    requires forall p, q :: 0 <= p < q < |s| ==> s[p].index < s[q].index
    ensures multiset(s)[x] <= 1
    decreases |s|
  {
    if s != [] {
      var n := |s| - 1;
      AtMostOnce(s[..n], x);
      assert s == s[..n] + [s[n]];
      if x == s[n] {
        assert x !in s[..n] by {
          forall k | 0 <= k < n ensures s[..n][k] != x {
            assert s[k].index < s[n].index;
          }
        }
      }
    }
  }
}
