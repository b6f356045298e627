/**
 * The crash-log parser (`src/runtimes.rs`).  A condensed runtime log is a
 * sequence of lines; every four consecutive lines of the shape
 *
 *   The following runtime has occurred <count><anything>
 *   runtime error: <exception>
 *   proc name: <proc> (<proc_path>)
 *     source file: <source_file>,<line><anything>
 *
 * form one match of the log pattern and become one `RuntimeBatch`.
 */
module Runtimes {
  import opened Wrappers
  import opened Text

  type Path = string

  /** Where a logged source file probably lives in the repository. */
  datatype BestGuessFilenames = Definitely(path: Path) | Possible(paths: seq<Path>)

  /** One class of crash, repeated `count` times in a round. */
  datatype RuntimeBatch = RuntimeBatch(
    count: nat,
    exception: string,
    procPath: string,
    sourceFile: string,
    line: nat,
    bestGuessFilenames: Option<BestGuessFilenames>)

  /** A round's batches as the front end reads them, `round.runtimes || []`: none when absent. */
  function OrEmpty(runtimes: Option<seq<RuntimeBatch>>): seq<RuntimeBatch>
  {
    match runtimes
    case None => []
    case Some(bs) => bs
  }

  /** The synthetic procedure under which the game logs stack traces. */
  const STACK_TRACE_PROC: string := "/proc/_stack_trace"

  const COUNT_MARKER: string := "The following runtime has occurred "
  const EXCEPTION_MARKER: string := "runtime error: "
  const PROC_MARKER: string := "proc name: "
  const SOURCE_MARKER: string := "  source file: "

  /** The named groups of one match of the log pattern, and the matched text (group 0). */
  datatype Captures = Captures(
    whole: string,
    count: string,
    exception: string,
    procName: string,
    procPath: string,
    sourceFile: string,
    line: string)

  // ---------------------------------------------------------------------------
  // The line-based recogniser

  /** At index i of the text after "proc name: " a " (" opens a non-empty procedure path. */
  predicate OpensProcPath(r: string, i: nat)
  {
    i + 3 < |r| && r[i] == ' ' && r[i + 1] == '('
  }

  /** The least index from `from` on that opens the procedure path (the lazy `.+?`). */
  function ProcOpen(r: string, from: nat): (k: Option<nat>)
    ensures k.Some? ==> from <= k.value && OpensProcPath(r, k.value)
    ensures forall j: nat :: from <= j && (k.None? || j < k.value) ==> !OpensProcPath(r, j)
    decreases |r| - from
  {
    if from + 3 >= |r| then None
    else if OpensProcPath(r, from) then Some(from)
    else ProcOpen(r, from + 1)
  }

  /** At index i of the text after "  source file: " a ',' is followed by a digit. */
  predicate SeparatesLine(r: string, i: nat)
  {
    i + 1 < |r| && r[i] == ',' && IsDigit(r[i + 1])
  }

  /** The least index from `from` on that separates the file from the line number. */
  function LineComma(r: string, from: nat): (k: Option<nat>)
    ensures k.Some? ==> from <= k.value && SeparatesLine(r, k.value)
    ensures forall j: nat :: from <= j && (k.None? || j < k.value) ==> !SeparatesLine(r, j)
    decreases |r| - from
  {
    if from + 1 >= |r| then None
    else if SeparatesLine(r, from) then Some(from)
    else LineComma(r, from + 1)
  }

  /** `(?P<proc>.+?) \((?P<proc_path>.+?)\)` followed by the end of the line. */
  function SplitProcLine(r: string): (s: Option<(string, string)>)
    ensures s.Some? ==> r == s.value.0 + " (" + s.value.1 + ")"
    ensures s.Some? ==> s.value.0 != [] && s.value.1 != []
  {
    if r == [] || r[|r| - 1] != ')' then None
    else match ProcOpen(r, 1)
      case None => None
      case Some(i) =>
        assert r == r[..i] + " (" + r[i + 2..|r| - 1] + ")";
        Some((r[..i], r[i + 2..|r| - 1]))
  }

  /** `(?P<source_file>.+?),(?P<line>[0-9]+)`; whatever follows the digits is not part of the match. */
  function SplitSourceLine(r: string): (s: Option<(string, string)>)
    ensures s.Some? ==> |s.value.0| + 1 + |s.value.1| <= |r|
    ensures s.Some? ==> r[..|s.value.0| + 1 + |s.value.1|] == s.value.0 + "," + s.value.1
    ensures s.Some? ==> s.value.0 != [] && s.value.1 != [] && AllDigits(s.value.1)
  {
    match LineComma(r, 1)
    case None => None
    case Some(i) =>
      var digits := LeadingDigits(r[i + 1..]);
      assert digits == r[i + 1..i + 1 + |digits|];
      assert r[..i + 1 + |digits|] == r[..i] + "," + digits;
      Some((r[..i], digits))
  }

  /** Whether four consecutive lines match the log pattern, and its captures when they do. */
  function MatchBlock(l1: string, l2: string, l3: string, l4: string): (m: Option<Captures>)
    ensures m.Some? ==> m.value.count != [] && AllDigits(m.value.count)
    ensures m.Some? ==> m.value.line != [] && AllDigits(m.value.line)
    ensures m.Some? ==> m.value.exception != [] && m.value.procPath != []
  {
    if !(COUNT_MARKER <= l1 && EXCEPTION_MARKER <= l2 && PROC_MARKER <= l3 && SOURCE_MARKER <= l4) then None
    else
      var count := LeadingDigits(l1[|COUNT_MARKER|..]);
      var exception := l2[|EXCEPTION_MARKER|..];
      var proc := SplitProcLine(l3[|PROC_MARKER|..]);
      var source := SplitSourceLine(l4[|SOURCE_MARKER|..]);
      if count == [] || exception == [] || proc.None? || source.None? then None
      else
        var used := |SOURCE_MARKER| + |source.value.0| + 1 + |source.value.1|;
        Some(Captures(l1 + "\n" + l2 + "\n" + l3 + "\n" + l4[..used],
                      count, exception, proc.value.0, proc.value.1, source.value.0, source.value.1))
  }

  /** `captures_iter`: the non-overlapping matches of the pattern, in textual order. */
  function Matches(lines: seq<string>): seq<Captures>
    decreases |lines|
  {
    if |lines| < 4 then []
    else match MatchBlock(lines[0], lines[1], lines[2], lines[3])
      case Some(c) => [c] + Matches(lines[4..])
      case None => Matches(lines[1..])
  }

  // ---------------------------------------------------------------------------
  // The stack-trace patch

  /** The largest p with 1 <= p < hi at which e has a '('. */
  function LastOpenParen(e: string, hi: nat): (p: Option<nat>)
    requires hi <= |e|
    ensures p.Some? ==> 1 <= p.value < hi && e[p.value] == '('
    decreases hi
  {
    if hi <= 1 then None
    else if e[hi - 1] == '(' then Some(hi - 1)
    else LastOpenParen(e, hi - 1)
  }

  /**
   * `.+\(((?P<filename>.+?):(?P<line>[0-9]+))\)$` on an exception text (which,
   * being one log line, has no line break): the file name and the digits of a
   * trailing "(<file>:<digits>)".  The greedy `.+` picks the last '(' that
   * still leaves a non-empty file name.
   */
  function StackTraceSuffix(e: string): Option<(string, string)>
  {
    if e == [] || e[|e| - 1] != ')' then None else SuffixBeforeDigits(e, TrailingDigits(e[..|e| - 1]))
  }

  /** The rest of the suffix pattern, once the digits `d` before the final ')' are known. */
  function SuffixBeforeDigits(e: string, d: string): Option<(string, string)>
    requires |d| < |e|
  {
    if d == [] || |d| + 1 == |e| then None
    else
      var c := |e| - |d| - 2;  // where the ':' must be
      if e[c] != ':' || c == 0 then None
      else match LastOpenParen(e, c - 1)
        case None => None
        case Some(p) => Some((e[p + 1..c], d))
  }

  /**
   * What the suffix pattern finds is a non-empty file name and a non-empty run of
   * digits that are literally the tail "(<file>:<digits>)" of the text.
   */
  lemma StackTraceSuffixShape(e: string)
    ensures var m := StackTraceSuffix(e);
            m.Some? ==> m.value.0 != [] && m.value.1 != [] && AllDigits(m.value.1)
    ensures var m := StackTraceSuffix(e);
            m.Some? ==> e[|e| - |m.value.0| - |m.value.1| - 3..] == "(" + m.value.0 + ":" + m.value.1 + ")"
  {
    var m := StackTraceSuffix(e);
    if m.Some? {
      var d := TrailingDigits(e[..|e| - 1]);
      assert m == SuffixBeforeDigits(e, d);
      var c := |e| - |d| - 2;
      var p := LastOpenParen(e, c - 1).value;
      assert m.value == (e[p + 1..c], d);
      assert e[c + 1..|e| - 1] == d;
      TailShape(e, p, c, d);
    }
  }

  /** "(<file>:<digits>)" read back from the positions of its '(' and ':'. */
  lemma TailShape(e: string, p: nat, c: nat, d: string)
    requires p < c && c + 2 + |d| == |e|
    requires e[p] == '(' && e[c] == ':' && e[c + 1..|e| - 1] == d && e[|e| - 1] == ')'
    ensures e[p..] == "(" + e[p + 1..c] + ":" + d + ")"
  {
    var t := "(" + e[p + 1..c] + ":" + d + ")";
    assert |t| == |e| - p;
    forall i | 0 <= i < |t| ensures e[p..][i] == t[i] {
      if 0 < i < c - p {
        assert t[i] == e[p + 1..c][i - 1];
      } else if c - p < i < |t| - 1 {
        assert t[i] == d[i - (c - p) - 1];
      }
    }
  }

  /** The outcome of the source's patch, which can panic. */
  datatype PatchOutcome = Patched(batch: RuntimeBatch) | Panicked

  /**
   * `patch_stack_trace` as written: both `unwrap`s are reachable, on a file
   * name without a final component and on a line number above 2^64-1.
   */
  function PatchStackTraceAsWritten(b: RuntimeBatch): PatchOutcome
  {
    match StackTraceSuffix(b.exception)
    case None => Patched(b)
    case Some((filename, digits)) =>
      match (FileName(filename), ParseU64(digits))
      case (Some(name), Some(line)) =>
        Patched(b.(sourceFile := name, bestGuessFilenames := Some(Definitely(filename)), line := line))
      case _ => Panicked
  }

  /** A stack trace naming the file ".." makes the patch as written panic. */
  lemma PatchAsWrittenPanicsOnDotDot()
    ensures PatchStackTraceAsWritten(RuntimeBatch(1, "x(..:7)", STACK_TRACE_PROC, "x.dm", 1, None)) == Panicked
  {
    var e := "x(..:7)";
    var body := e[..|e| - 1];
    assert body == "x(..:" + "7";
    TrailingDigitsOf("x(..:", "7");
    assert body[4] == ':';
    assert LastOpenParen(e, 3) == Some(1) by {
      assert e[2] == '.' && e[1] == '(';
    }
    assert e[2..4] == "..";
    assert StackTraceSuffix(e) == Some(("..", "7"));
    assert LastSlash("..") == -1 by {
      assert ".."[..1] == ".";
      assert "."[..0] == "";
    }
    assert ".."[0..] == "..";
    assert FileName("..") == None;
  }

  /**
   * The stack-trace patch: a trailing "(<file>:<digits>)" replaces the source
   * file by the file's last component, the line by the digits and records the
   * whole file as the definite location.  Where the source panics this returns
   * an error instead.
   */
  function PatchStackTrace(b: RuntimeBatch): (r: Result<RuntimeBatch>)
    ensures r.Ok? ==> r.value.count == b.count && r.value.exception == b.exception && r.value.procPath == b.procPath
    ensures StackTraceSuffix(b.exception).None? ==> r == Ok(b)
    ensures StackTraceSuffix(b.exception).Some? ==>
              var (filename, digits) := StackTraceSuffix(b.exception).value;
              && (r.Ok? <==> FileName(filename).Some? && ParseU64(digits).Some?)
              && (r.Ok? ==>
                    && Some(r.value.sourceFile) == FileName(filename)
                    && Some(r.value.line) == ParseU64(digits)
                    && r.value.bestGuessFilenames == Some(Definitely(filename)))
  {
    match StackTraceSuffix(b.exception)
    case None => Ok(b)
    case Some((filename, digits)) =>
      match (FileName(filename), ParseU64(digits))
      case (Some(name), Some(line)) =>
        Ok(b.(sourceFile := name, bestGuessFilenames := Some(Definitely(filename)), line := line))
      case (None, _) => Err("stack trace names no file")
      case (_, None) => Err("error parsing stack trace line")
  }

  /** The corrected patch agrees with the source's wherever the source does not panic. */
  lemma PatchStackTraceAgrees(b: RuntimeBatch)
    ensures PatchStackTraceAsWritten(b).Panicked? <==> PatchStackTrace(b).Err?
    ensures PatchStackTraceAsWritten(b).Patched? ==> PatchStackTrace(b) == Ok(PatchStackTraceAsWritten(b).batch)
  {
  }

  /** `patch_special_procs`: only the stack-trace procedure is patched. */
  function PatchSpecialProcs(b: RuntimeBatch): (r: Result<RuntimeBatch>)
    ensures b.procPath != STACK_TRACE_PROC ==> r == Ok(b)
    ensures b.procPath == STACK_TRACE_PROC ==> r == PatchStackTrace(b)
  {
    if b.procPath == STACK_TRACE_PROC then PatchStackTrace(b) else Ok(b)
  }

  // ---------------------------------------------------------------------------
  // From captures to batches

  /** `group_to_runtime_batch`: parse the two numbers, copy the texts, then patch. */
  function GroupToRuntimeBatch(c: Captures): (r: Result<RuntimeBatch>)
    ensures ParseU64(c.count).None? ==> r == Err("error parsing count")
    ensures ParseU64(c.count).Some? && ParseU64(c.line).None? ==> r == Err("error parsing line")
    ensures r.Ok? ==>
              && Some(r.value.count) == ParseU64(c.count)
              && r.value.exception == c.exception && r.value.procPath == c.procPath
    ensures c.procPath != STACK_TRACE_PROC ==>
              && (r.Ok? <==> ParseU64(c.count).Some? && ParseU64(c.line).Some?)
              && (r.Ok? ==>
                    && r.value.sourceFile == c.sourceFile && Some(r.value.line) == ParseU64(c.line)
                    && r.value.bestGuessFilenames == None)
    ensures c.procPath == STACK_TRACE_PROC && ParseU64(c.count).Some? && ParseU64(c.line).Some? ==>
              r == PatchStackTrace(RuntimeBatch(ParseU64(c.count).value, c.exception, c.procPath, c.sourceFile, ParseU64(c.line).value, None))
  {
    match ParseU64(c.count)
    case None => Err("error parsing count")
    case Some(count) =>
      match ParseU64(c.line)
      case None => Err("error parsing line")
      case Some(line) =>
        PatchSpecialProcs(RuntimeBatch(count, c.exception, c.procPath, c.sourceFile, line, None))
  }

  /** The message a failed block is reported with: it quotes the whole matched text. */
  function BlockError(c: Captures): string
  {
    "error while parsing " + c.whole
  }

  /** Collecting into a `Result`: all batches in order, or the first block's failure. */
  function CollectBatches(cs: seq<Captures>): Result<seq<RuntimeBatch>>
  {
    if cs == [] then Ok([])
    else match GroupToRuntimeBatch(cs[0])
      case Err(_) => Err(BlockError(cs[0]))
      case Ok(b) =>
        match CollectBatches(cs[1..])
        case Err(e) => Err(e)
        case Ok(bs) => Ok([b] + bs)
  }

  /**
   * The collection succeeds exactly when every block converts, and then holds
   * one batch per block in order; otherwise it reports the first block that fails.
   */
  lemma CollectBatchesSpec(cs: seq<Captures>)
    ensures var r := CollectBatches(cs);
            && (r.Ok? <==> forall k :: 0 <= k < |cs| ==> GroupToRuntimeBatch(cs[k]).Ok?)
            && (r.Ok? ==> |r.value| == |cs| && forall k :: 0 <= k < |cs| ==> Ok(r.value[k]) == GroupToRuntimeBatch(cs[k]))
            && (r.Err? ==> exists k :: 0 <= k < |cs| && GroupToRuntimeBatch(cs[k]).Err?
                             && (forall j :: 0 <= j < k ==> GroupToRuntimeBatch(cs[j]).Ok?)
                             && r.error == BlockError(cs[k]))
  {
    if CollectBatches(cs).Ok? {
      CollectBatchesOk(cs);
    } else {
      var k := CollectBatchesErr(cs);
    }
  }

  /** A successful collection holds the batch of each block, in order. */
  lemma {:induction false} CollectBatchesOk(cs: seq<Captures>)
    requires CollectBatches(cs).Ok?
    ensures |CollectBatches(cs).value| == |cs|
    ensures forall k :: 0 <= k < |cs| ==> Ok(CollectBatches(cs).value[k]) == GroupToRuntimeBatch(cs[k])
  {
    if cs != [] {
      CollectBatchesCons(cs);
      CollectBatchesOk(cs[1..]);
      var bs := CollectBatches(cs).value;
      var rest := CollectBatches(cs[1..]).value;
      forall k | 0 <= k < |cs| ensures Ok(bs[k]) == GroupToRuntimeBatch(cs[k]) {
        if k > 0 {
          assert bs[k] == rest[k - 1] && cs[1..][k - 1] == cs[k];
        }
      }
    }
  }

  lemma CollectBatchesCons(cs: seq<Captures>)
    requires cs != [] && CollectBatches(cs).Ok?
    ensures GroupToRuntimeBatch(cs[0]).Ok? && CollectBatches(cs[1..]).Ok?
    ensures CollectBatches(cs).value == [GroupToRuntimeBatch(cs[0]).value] + CollectBatches(cs[1..]).value
  {
  }

  /** A failed collection reports the first block that does not convert. */
  lemma {:induction false} CollectBatchesErr(cs: seq<Captures>) returns (k: nat)
    requires CollectBatches(cs).Err?
    ensures k < |cs| && GroupToRuntimeBatch(cs[k]).Err?
    ensures forall j :: 0 <= j < k ==> GroupToRuntimeBatch(cs[j]).Ok?
    ensures CollectBatches(cs).error == BlockError(cs[k])
  {
    if GroupToRuntimeBatch(cs[0]).Err? {
      k := 0;
    } else {
      var k' := CollectBatchesErr(cs[1..]);
      k := k' + 1;
      assert cs[1..][k'] == cs[k];
      forall j | 1 <= j < k ensures GroupToRuntimeBatch(cs[j]).Ok? {
        assert cs[1..][j - 1] == cs[j];
      }
    }
  }

  /** `get_runtimes_for_round`: one batch per match, or the error of the first failing match. */
  function GetRuntimesForRound(lines: seq<string>): Result<seq<RuntimeBatch>>
  {
    CollectBatches(Matches(lines))
  }

  /** A parsed log has one batch per block; a failure quotes the text of one of its blocks. */
  lemma GetRuntimesForRoundSpec(lines: seq<string>)
    ensures var r := GetRuntimesForRound(lines);
            && (r.Ok? ==> |r.value| == |Matches(lines)|)
            && (r.Err? ==> exists k :: 0 <= k < |Matches(lines)| && r.error == BlockError(Matches(lines)[k])
                                       && Contains(r.error, Matches(lines)[k].whole))
  {
    CollectBatchesSpec(Matches(lines));
    BlockErrorQuotesBlock();
  }

  /** Every block error contains the full text of its block. */
  lemma BlockErrorQuotesBlock()
    ensures forall c: Captures :: Contains(BlockError(c), c.whole)
  {
    forall c: Captures ensures Contains(BlockError(c), c.whole) {
      assert OccursAt(BlockError(c), c.whole, |"error while parsing "|);
      ContainsIff(BlockError(c), c.whole);
    }
  }

  // ---------------------------------------------------------------------------
  // Well-formed logs parse back to what was logged

  /** The fields the game writes for one runtime block. */
  datatype Block = Block(
    count: nat, countTail: string, exception: string, procName: string,
    procPath: string, sourceFile: string, line: nat)

  /** The four log lines of a block. */
  function Render(b: Block): seq<string>
  {
    [ COUNT_MARKER + (NatToDecimal(b.count) + b.countTail),
      EXCEPTION_MARKER + b.exception,
      PROC_MARKER + (b.procName + " (" + b.procPath + ")"),
      SOURCE_MARKER + (b.sourceFile + "," + NatToDecimal(b.line)) ]
  }

  function RenderAll(bs: seq<Block>): seq<string>
  {
    if bs == [] then [] else Render(bs[0]) + RenderAll(bs[1..])
  }

  /** The fields can be told apart by the pattern: no digit glued to the count, no " (" in the
      procedure name, no ',' followed by a digit in the file name, nothing empty. */
  predicate WellFormed(b: Block)
  {
    && (b.countTail == [] || !IsDigit(b.countTail[0]))
    && b.exception != [] && b.procName != [] && b.procPath != [] && b.sourceFile != []
    && (forall i :: 0 <= i < |b.procName| - 1 ==> !(b.procName[i] == ' ' && b.procName[i + 1] == '('))
    && (forall i :: 0 <= i < |b.sourceFile| - 1 ==> !(b.sourceFile[i] == ',' && IsDigit(b.sourceFile[i + 1])))
  }

  /** What the pattern captures from a rendered block. */
  function Expected(b: Block): Captures
  {
    var l := Render(b);
    Captures(l[0] + "\n" + l[1] + "\n" + l[2] + "\n" + l[3], NatToDecimal(b.count), b.exception,
             b.procName, b.procPath, b.sourceFile, NatToDecimal(b.line))
  }

  lemma ProcLineOfRendered(procName: string, procPath: string)
    requires procName != [] && procPath != []
    requires forall i :: 0 <= i < |procName| - 1 ==> !(procName[i] == ' ' && procName[i + 1] == '(')
    ensures SplitProcLine(procName + " (" + procPath + ")") == Some((procName, procPath))
  {
    var r3 := procName + " (" + procPath + ")";
    assert OpensProcPath(r3, |procName|);
    forall j: nat | 1 <= j < |procName| ensures !OpensProcPath(r3, j) {
      if j < |procName| - 1 {
        assert r3[j] == procName[j] && r3[j + 1] == procName[j + 1];
      } else {
        assert r3[j + 1] == ' ';
      }
    }
    assert ProcOpen(r3, 1) == Some(|procName|);
    assert r3[..|procName|] == procName;
    assert r3[|procName| + 2..|r3| - 1] == procPath;
  }

  lemma SourceLineOfRendered(sourceFile: string, line: string)
    requires sourceFile != [] && line != [] && AllDigits(line)
    requires forall i :: 0 <= i < |sourceFile| - 1 ==> !(sourceFile[i] == ',' && IsDigit(sourceFile[i + 1]))
    ensures SplitSourceLine(sourceFile + "," + line) == Some((sourceFile, line))
  {
    var r4 := sourceFile + "," + line;
    assert SeparatesLine(r4, |sourceFile|);
    forall j: nat | 1 <= j < |sourceFile| ensures !SeparatesLine(r4, j) {
      if j < |sourceFile| - 1 {
        assert r4[j] == sourceFile[j] && r4[j + 1] == sourceFile[j + 1];
      } else {
        assert r4[j + 1] == ',';
      }
    }
    assert LineComma(r4, 1) == Some(|sourceFile|);
    assert r4[|sourceFile| + 1..] == line + [];
    LeadingDigitsOf(line, []);
    assert r4[..|sourceFile|] == sourceFile;
  }

  lemma MatchBlockOfRendered(b: Block)
    requires WellFormed(b)
    ensures var l := Render(b); MatchBlock(l[0], l[1], l[2], l[3]) == Some(Expected(b))
  {
    var l := Render(b);
    CountLineOfRendered(b.count, b.countTail);
    PrefixOf(EXCEPTION_MARKER, b.exception);
    ProcLineWithMarker(b.procName, b.procPath);
    SourceLineWithMarker(b.sourceFile, b.line);
    MatchBlockOfParts(l[0], l[1], l[2], l[3], NatToDecimal(b.count), b.exception, b.procName, b.procPath,
                      b.sourceFile, NatToDecimal(b.line));
  }

  /** Four lines whose pieces are known match the pattern with those pieces as captures. */
  lemma MatchBlockOfParts(l1: string, l2: string, l3: string, l4: string, count: string, exception: string,
                          procName: string, procPath: string, sourceFile: string, line: string)
    requires COUNT_MARKER <= l1 && LeadingDigits(l1[|COUNT_MARKER|..]) == count != []
    requires EXCEPTION_MARKER <= l2 && l2[|EXCEPTION_MARKER|..] == exception != []
    requires PROC_MARKER <= l3 && SplitProcLine(l3[|PROC_MARKER|..]) == Some((procName, procPath))
    requires SOURCE_MARKER <= l4 && SplitSourceLine(l4[|SOURCE_MARKER|..]) == Some((sourceFile, line))
    requires |SOURCE_MARKER| + |sourceFile| + 1 + |line| == |l4|
    ensures MatchBlock(l1, l2, l3, l4)
            == Some(Captures(l1 + "\n" + l2 + "\n" + l3 + "\n" + l4, count, exception, procName, procPath, sourceFile, line))
  {
    assert l4[..|l4|] == l4;
  }

  lemma CountLineOfRendered(n: nat, tail: string)
    requires tail == [] || !IsDigit(tail[0])
    ensures var l1 := COUNT_MARKER + (NatToDecimal(n) + tail);
            COUNT_MARKER <= l1 && LeadingDigits(l1[|COUNT_MARKER|..]) == NatToDecimal(n) != []
  {
    NatToDecimalDenotes(n);
    PrefixOf(COUNT_MARKER, NatToDecimal(n) + tail);
    LeadingDigitsOf(NatToDecimal(n), tail);
  }

  lemma ProcLineWithMarker(procName: string, procPath: string)
    requires procName != [] && procPath != []
    requires forall i :: 0 <= i < |procName| - 1 ==> !(procName[i] == ' ' && procName[i + 1] == '(')
    ensures var l3 := PROC_MARKER + (procName + " (" + procPath + ")");
            PROC_MARKER <= l3 && SplitProcLine(l3[|PROC_MARKER|..]) == Some((procName, procPath))
  {
    PrefixOf(PROC_MARKER, procName + " (" + procPath + ")");
    ProcLineOfRendered(procName, procPath);
  }

  lemma SourceLineWithMarker(sourceFile: string, n: nat)
    requires sourceFile != []
    requires forall i :: 0 <= i < |sourceFile| - 1 ==> !(sourceFile[i] == ',' && IsDigit(sourceFile[i + 1]))
    ensures var l4 := SOURCE_MARKER + (sourceFile + "," + NatToDecimal(n));
            && SOURCE_MARKER <= l4
            && SplitSourceLine(l4[|SOURCE_MARKER|..]) == Some((sourceFile, NatToDecimal(n)))
            && |SOURCE_MARKER| + |sourceFile| + 1 + |NatToDecimal(n)| == |l4|
  {
    NatToDecimalDenotes(n);
    PrefixOf(SOURCE_MARKER, sourceFile + "," + NatToDecimal(n));
    SourceLineOfRendered(sourceFile, NatToDecimal(n));
  }

  lemma PrefixOf(m: string, rest: string)
    ensures m <= m + rest && (m + rest)[|m|..] == rest
    ensures (m + rest)[..|m + rest|] == m + rest
  {
  }

  /** A digit run followed by a non-digit (or nothing) is exactly the leading digits. */
  lemma {:induction false} LeadingDigitsOf(d: string, tail: string)
    requires AllDigits(d)
    requires tail == [] || !IsDigit(tail[0])
    ensures LeadingDigits(d + tail) == d
    decreases |d|
  {
    if d != [] {
      assert (d + tail)[1..] == d[1..] + tail;
      LeadingDigitsOf(d[1..], tail);
    }
  }

  /** The captures of each block, in order. */
  function ExpectedAll(bs: seq<Block>): seq<Captures>
  {
    seq(|bs|, i requires 0 <= i < |bs| => Expected(bs[i]))
  }

  /** N well-formed blocks give exactly N matches, in textual order. */
  lemma {:induction false} MatchesOfRendered(bs: seq<Block>)
    requires forall i :: 0 <= i < |bs| ==> WellFormed(bs[i])
    ensures Matches(RenderAll(bs)) == ExpectedAll(bs)
  {
    if bs != [] {
      var l := RenderAll(bs);
      MatchBlockOfRendered(bs[0]);
      assert l[..4] == Render(bs[0]);
      assert l[4..] == RenderAll(bs[1..]);
      assert Matches(l) == [Expected(bs[0])] + Matches(RenderAll(bs[1..]));
      MatchesOfRendered(bs[1..]);
      ExpectedAllCons(bs);
    }
  }

  lemma ExpectedAllCons(bs: seq<Block>)
    requires bs != []
    ensures ExpectedAll(bs) == [Expected(bs[0])] + ExpectedAll(bs[1..])
  {
    var rest := ExpectedAll(bs[1..]);
    assert forall i :: 1 <= i < |bs| ==> bs[1..][i - 1] == bs[i];
    assert |rest| == |bs| - 1;
  }

  /** The batch a well-formed block stands for. */
  function BatchOf(b: Block): RuntimeBatch
  {
    RuntimeBatch(b.count, b.exception, b.procPath, b.sourceFile, b.line, None)
  }

  /** The batch of each block, in order. */
  function BatchesOf(bs: seq<Block>): seq<RuntimeBatch>
  {
    seq(|bs|, i requires 0 <= i < |bs| => BatchOf(bs[i]))
  }

  /**
   * A log of well-formed blocks whose numbers fit in 64 bits and whose procedure
   * is not the stack-trace one parses to one batch per block, in order, with
   * every field copied verbatim and no merging of identical blocks.
   */
  lemma ParseOfRendered(bs: seq<Block>)
    requires forall i :: 0 <= i < |bs| ==> WellFormed(bs[i])
    requires forall i :: 0 <= i < |bs| ==> bs[i].count <= U64_MAX && bs[i].line <= U64_MAX
    requires forall i :: 0 <= i < |bs| ==> bs[i].procPath != STACK_TRACE_PROC
    ensures GetRuntimesForRound(RenderAll(bs)) == Ok(BatchesOf(bs))
  {
    MatchesOfRendered(bs);
    var cs := Matches(RenderAll(bs));
    assert |cs| == |bs|;
    forall k | 0 <= k < |bs| ensures GroupToRuntimeBatch(cs[k]) == Ok(BatchOf(bs[k])) {
      assert cs[k] == Expected(bs[k]);
      GroupOfExpected(bs[k]);
    }
    CollectOfConverted(bs, cs);
  }

  lemma {:induction false} CollectOfConverted(bs: seq<Block>, cs: seq<Captures>)
    requires |cs| == |bs|
    requires forall k :: 0 <= k < |bs| ==> GroupToRuntimeBatch(cs[k]) == Ok(BatchOf(bs[k]))
    ensures CollectBatches(cs) == Ok(BatchesOf(bs))
  {
    if bs != [] {
      assert GroupToRuntimeBatch(cs[0]) == Ok(BatchOf(bs[0]));
      forall k | 0 <= k < |bs| - 1 ensures GroupToRuntimeBatch(cs[1..][k]) == Ok(BatchOf(bs[1..][k])) {
        assert cs[1..][k] == cs[k + 1] && bs[1..][k] == bs[k + 1];
      }
      CollectOfConverted(bs[1..], cs[1..]);
      BatchesOfCons(bs);
    } else {
      assert cs == [];
      assert BatchesOf(bs) == [];
    }
  }

  lemma BatchesOfCons(bs: seq<Block>)
    requires bs != []
    ensures BatchesOf(bs) == [BatchOf(bs[0])] + BatchesOf(bs[1..])
  {
    var rest := BatchesOf(bs[1..]);
    assert forall i :: 1 <= i < |bs| ==> bs[1..][i - 1] == bs[i];
    assert |rest| == |bs| - 1;
  }

  lemma GroupOfExpected(b: Block)
    requires b.count <= U64_MAX && b.line <= U64_MAX && b.procPath != STACK_TRACE_PROC
    ensures GroupToRuntimeBatch(Expected(b)) == Ok(BatchOf(b))
  {
    ParseU64OfDecimal(b.count);
    ParseU64OfDecimal(b.line);
  }

  /** The suffix pattern finds the file and the digits of a trailing "(<path>:<n>)". */
  lemma StackTraceSuffixOf(prefix: string, path: string, n: nat)
    requires prefix != [] && path != []
    requires forall i :: 0 <= i < |path| ==> path[i] != '('
    ensures StackTraceSuffix(prefix + "(" + path + ":" + NatToDecimal(n) + ")") == Some((path, NatToDecimal(n)))
  {
    NatToDecimalDenotes(n);
    StackTraceSuffixOfDigits(prefix, path, NatToDecimal(n));
  }

  /** `StackTraceSuffixOf` for any non-empty run of digits. */
  lemma StackTraceSuffixOfDigits(prefix: string, path: string, d: string)
    requires prefix != [] && path != [] && d != [] && AllDigits(d)
    requires forall i :: 0 <= i < |path| ==> path[i] != '('
    ensures StackTraceSuffix(prefix + "(" + path + ":" + d + ")") == Some((path, d))
  {
    var e := prefix + "(" + path + ":" + d + ")";
    SuffixTextFacts(prefix, path, d, e);
    SuffixDigits(prefix, path, d, e);
    SuffixOfFacts(e, d, |prefix|, path);
  }

  lemma SuffixDigits(prefix: string, path: string, d: string, e: string)
    requires e == prefix + "(" + path + ":" + d + ")" && AllDigits(d)
    ensures |e| == |prefix| + |path| + |d| + 3
    ensures TrailingDigits(e[..|e| - 1]) == d
  {
    var front := prefix + "(" + path + ":";
    assert e[..|e| - 1] == front + d;
    TrailingDigitsOf(front, d);
  }

  /** The suffix pattern on a text whose last '(' before "<path>:<d>)" is at p. */
  lemma SuffixOfFacts(e: string, d: string, p: nat, path: string)
    requires 1 <= p && path != [] && d != [] && |e| == p + |path| + |d| + 3
    requires e[|e| - 1] == ')' && e[|e| - |d| - 2] == ':' && e[p] == '('
    requires e[p + 1..|e| - |d| - 2] == path
    requires forall j :: p < j < |e| - |d| - 3 ==> e[j] != '('
    requires TrailingDigits(e[..|e| - 1]) == d
    ensures StackTraceSuffix(e) == Some((path, d))
  {
    LastOpenParenIs(e, |e| - |d| - 3, p);
    SuffixFromParts(e, d, p);
  }

  /** Where the pieces of "<prefix>(<path>:<d>)" sit. */
  lemma SuffixTextFacts(prefix: string, path: string, d: string, e: string)
    requires forall i :: 0 <= i < |path| ==> path[i] != '('
    requires e == prefix + "(" + path + ":" + d + ")"
    ensures |e| == |prefix| + |path| + |d| + 3
    ensures e[|e| - 1] == ')' && e[|e| - |d| - 2] == ':' && e[|prefix|] == '('
    ensures e[..|e| - 1] == prefix + "(" + path + ":" + d
    ensures e[|prefix| + 1..|e| - |d| - 2] == path
    ensures forall j :: |prefix| < j < |e| - |d| - 3 ==> e[j] != '('
  {
    var front := prefix + "(" + path + ":";
    assert e == front + d + ")";
    assert e[..|e| - 1] == front + d;
    assert e[|prefix| + 1..|e| - |d| - 2] == path;
    forall j | |prefix| < j < |e| - |d| - 3 ensures e[j] != '(' {
      assert e[j] == path[j - |prefix| - 1];
    }
  }

  /** Unfolds the suffix pattern once its intermediate positions are known. */
  lemma SuffixFromParts(e: string, d: string, p: nat)
    requires |e| >= 1 && e[|e| - 1] == ')'
    requires TrailingDigits(e[..|e| - 1]) == d && d != [] && |d| + 3 <= |e|
    requires e[|e| - |d| - 2] == ':' && LastOpenParen(e, |e| - |d| - 3) == Some(p)
    ensures StackTraceSuffix(e) == Some((e[p + 1..|e| - |d| - 2], d))
  {
    assert StackTraceSuffix(e) == SuffixBeforeDigits(e, d);
    SuffixBeforeDigitsOf(e, d, p);
  }

  lemma SuffixBeforeDigitsOf(e: string, d: string, p: nat)
    requires d != [] && |d| + 3 <= |e|
    requires e[|e| - |d| - 2] == ':' && LastOpenParen(e, |e| - |d| - 3) == Some(p)
    ensures SuffixBeforeDigits(e, d) == Some((e[p + 1..|e| - |d| - 2], d))
  {
    var c := |e| - |d| - 2;
    assert c - 1 == |e| - |d| - 3;
  }

  /**
   * A stack-trace batch whose exception ends in "(<dir>/<name>:<n>)" is patched
   * to source file <name>, line n and the definite location <dir>/<name>; its
   * count, exception and procedure are kept.
   */
  lemma StackTracePatched(b: RuntimeBatch, prefix: string, dir: string, name: string, n: nat)
    requires b.procPath == STACK_TRACE_PROC
    requires b.exception == prefix + "(" + (dir + "/" + name) + ":" + NatToDecimal(n) + ")"
    requires prefix != [] && !IsSpecialComponent(name)
    requires forall i :: 0 <= i < |name| ==> name[i] != '/' && name[i] != '('
    requires forall i :: 0 <= i < |dir| ==> dir[i] != '('
    requires n <= U64_MAX
    ensures PatchSpecialProcs(b) ==
              Ok(b.(sourceFile := name, line := n, bestGuessFilenames := Some(Definitely(dir + "/" + name))))
  {
    var path := dir + "/" + name;
    forall i | 0 <= i < |path| ensures path[i] != '(' {
      if i > |dir| {
        assert path[i] == name[i - |dir| - 1];
      }
    }
    StackTraceSuffixOf(prefix, path, n);
    FileNameOfJoin(dir, name);
    ParseU64OfDecimal(n);
  }

  /** The '(' found is the last one before hi, not counting position 0. */
  lemma {:induction false} LastOpenParenIsLast(e: string, hi: nat)
    requires hi <= |e|
    ensures LastOpenParen(e, hi).Some? ==> forall j :: LastOpenParen(e, hi).value < j < hi ==> e[j] != '('
    ensures LastOpenParen(e, hi).None? ==> forall j :: 1 <= j < hi ==> e[j] != '('
    decreases hi
  {
    if hi > 1 && e[hi - 1] != '(' {
      LastOpenParenIsLast(e, hi - 1);
    }
  }

  lemma {:induction false} LastOpenParenIs(e: string, hi: nat, p: nat)
    requires 1 <= p < hi <= |e| && e[p] == '('
    requires forall j :: p < j < hi ==> e[j] != '('
    ensures LastOpenParen(e, hi) == Some(p)
    decreases hi
  {
    if hi - 1 != p {
      LastOpenParenIs(e, hi - 1, p);
    }
  }

  /** Digits after a non-digit are exactly the trailing digits. */
  lemma {:induction false} TrailingDigitsOf(front: string, d: string)
    requires AllDigits(d) && front != [] && !IsDigit(front[|front| - 1])
    ensures TrailingDigits(front + d) == d
    decreases |d|
  {
    if d == [] {
      assert front + d == front;
    } else {
      assert (front + d)[..|front + d| - 1] == front + d[..|d| - 1];
      TrailingDigitsOf(front, d[..|d| - 1]);
      assert d[..|d| - 1] + [d[|d| - 1]] == d;
    }
  }
}
