/**
 * The main page's data pipeline (`Main` and `RuntimeChart`): the rounds that
 * pass the server and timeframe filters are, one by one, narrowed to the
 * batches matching the search text and then, when "collate similar" is on,
 * collated; the chart shows one bar per round with runtimes, as high as the
 * round's summed count.
 */
module MainView {
  import opened Wrappers
  import Text
  import opened Runtimes
  import Rounds
  import opened Collation

  type Round = Rounds.Round

  // ---------------------------------------------------------------------------
  // Round filter

  /** The server drop-down: "all" lets every round through, any other value only that server's. */
  predicate PassesServerFilter(serverFilter: string, r: Round)
  {
    serverFilter == "all" || r.server == serverFilter
  }

  /**
   * `rounds.filter(...)`: the rounds, in order, that pass the server filter and
   * the timeframe test `recent` (how many days separate a round from the last
   * one is date arithmetic, given here as a predicate).
   */
  function Passing(rounds: seq<Round>, serverFilter: string, recent: Round -> bool): seq<Round>
    decreases |rounds|
  {
    if rounds == [] then []
    else
      var n := |rounds| - 1;
      Passing(rounds[..n], serverFilter, recent)
      + (if PassesServerFilter(serverFilter, rounds[n]) && recent(rounds[n]) then [rounds[n]] else [])
  }

  /** A round is kept exactly when it is one of the input rounds and passes both tests. */
  lemma {:induction false} PassingIff(rounds: seq<Round>, serverFilter: string, recent: Round -> bool, r: Round)
    ensures r in Passing(rounds, serverFilter, recent)
            <==> r in rounds && PassesServerFilter(serverFilter, r) && recent(r)
    decreases |rounds|
  {
    if rounds != [] {
      var n := |rounds| - 1;
      PassingIff(rounds[..n], serverFilter, recent, r);
      assert rounds == rounds[..n] + [rounds[n]];
    }
  }

  /** Filtering keeps the input order: it distributes over concatenation. */
  lemma {:induction false} PassingAppend(a: seq<Round>, b: seq<Round>, serverFilter: string, recent: Round -> bool)
    ensures Passing(a + b, serverFilter, recent) == Passing(a, serverFilter, recent) + Passing(b, serverFilter, recent)
    decreases |b|
  {
    if b == [] {
      assert a + b == a;
    } else {
      var n := |b| - 1;
      PassingAppend(a, b[..n], serverFilter, recent);
      assert a + b == (a + b[..n]) + [b[n]];
      assert (a + b)[..|a + b| - 1] == a + b[..n];
    }
  }

  /** "all servers" with every round recent lets every round through. */
  lemma {:induction false} PassingAll(rounds: seq<Round>, recent: Round -> bool)
    requires forall r :: r in rounds ==> recent(r)
    ensures Passing(rounds, "all", recent) == rounds
    decreases |rounds|
  {
    if rounds != [] {
      var n := |rounds| - 1;
      assert rounds[n] in rounds;
      PassingAll(rounds[..n], recent);
      assert rounds == rounds[..n] + [rounds[n]];
    }
  }

  // ---------------------------------------------------------------------------
  // Search

  /**
   * A batch matches the lower-cased search text when its lower-cased exception
   * or source file contains it, or when its procedure path, not lower-cased,
   * contains it.
   */
  predicate MatchesSearch(b: RuntimeBatch, lowercaseSearch: string)
  {
    || Text.Contains(Text.Lower(b.exception), lowercaseSearch)
    || Text.Contains(Text.Lower(b.sourceFile), lowercaseSearch)
    || Text.Contains(b.procPath, lowercaseSearch)
  }

  /** The matching batches, in order. */
  function Matching(bs: seq<RuntimeBatch>, lowercaseSearch: string): seq<RuntimeBatch>
    decreases |bs|
  {
    if bs == [] then []
    else
      var n := |bs| - 1;
      Matching(bs[..n], lowercaseSearch) + (if MatchesSearch(bs[n], lowercaseSearch) then [bs[n]] else [])
  }

  /** A batch survives the search exactly when it was there and matches. */
  lemma {:induction false} MatchingIff(bs: seq<RuntimeBatch>, lowercaseSearch: string, b: RuntimeBatch)
    ensures b in Matching(bs, lowercaseSearch) <==> b in bs && MatchesSearch(b, lowercaseSearch)
    decreases |bs|
  {
    if bs != [] {
      var n := |bs| - 1;
      MatchingIff(bs[..n], lowercaseSearch, b);
      assert bs == bs[..n] + [bs[n]];
    }
  }

  /** The search keeps the order of the batches: it distributes over concatenation. */
  lemma {:induction false} MatchingAppend(a: seq<RuntimeBatch>, b: seq<RuntimeBatch>, lowercaseSearch: string)
    ensures Matching(a + b, lowercaseSearch) == Matching(a, lowercaseSearch) + Matching(b, lowercaseSearch)
    decreases |b|
  {
    if b == [] {
      assert a + b == a;
    } else {
      var n := |b| - 1;
      MatchingAppend(a, b[..n], lowercaseSearch);
      assert a + b == (a + b[..n]) + [b[n]];
      assert (a + b)[..|a + b| - 1] == a + b[..n];
    }
  }

  /**
   * The procedure path is compared with the lower-cased search text as it is,
   * so a path containing the typed text with capitals is not found by it.
   */
  lemma ProcPathSearchIsCaseSensitive()
    ensures var b := RuntimeBatch(1, "", "/Foo", "", 1, None);
            && Text.Contains(b.procPath, "Foo")
            && !MatchesSearch(b, Text.Lower("Foo"))
  {
    var p := "/Foo";
    var ls := Text.Lower("Foo");
    assert ls == "foo" by {
      assert ls[0] == 'f';
    }
    assert "Foo" <= p[1..];
    assert !Text.Contains(p[4..], ls);
    assert !Text.Contains(p[3..], ls) by { assert p[3..][1..] == p[4..]; }
    assert !Text.Contains(p[2..], ls) by { assert p[2..][1..] == p[3..]; }
    assert !Text.Contains(p[1..], ls) by { assert p[1..][1..] == p[2..]; assert p[1..][0] != ls[0]; }
    assert !Text.Contains(p, ls) by { assert p[0] != ls[0]; }
    assert Text.Lower("") == "";
  }

  /** The search loop: `runtimesAfterFiltering` collects the matching batches in order. */
  method SearchRuntimes(bs: seq<RuntimeBatch>, lowercaseSearch: string) returns (out: seq<RuntimeBatch>)
    ensures out == Matching(bs, lowercaseSearch)
  {
    out := [];
    for i := 0 to |bs|
      invariant out == Matching(bs[..i], lowercaseSearch)
    {
      assert bs[..i + 1][..i] == bs[..i];
      if MatchesSearch(bs[i], lowercaseSearch) {
        out := out + [bs[i]];
      }
    }
    assert bs[..|bs|] == bs;
  }

  // ---------------------------------------------------------------------------
  // The per-round view

  /** A round's runtimes after the search: untouched without search text, else the matching batches (none when absent). */
  function Searched(r: Round, search: string): Option<seq<RuntimeBatch>>
  {
    if search == "" then r.runtimes else Some(Matching(OrEmpty(r.runtimes), Text.Lower(search)))
  }

  /** All batches that reach collation from the rounds `ps`, in order. */
  function Seen(ps: seq<Round>, search: string): seq<RuntimeBatch>
    decreases |ps|
  {
    if ps == [] then [] else Seen(ps[..|ps| - 1], search) + OrEmpty(Searched(ps[|ps| - 1], search))
  }

  lemma SeenStep(ps: seq<Round>, i: nat, search: string)
    requires i < |ps|
    ensures Seen(ps[..i + 1], search) == Seen(ps[..i], search) + OrEmpty(Searched(ps[i], search))
  {
    var prefix := ps[..i + 1];
    assert prefix[..|prefix| - 1] == ps[..i];
    assert prefix[|prefix| - 1] == ps[i];
  }

  /** One round as shown, given the batches `earlier` that earlier shown rounds fed to collation. */
  function ViewRound(r: Round, earlier: seq<RuntimeBatch>, search: string, collate: bool): Round
  {
    var runtimes := Searched(r, search);
    if collate then r.(runtimes := Some(Collated(earlier, OrEmpty(runtimes)))) else r.(runtimes := runtimes)
  }

  /** `filteredRounds`, from the rounds that passed the filter. */
  function View(ps: seq<Round>, search: string, collate: bool): seq<Round>
  {
    seq(|ps|, i requires 0 <= i < |ps| => ViewRound(ps[i], Seen(ps[..i], search), search, collate))
  }

  lemma ViewOfPrefixAt(ps: seq<Round>, k: nat, j: nat, search: string, collate: bool)
    requires j < k <= |ps|
    ensures |View(ps[..k], search, collate)| == k
    ensures View(ps[..k], search, collate)[j] == ViewRound(ps[j], Seen(ps[..j], search), search, collate)
  {
    var prefix := ps[..k];
    assert prefix[j] == ps[j] && prefix[..j] == ps[..j];
  }

  lemma ViewStep(ps: seq<Round>, i: nat, search: string, collate: bool)
    requires i < |ps|
    ensures View(ps[..i + 1], search, collate)
            == View(ps[..i], search, collate) + [ViewRound(ps[i], Seen(ps[..i], search), search, collate)]
  {
    var before, after := View(ps[..i], search, collate), View(ps[..i + 1], search, collate);
    var next := before + [ViewRound(ps[i], Seen(ps[..i], search), search, collate)];
    forall j | 0 <= j <= i
      ensures after[j] == next[j]
    {
      ViewOfPrefixAt(ps, i + 1, j, search, collate);
      if j < i {
        ViewOfPrefixAt(ps, i, j, search, collate);
      }
    }
    assert after == next;
  }

  /**
   * The filter/map pipeline: the search loop and the collation loop of each
   * passing round, with `collatedRuntimes` carried from round to round.
   */
  method FilteredRounds(rounds: seq<Round>, serverFilter: string, recent: Round -> bool, search: string, collate: bool)
    returns (filtered: seq<Round>)
    ensures filtered == View(Passing(rounds, serverFilter, recent), search, collate)
  {
    var ps := Passing(rounds, serverFilter, recent);
    var lowercaseSearch := Text.Lower(search);
    var collatedRuntimes: map<string, RuntimeBatch> := map[];
    filtered := [];
    for i := 0 to |ps|
      invariant filtered == View(ps[..i], search, collate)
      invariant collate ==> collatedRuntimes == SharedOf(Seen(ps[..i], search))
    {
      var current;
      current, collatedRuntimes := ShowRound(ps[i], Seen(ps[..i], search), search, lowercaseSearch, collate, collatedRuntimes);
      SeenStep(ps, i, search);
      ViewStep(ps, i, search, collate);
      filtered := filtered + [current];
    }
    assert ps[..|ps|] == ps;
  }

  /** The body of the pipeline's `map` for one round. */
  method ShowRound(round: Round, ghost earlier: seq<RuntimeBatch>, search: string, lowercaseSearch: string,
                   collate: bool, collatedRuntimes: map<string, RuntimeBatch>)
    returns (current: Round, collatedRuntimes': map<string, RuntimeBatch>)
    requires lowercaseSearch == Text.Lower(search)
    requires collate ==> collatedRuntimes == SharedOf(earlier)
    ensures current == ViewRound(round, earlier, search, collate)
    ensures collate ==> collatedRuntimes' == SharedOf(earlier + OrEmpty(Searched(round, search)))
  {
    current := round;
    collatedRuntimes' := collatedRuntimes;
    if search != "" {
      var runtimesAfterFiltering := SearchRuntimes(OrEmpty(round.runtimes), lowercaseSearch);
      current := current.(runtimes := Some(runtimesAfterFiltering));
    }
    if collate {
      var runtimesAfterCollation;
      runtimesAfterCollation, collatedRuntimes' := CollateRound(collatedRuntimes, earlier, OrEmpty(current.runtimes));
      current := current.(runtimes := Some(runtimesAfterCollation));
    }
  }

  // ---------------------------------------------------------------------------
  // What the view promises

  /** The view changes only a round's runtimes: every other field is the input round's. */
  lemma ViewKeepsRoundFields(ps: seq<Round>, search: string, collate: bool, i: nat)
    requires i < |ps|
    ensures |View(ps, search, collate)| == |ps|
    ensures View(ps, search, collate)[i].(runtimes := ps[i].runtimes) == ps[i]
  {
  }

  /** With no search text and collation off, every round is shown as it came. */
  lemma ViewIsIdentityWhenIdle(ps: seq<Round>)
    ensures View(ps, "", false) == ps
  {
    assert forall i :: 0 <= i < |ps| ==> View(ps, "", false)[i] == ps[i];
  }

  /**
   * With a search but no collation, each round keeps, in order, exactly its
   * matching batches; absent runtimes become an empty list.
   */
  lemma SearchedViewIff(ps: seq<Round>, search: string, i: nat, b: RuntimeBatch)
    requires search != "" && i < |ps|
    ensures View(ps, search, false)[i].runtimes.Some?
    ensures b in View(ps, search, false)[i].runtimes.value
            <==> b in OrEmpty(ps[i].runtimes) && MatchesSearch(b, Text.Lower(search))
  {
    MatchingIff(OrEmpty(ps[i].runtimes), Text.Lower(search), b);
  }

  /** Lower-casing the search text again changes nothing: the search does not see case. */
  lemma SearchIgnoresCase(r: Round, s1: string, s2: string)
    requires Text.Lower(s1) == Text.Lower(s2)
    ensures Searched(r, s1) == Searched(r, s2)
  {
    assert |s1| == |Text.Lower(s1)| == |Text.Lower(s2)| == |s2|;
  }

  /** Collation keeps each shown round's summed count equal to that of its searched batches. */
  lemma CollatedViewKeepsTotals(ps: seq<Round>, search: string, i: nat)
    requires i < |ps|
    ensures View(ps, search, true)[i].runtimes.Some?
    ensures TotalCount(View(ps, search, true)[i].runtimes.value) == TotalCount(OrEmpty(Searched(ps[i], search)))
  {
    CollationKeepsTotal(Seen(ps[..i], search), OrEmpty(Searched(ps[i], search)));
  }

  // ---------------------------------------------------------------------------
  // Chart

  /** One bar: its label is the round id, its colour comes from the server. */
  datatype Bar = Bar(roundId: Rounds.RoundId, server: string, total: nat)

  /** The bars of the rounds whose runtimes are present, in order. */
  function Bars(rounds: seq<Round>): seq<Bar>
    decreases |rounds|
  {
    if rounds == [] then []
    else
      var n := |rounds| - 1;
      var r := rounds[n];
      Bars(rounds[..n]) + (if r.runtimes.Some? then [Bar(r.roundId, r.server, TotalCount(r.runtimes.value))] else [])
  }

  /**
   * `RuntimeChart`'s loop: a label and a `(server, total)` pair for every round
   * whose runtimes are present, an empty list included.
   */
  method ChartData(rounds: seq<Round>) returns (labels: seq<Rounds.RoundId>, datasets: seq<(string, nat)>)
    ensures |labels| == |datasets| == |Bars(rounds)|
    ensures forall i :: 0 <= i < |labels| ==> labels[i] == Bars(rounds)[i].roundId
    ensures forall i :: 0 <= i < |datasets| ==> datasets[i] == (Bars(rounds)[i].server, Bars(rounds)[i].total)
  {
    labels, datasets := [], [];
    for i := 0 to |rounds|
      invariant |labels| == |datasets| == |Bars(rounds[..i])|
      invariant forall j :: 0 <= j < |labels| ==> labels[j] == Bars(rounds[..i])[j].roundId
      invariant forall j :: 0 <= j < |datasets| ==> datasets[j] == (Bars(rounds[..i])[j].server, Bars(rounds[..i])[j].total)
    {
      assert rounds[..i + 1][..i] == rounds[..i];
      var round := rounds[i];
      if round.runtimes.Some? {
        labels := labels + [round.roundId];
        datasets := datasets + [(round.server, TotalCount(round.runtimes.value))];
      }
    }
    assert rounds[..|rounds|] == rounds;
  }

  /** A bar exists exactly for each round with runtimes, and its height is that round's summed count. */
  lemma {:induction false} BarsIff(rounds: seq<Round>, bar: Bar)
    ensures bar in Bars(rounds)
            <==> exists r :: r in rounds && r.runtimes.Some? && bar == Bar(r.roundId, r.server, TotalCount(r.runtimes.value))
    decreases |rounds|
  {
    if rounds != [] {
      var n := |rounds| - 1;
      BarsIff(rounds[..n], bar);
      assert rounds == rounds[..n] + [rounds[n]];
      if bar in Bars(rounds[..n]) {
        var r :| r in rounds[..n] && r.runtimes.Some? && bar == Bar(r.roundId, r.server, TotalCount(r.runtimes.value));
        assert r in rounds;
      }
    }
  }

  /** When every round has runtimes, there is one bar per round, in order. */
  lemma {:induction false} BarsOfPresent(rounds: seq<Round>)
    requires forall i :: 0 <= i < |rounds| ==> rounds[i].runtimes.Some?
    ensures |Bars(rounds)| == |rounds|
    ensures forall i :: 0 <= i < |rounds| ==>
              Bars(rounds)[i] == Bar(rounds[i].roundId, rounds[i].server, TotalCount(rounds[i].runtimes.value))
    decreases |rounds|
  {
    if rounds != [] {
      var n := |rounds| - 1;
      BarsOfPresent(rounds[..n]);
    }
  }

  /**
   * With collation on, every shown round has runtimes (absent ones become
   * empty), so every shown round gets a bar, and its height is the summed count
   * of its searched batches.
   */
  lemma CollatedViewBarsEveryRound(ps: seq<Round>, search: string)
    ensures |Bars(View(ps, search, true))| == |ps|
    ensures forall i :: 0 <= i < |ps| ==> Bars(View(ps, search, true))[i].total == TotalCount(OrEmpty(Searched(ps[i], search)))
  {
    var v := View(ps, search, true);
    forall i | 0 <= i < |ps|
      ensures v[i].runtimes.Some? && TotalCount(v[i].runtimes.value) == TotalCount(OrEmpty(Searched(ps[i], search)))
    {
      CollatedViewKeepsTotals(ps, search, i);
    }
    BarsOfPresent(v);
  }
}
