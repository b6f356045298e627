/**
 * The runtime table: every batch of every round is walked in order and
 * grouped by its runtime key.  Per key the table keeps the first batch seen,
 * the set of round ids the key occurs in and the sum of its counts; the kept
 * batches are then sorted by that sum, largest first.
 */
module RuntimeTable {
  import opened Wrappers
  import opened Runtimes
  import opened RuntimeKey
  import Rounds
  import Sorting

  /** One batch of one round, in the order the table walks them. */
  datatype Entry = Entry(roundId: Rounds.RoundId, batch: RuntimeBatch)

  /** The batches of one round; a round without runtimes has none. */
  function RoundEntries(r: Rounds.Round): seq<Entry>
  {
    if r.runtimes.None? then []
    else seq(|r.runtimes.value|, j requires 0 <= j < |r.runtimes.value| => Entry(r.roundId, r.runtimes.value[j]))
  }

  /** The batches of all rounds, round by round. */
  function Entries(rounds: seq<Rounds.Round>): seq<Entry>
    decreases |rounds|
  {
    if rounds == [] then [] else Entries(rounds[..|rounds| - 1]) + RoundEntries(rounds[|rounds| - 1])
  }

  function Key(e: Entry): string
  {
    RuntimeToKey(e.batch)
  }

  /** The keys that occur in `es`. */
  function Keys(es: seq<Entry>): set<string>
    decreases |es|
  {
    if es == [] then {} else Keys(es[..|es| - 1]) + {Key(es[|es| - 1])}
  }

  /** The first batch of every key, in the order the keys first occur. */
  function FirstPerKey(es: seq<Entry>): seq<RuntimeBatch>
    decreases |es|
  {
    if es == [] then []
    else
      var n := |es| - 1;
      FirstPerKey(es[..n]) + (if Key(es[n]) in Keys(es[..n]) then [] else [es[n].batch])
  }

  /** The ids of the rounds in which `key` occurs. */
  function RoundSet(es: seq<Entry>, key: string): set<Rounds.RoundId>
    decreases |es|
  {
    if es == [] then {}
    else
      var n := |es| - 1;
      RoundSet(es[..n], key) + (if Key(es[n]) == key then {es[n].roundId} else {})
  }

  /** The summed count of the batches with `key`. */
  function Total(es: seq<Entry>, key: string): nat
    decreases |es|
  {
    if es == [] then 0
    else
      var n := |es| - 1;
      Total(es[..n], key) + (if Key(es[n]) == key then es[n].batch.count else 0)
  }

  // ---------------------------------------------------------------------------
  // What the specification functions mean

  /** A batch is walked exactly when its round has runtimes and lists it. */
  lemma {:induction false} EntriesIff(rounds: seq<Rounds.Round>, e: Entry)
    ensures e in Entries(rounds) <==>
              exists i, j :: 0 <= i < |rounds| && rounds[i].runtimes.Some? && 0 <= j < |rounds[i].runtimes.value|
                             && e == Entry(rounds[i].roundId, rounds[i].runtimes.value[j])
    decreases |rounds|
  {
    if rounds != [] {
      var n := |rounds| - 1;
      var init := rounds[..n];
      EntriesIff(init, e);
      assert Entries(rounds) == Entries(init) + RoundEntries(rounds[n]);
      if e in Entries(init) {
        var i, j :| 0 <= i < n && init[i].runtimes.Some? && 0 <= j < |init[i].runtimes.value|
                    && e == Entry(init[i].roundId, init[i].runtimes.value[j]);
        assert init[i] == rounds[i];
      } else if e in RoundEntries(rounds[n]) {
        var j :| 0 <= j < |RoundEntries(rounds[n])| && RoundEntries(rounds[n])[j] == e;
        assert e == Entry(rounds[n].roundId, rounds[n].runtimes.value[j]);
      } else {
        forall i, j | 0 <= i < |rounds| && rounds[i].runtimes.Some? && 0 <= j < |rounds[i].runtimes.value|
          ensures e != Entry(rounds[i].roundId, rounds[i].runtimes.value[j])
        {
          if i < n {
            assert init[i] == rounds[i];
          } else {
            assert RoundEntries(rounds[n])[j] == Entry(rounds[i].roundId, rounds[i].runtimes.value[j]);
          }
        }
      }
    }
  }

  /** A round without runtimes adds nothing to the walk. */
  lemma AbsentRuntimesContributeNothing(rounds: seq<Rounds.Round>, r: Rounds.Round)
    requires r.runtimes.None?
    ensures Entries(rounds + [r]) == Entries(rounds)
  {
    assert (rounds + [r])[..|rounds|] == rounds;
  }

  lemma {:induction false} KeysIff(es: seq<Entry>, key: string)
    ensures key in Keys(es) <==> exists i :: 0 <= i < |es| && Key(es[i]) == key
    decreases |es|
  {
    if es != [] {
      var n := |es| - 1;
      KeysIff(es[..n], key);
      if key in Keys(es[..n]) {
        var i :| 0 <= i < n && Key(es[..n][i]) == key;
        assert es[..n][i] == es[i];
      } else if Key(es[n]) != key {
        forall i | 0 <= i < |es| ensures Key(es[i]) != key {
          if i < n {
            assert es[..n][i] == es[i];
          }
        }
      }
    }
  }

  /** Appending one entry extends each specification function by that entry alone. */
  lemma AppendOne(es: seq<Entry>, e: Entry)
    ensures (es + [e])[..|es|] == es
    ensures Keys(es + [e]) == Keys(es) + {Key(e)}
    ensures FirstPerKey(es + [e]) == FirstPerKey(es) + (if Key(e) in Keys(es) then [] else [e.batch])
    ensures forall k :: RoundSet(es + [e], k) == RoundSet(es, k) + (if Key(e) == k then {e.roundId} else {})
    ensures forall k :: Total(es + [e], k) == Total(es, k) + (if Key(e) == k then e.batch.count else 0)
  {
    assert (es + [e])[..|es|] == es;
  }

  /** The kept batches have pairwise different keys, each of which occurs in the walk. */
  lemma {:induction false} FirstPerKeyDistinct(es: seq<Entry>)
    ensures var r := FirstPerKey(es);
            && (forall p :: 0 <= p < |r| ==> RuntimeToKey(r[p]) in Keys(es))
            && (forall p, q :: 0 <= p < q < |r| ==> RuntimeToKey(r[p]) != RuntimeToKey(r[q]))
    decreases |es|
  {
    if es != [] {
      var n := |es| - 1;
      FirstPerKeyDistinct(es[..n]);
      assert es == es[..n] + [es[n]];
      AppendOne(es[..n], es[n]);
    }
  }

  /** Every key of the walk has a kept batch. */
  lemma {:induction false} FirstPerKeyCovers(es: seq<Entry>)
    ensures forall key :: key in Keys(es) ==>
              exists p :: 0 <= p < |FirstPerKey(es)| && RuntimeToKey(FirstPerKey(es)[p]) == key
    decreases |es|
  {
    if es != [] {
      var n := |es| - 1;
      FirstPerKeyCovers(es[..n]);
      assert es == es[..n] + [es[n]];
      AppendOne(es[..n], es[n]);
      var r0 := FirstPerKey(es[..n]);
      var r := FirstPerKey(es);
      forall key | key in Keys(es) ensures exists p :: 0 <= p < |r| && RuntimeToKey(r[p]) == key {
        if key in Keys(es[..n]) {
          var p :| 0 <= p < |r0| && RuntimeToKey(r0[p]) == key;
          assert r[p] == r0[p];
        } else {
          assert RuntimeToKey(r[|r0|]) == key;
        }
      }
    }
  }

  /** Each kept batch is the first batch walked with its key. */
  lemma {:induction false} FirstPerKeyIsFirst(es: seq<Entry>)
    ensures var r := FirstPerKey(es);
            forall p :: 0 <= p < |r| ==> exists i :: 0 <= i < |es| && es[i].batch == r[p]
                                          && forall h :: 0 <= h < i ==> Key(es[h]) != RuntimeToKey(r[p])
    decreases |es|
  {
    if es != [] {
      var n := |es| - 1;
      var init := es[..n];
      FirstPerKeyIsFirst(init);
      assert es == init + [es[n]];
      AppendOne(init, es[n]);
      var r0 := FirstPerKey(init);
      var r := FirstPerKey(es);
      forall p | 0 <= p < |r|
        ensures exists i :: 0 <= i < |es| && es[i].batch == r[p] && forall h :: 0 <= h < i ==> Key(es[h]) != RuntimeToKey(r[p])
      {
        if p < |r0| {
          var i :| 0 <= i < |init| && init[i].batch == r0[p] && forall h :: 0 <= h < i ==> Key(init[h]) != RuntimeToKey(r0[p]);
          assert es[i] == init[i];
          forall h | 0 <= h < i ensures Key(es[h]) != RuntimeToKey(r[p]) {
            assert es[h] == init[h];
          }
        } else {
          KeysIff(init, Key(es[n]));
          forall h | 0 <= h < n ensures Key(es[h]) != RuntimeToKey(r[p]) {
            assert es[h] == init[h];
          }
        }
      }
    }
  }

  /** A round id is in the key's set exactly when a batch with the key belongs to that round. */
  lemma {:induction false} RoundSetIff(es: seq<Entry>, key: string, id: Rounds.RoundId)
    ensures id in RoundSet(es, key) <==> exists i :: 0 <= i < |es| && es[i].roundId == id && Key(es[i]) == key
    decreases |es|
  {
    if es != [] {
      var n := |es| - 1;
      RoundSetIff(es[..n], key, id);
      if id in RoundSet(es[..n], key) {
        var i :| 0 <= i < n && es[..n][i].roundId == id && Key(es[..n][i]) == key;
        assert es[..n][i] == es[i];
      } else if !(Key(es[n]) == key && es[n].roundId == id) {
        forall i | 0 <= i < |es| ensures !(es[i].roundId == id && Key(es[i]) == key) {
          if i < n {
            assert es[..n][i] == es[i];
          }
        }
      }
    }
  }

  /** The total of a concatenation is the sum of the totals: a total is a sum over the batches. */
  lemma {:induction false} TotalAppend(a: seq<Entry>, b: seq<Entry>, key: string)
    ensures Total(a + b, key) == Total(a, key) + Total(b, key)
    decreases |b|
  {
    if b == [] {
      assert a + b == a;
    } else {
      var n := |b| - 1;
      TotalAppend(a, b[..n], key);
      assert a + b == (a + b[..n]) + [b[n]];
      assert b == b[..n] + [b[n]];
      AppendOne(a + b[..n], b[n]);
      AppendOne(b[..n], b[n]);
    }
  }

  /** A key that never occurs totals zero. */
  lemma {:induction false} TotalOfAbsentKey(es: seq<Entry>, key: string)
    requires key !in Keys(es)
    ensures Total(es, key) == 0
    decreases |es|
  {
    if es != [] {
      TotalOfAbsentKey(es[..|es| - 1], key);
    }
  }

  /** A key that never occurs has no rounds. */
  lemma {:induction false} RoundSetOfAbsentKey(es: seq<Entry>, key: string)
    requires key !in Keys(es)
    ensures RoundSet(es, key) == {}
    decreases |es|
  {
    if es != [] {
      RoundSetOfAbsentKey(es[..|es| - 1], key);
    }
  }

  /** A single batch totals its own count under its own key. */
  lemma TotalOfOne(e: Entry)
    ensures Total([e], Key(e)) == e.batch.count
  {
    assert [e][..0] == [];
  }

  // ---------------------------------------------------------------------------
  // The loops

  /** `roundCounts` holds, for every key of the walk and no other, the ids of its rounds. */
  ghost predicate RoundCountsOf(es: seq<Entry>, roundCounts: map<string, set<Rounds.RoundId>>)
  {
    && (forall k :: k in roundCounts <==> k in Keys(es))
    && (forall k :: k in roundCounts ==> roundCounts[k] == RoundSet(es, k))
  }

  /** `runtimeCounts` holds, for every key of the walk and no other, its total. */
  ghost predicate RuntimeCountsOf(es: seq<Entry>, runtimeCounts: map<string, nat>)
  {
    && (forall k :: k in runtimeCounts <==> k in Keys(es))
    && (forall k :: k in runtimeCounts ==> runtimeCounts[k] == Total(es, k))
  }

  /** The three tables describe the walk `es`. */
  ghost predicate Summarises(es: seq<Entry>, runtimes: seq<RuntimeBatch>,
                             roundCounts: map<string, set<Rounds.RoundId>>, runtimeCounts: map<string, nat>)
  {
    runtimes == FirstPerKey(es) && RoundCountsOf(es, roundCounts) && RuntimeCountsOf(es, runtimeCounts)
  }

  lemma RoundCountsStep(es: seq<Entry>, roundCounts: map<string, set<Rounds.RoundId>>, e: Entry)
    requires RoundCountsOf(es, roundCounts)
    ensures RoundCountsOf(es + [e], if Key(e) in roundCounts then roundCounts[Key(e) := roundCounts[Key(e)] + {e.roundId}]
                                    else roundCounts[Key(e) := {e.roundId}])
  {
    AppendOne(es, e);
    var rc := if Key(e) in roundCounts then roundCounts[Key(e) := roundCounts[Key(e)] + {e.roundId}]
              else roundCounts[Key(e) := {e.roundId}];
    forall k | k in rc ensures rc[k] == RoundSet(es + [e], k) {
      assert RoundSet(es + [e], k) == RoundSet(es, k) + (if Key(e) == k then {e.roundId} else {});
      if k != Key(e) {
        assert rc[k] == roundCounts[k];
      } else if Key(e) !in roundCounts {
        RoundSetOfAbsentKey(es, k);
      }
    }
  }

  lemma RuntimeCountsStep(es: seq<Entry>, runtimeCounts: map<string, nat>, e: Entry)
    requires RuntimeCountsOf(es, runtimeCounts)
    ensures RuntimeCountsOf(es + [e], if Key(e) in runtimeCounts && runtimeCounts[Key(e)] != 0
                                      then runtimeCounts[Key(e) := runtimeCounts[Key(e)] + e.batch.count]
                                      else runtimeCounts[Key(e) := e.batch.count])
  {
    AppendOne(es, e);
    var tc := if Key(e) in runtimeCounts && runtimeCounts[Key(e)] != 0
              then runtimeCounts[Key(e) := runtimeCounts[Key(e)] + e.batch.count]
              else runtimeCounts[Key(e) := e.batch.count];
    forall k | k in tc ensures tc[k] == Total(es + [e], k) {
      assert Total(es + [e], k) == Total(es, k) + (if Key(e) == k then e.batch.count else 0);
      if k != Key(e) {
        assert tc[k] == runtimeCounts[k];
      } else if Key(e) !in runtimeCounts {
        TotalOfAbsentKey(es, k);
      }
    }
  }

  /**
   * The body of the inner loop for one batch.  A count is added only when the
   * stored total is non-zero, and set otherwise, as the `if (runtimeCounts[key])`
   * test does; both give the sum.
   */
  method AddBatch(ghost walked: seq<Entry>, runtimes: seq<RuntimeBatch>, roundCounts: map<string, set<Rounds.RoundId>>,
                  runtimeCounts: map<string, nat>, roundId: Rounds.RoundId, b: RuntimeBatch)
    returns (runtimes': seq<RuntimeBatch>, roundCounts': map<string, set<Rounds.RoundId>>, runtimeCounts': map<string, nat>)
    requires Summarises(walked, runtimes, roundCounts, runtimeCounts)
    ensures Summarises(walked + [Entry(roundId, b)], runtimes', roundCounts', runtimeCounts')
  {
    var key := RuntimeToKey(b);
    ghost var e := Entry(roundId, b);
    AppendOne(walked, e);
    RoundCountsStep(walked, roundCounts, e);
    RuntimeCountsStep(walked, runtimeCounts, e);
    runtimes' := runtimes;
    if key in roundCounts {
      roundCounts' := roundCounts[key := roundCounts[key] + {roundId}];
    } else {
      roundCounts' := roundCounts[key := {roundId}];
      runtimes' := runtimes + [b];
    }
    if key in runtimeCounts && runtimeCounts[key] != 0 {
      runtimeCounts' := runtimeCounts[key := runtimeCounts[key] + b.count];
    } else {
      runtimeCounts' := runtimeCounts[key := b.count];
    }
  }

  /** The inner loop: the batches of one round, in order. */
  method AddRound(ghost before: seq<Entry>, runtimes: seq<RuntimeBatch>, roundCounts: map<string, set<Rounds.RoundId>>,
                  runtimeCounts: map<string, nat>, round: Rounds.Round)
    returns (runtimes': seq<RuntimeBatch>, roundCounts': map<string, set<Rounds.RoundId>>, runtimeCounts': map<string, nat>)
    requires round.runtimes.Some?
    requires Summarises(before, runtimes, roundCounts, runtimeCounts)
    ensures Summarises(before + RoundEntries(round), runtimes', roundCounts', runtimeCounts')
  {
    runtimes', roundCounts', runtimeCounts' := runtimes, roundCounts, runtimeCounts;
    var batches := round.runtimes.value;
    assert before + RoundEntries(round)[..0] == before;
    for j := 0 to |batches|
      invariant Summarises(before + RoundEntries(round)[..j], runtimes', roundCounts', runtimeCounts')
    {
      runtimes', roundCounts', runtimeCounts' := AddBatch(before + RoundEntries(round)[..j], runtimes', roundCounts',
                                                          runtimeCounts', round.roundId, batches[j]);
      assert RoundEntries(round)[..j + 1] == RoundEntries(round)[..j] + [Entry(round.roundId, batches[j])];
      assert before + RoundEntries(round)[..j + 1] == (before + RoundEntries(round)[..j]) + [Entry(round.roundId, batches[j])];
    }
    assert RoundEntries(round)[..|batches|] == RoundEntries(round);
  }

  /** The loops over rounds and batches. */
  method Aggregate(rounds: seq<Rounds.Round>)
    returns (runtimes: seq<RuntimeBatch>, roundCounts: map<string, set<Rounds.RoundId>>, runtimeCounts: map<string, nat>)
    ensures runtimes == FirstPerKey(Entries(rounds))
    ensures forall k :: k in roundCounts <==> k in Keys(Entries(rounds))
    ensures forall k :: k in roundCounts ==> roundCounts[k] == RoundSet(Entries(rounds), k)
    ensures forall k :: k in runtimeCounts <==> k in Keys(Entries(rounds))
    ensures forall k :: k in runtimeCounts ==> runtimeCounts[k] == Total(Entries(rounds), k)
  {
    runtimes := [];
    roundCounts := map[];
    runtimeCounts := map[];
    for i := 0 to |rounds|
      invariant Summarises(Entries(rounds[..i]), runtimes, roundCounts, runtimeCounts)
    {
      var round := rounds[i];
      assert rounds[..i + 1][..i] == rounds[..i];
      assert Entries(rounds[..i + 1]) == Entries(rounds[..i]) + RoundEntries(round);
      if round.runtimes.None? {
        assert Entries(rounds[..i + 1]) == Entries(rounds[..i]);
        continue;
      }
      runtimes, roundCounts, runtimeCounts := AddRound(Entries(rounds[..i]), runtimes, roundCounts, runtimeCounts, round);
    }
    assert rounds[..|rounds|] == rounds;
  }

  /** A kept batch's total; every kept batch's key is in the map. */
  function Score(runtimeCounts: map<string, nat>): RuntimeBatch -> nat
  {
    b => if RuntimeToKey(b) in runtimeCounts then runtimeCounts[RuntimeToKey(b)] else 0
  }

  /**
   * `RuntimeTable`: one batch per key, ordered by total count, largest first
   * (a stable sort: equal totals keep the order of first occurrence).
   */
  method Table(rounds: seq<Rounds.Round>)
    returns (runtimes: seq<RuntimeBatch>, roundCounts: map<string, set<Rounds.RoundId>>, runtimeCounts: map<string, nat>)
    ensures multiset(runtimes) == multiset(FirstPerKey(Entries(rounds)))
    ensures forall p, q :: 0 <= p < q < |runtimes| ==>
              Total(Entries(rounds), RuntimeToKey(runtimes[p])) >= Total(Entries(rounds), RuntimeToKey(runtimes[q]))
    ensures forall k :: k in roundCounts <==> k in Keys(Entries(rounds))
    ensures forall k :: k in roundCounts ==> roundCounts[k] == RoundSet(Entries(rounds), k)
    ensures forall k :: k in runtimeCounts <==> k in Keys(Entries(rounds))
    ensures forall k :: k in runtimeCounts ==> runtimeCounts[k] == Total(Entries(rounds), k)
  {
    var collected;
    collected, roundCounts, runtimeCounts := Aggregate(rounds);
    runtimes := Sorting.SortDesc(collected, Score(runtimeCounts));
    Sorting.SortDescCorrect(collected, Score(runtimeCounts));
    FirstPerKeyDistinct(Entries(rounds));
    forall p | 0 <= p < |runtimes| ensures RuntimeToKey(runtimes[p]) in runtimeCounts {
      assert runtimes[p] in multiset(collected);
    }
  }
}
