/**
 * "Collate similar" in the main view.  Within one round, batches with the
 * same procedure path, source file and line are merged into one whose count
 * is their sum.  The merged batch's other fields come from the first batch
 * with that key in any round processed so far, because a record shared
 * across rounds (`collatedRuntimes`) remembers it.
 */
module Collation {
  import opened Text
  import opened Runtimes

  /** `${proc_path}__${source_file}__${line}`. */
  function CollationKey(b: RuntimeBatch): string
  {
    b.procPath + "__" + b.sourceFile + "__" + NatToDecimal(b.line)
  }

  /** The keys that occur in `bs`. */
  function KeySet(bs: seq<RuntimeBatch>): set<string>
    decreases |bs|
  {
    if bs == [] then {} else KeySet(bs[..|bs| - 1]) + {CollationKey(bs[|bs| - 1])}
  }

  /** The keys of `bs` in the order they first occur. */
  function FirstKeys(bs: seq<RuntimeBatch>): seq<string>
    decreases |bs|
  {
    if bs == [] then []
    else
      var n := |bs| - 1;
      FirstKeys(bs[..n]) + (if CollationKey(bs[n]) in KeySet(bs[..n]) then [] else [CollationKey(bs[n])])
  }

  /** The summed count of the batches of `bs` with key `k`. */
  function KeyTotal(bs: seq<RuntimeBatch>, k: string): nat
    decreases |bs|
  {
    if bs == [] then 0
    else
      var n := |bs| - 1;
      KeyTotal(bs[..n], k) + (if CollationKey(bs[n]) == k then bs[n].count else 0)
  }

  /** The first batch of `bs` with key `k`. */
  function FirstWithKey(bs: seq<RuntimeBatch>, k: string): RuntimeBatch
    requires k in KeySet(bs)
    decreases |bs|
  {
    var n := |bs| - 1;
    if k in KeySet(bs[..n]) then FirstWithKey(bs[..n], k) else bs[n]
  }

  /** The shared record after seeing `bs`: every key mapped to its first batch. */
  function SharedOf(bs: seq<RuntimeBatch>): map<string, RuntimeBatch>
  {
    map k | k in KeySet(bs) :: FirstWithKey(bs, k)
  }

  /** The summed count of a list of batches (`runtimes.reduce`). */
  function TotalCount(bs: seq<RuntimeBatch>): nat
    decreases |bs|
  {
    if bs == [] then 0 else TotalCount(bs[..|bs| - 1]) + bs[|bs| - 1].count
  }

  /** One merged batch per key of `ks`: the first batch of `seen` with that key, carrying its total in `bs`. */
  function Merged(seen: seq<RuntimeBatch>, ks: seq<string>, bs: seq<RuntimeBatch>): seq<RuntimeBatch>
    requires forall p :: 0 <= p < |ks| ==> ks[p] in KeySet(seen)
  {
    seq(|ks|, p requires 0 <= p < |ks| => FirstWithKey(seen, ks[p]).(count := KeyTotal(bs, ks[p])))
  }

  /**
   * The collation of a round with batches `bs` after rounds whose batches,
   * all together, were `earlier`.
   */
  function Collated(earlier: seq<RuntimeBatch>, bs: seq<RuntimeBatch>): seq<RuntimeBatch>
  {
    FirstKeysAreKeys(bs);
    KeySetAppend(earlier, bs);
    Merged(earlier + bs, FirstKeys(bs), bs)
  }

  // ---------------------------------------------------------------------------
  // Facts about the specification functions

  /** Appending one batch extends the key set and the first-occurrence keys by that batch alone. */
  lemma AppendKeys(bs: seq<RuntimeBatch>, b: RuntimeBatch)
    ensures (bs + [b])[..|bs|] == bs
    ensures KeySet(bs + [b]) == KeySet(bs) + {CollationKey(b)}
    ensures FirstKeys(bs + [b]) == FirstKeys(bs) + (if CollationKey(b) in KeySet(bs) then [] else [CollationKey(b)])
  {
    assert (bs + [b])[..|bs|] == bs;
  }

  /** Appending one batch adds its count to its key's total and to the round's total. */
  lemma AppendTotals(bs: seq<RuntimeBatch>, b: RuntimeBatch)
    ensures forall k :: KeyTotal(bs + [b], k) == KeyTotal(bs, k) + (if CollationKey(b) == k then b.count else 0)
    ensures TotalCount(bs + [b]) == TotalCount(bs) + b.count
  {
    assert (bs + [b])[..|bs|] == bs;
  }

  /** Appending one batch keeps every first batch, and makes it the first of its key when that key is new. */
  lemma AppendFirst(bs: seq<RuntimeBatch>, b: RuntimeBatch)
    ensures KeySet(bs + [b]) == KeySet(bs) + {CollationKey(b)}
    ensures forall k :: k in KeySet(bs) ==> FirstWithKey(bs + [b], k) == FirstWithKey(bs, k)
    ensures CollationKey(b) !in KeySet(bs) ==> FirstWithKey(bs + [b], CollationKey(b)) == b
  {
    AppendKeys(bs, b);
  }

  lemma {:induction false} KeySetAppend(a: seq<RuntimeBatch>, b: seq<RuntimeBatch>)
    ensures KeySet(a + b) == KeySet(a) + KeySet(b)
    decreases |b|
  {
    if b == [] {
      assert a + b == a;
    } else {
      var n := |b| - 1;
      KeySetAppend(a, b[..n]);
      assert a + b == (a + b[..n]) + [b[n]];
      assert b == b[..n] + [b[n]];
      AppendKeys(a + b[..n], b[n]);
      AppendKeys(b[..n], b[n]);
    }
  }

  /** The first-occurrence keys are exactly the keys, each listed once. */
  lemma {:induction false} FirstKeysAreKeys(bs: seq<RuntimeBatch>)
    ensures forall p :: 0 <= p < |FirstKeys(bs)| ==> FirstKeys(bs)[p] in KeySet(bs)
    ensures forall k :: k in KeySet(bs) ==> k in FirstKeys(bs)
    ensures forall p, q :: 0 <= p < q < |FirstKeys(bs)| ==> FirstKeys(bs)[p] != FirstKeys(bs)[q]
    decreases |bs|
  {
    if bs != [] {
      var n := |bs| - 1;
      FirstKeysAreKeys(bs[..n]);
      assert bs == bs[..n] + [bs[n]];
      AppendKeys(bs[..n], bs[n]);
    }
  }

  /** The first batch with a key has that key. */
  lemma {:induction false} FirstWithKeyHasKey(bs: seq<RuntimeBatch>, k: string)
    requires k in KeySet(bs)
    ensures CollationKey(FirstWithKey(bs, k)) == k
    decreases |bs|
  {
    var n := |bs| - 1;
    if k in KeySet(bs[..n]) {
      FirstWithKeyHasKey(bs[..n], k);
    }
  }

  /** A key that never occurs totals zero. */
  lemma {:induction false} KeyTotalOfAbsentKey(bs: seq<RuntimeBatch>, k: string)
    requires k !in KeySet(bs)
    ensures KeyTotal(bs, k) == 0
    decreases |bs|
  {
    if bs != [] {
      KeyTotalOfAbsentKey(bs[..|bs| - 1], k);
    }
  }

  // ---------------------------------------------------------------------------
  // What collation promises

  /**
   * A collated round holds one batch per key of the round, in the order the
   * keys first occur, no two with the same key.
   */
  lemma CollatedKeys(earlier: seq<RuntimeBatch>, bs: seq<RuntimeBatch>)
    ensures var c := Collated(earlier, bs);
            && |c| == |FirstKeys(bs)|
            && (forall p :: 0 <= p < |c| ==> CollationKey(c[p]) == FirstKeys(bs)[p])
            && (forall p, q :: 0 <= p < q < |c| ==> CollationKey(c[p]) != CollationKey(c[q]))
            && (forall k :: k in KeySet(bs) <==> exists p :: 0 <= p < |c| && CollationKey(c[p]) == k)
  {
    var c := Collated(earlier, bs);
    FirstKeysAreKeys(bs);
    KeySetAppend(earlier, bs);
    forall p | 0 <= p < |c| ensures CollationKey(c[p]) == FirstKeys(bs)[p] {
      FirstWithKeyHasKey(earlier + bs, FirstKeys(bs)[p]);
    }
    forall k | k in KeySet(bs) ensures exists p :: 0 <= p < |c| && CollationKey(c[p]) == k {
      var p :| 0 <= p < |FirstKeys(bs)| && FirstKeys(bs)[p] == k;
      assert CollationKey(c[p]) == k;
    }
  }

  /**
   * Each collated batch counts every batch of the round with its key, and its
   * other fields are those of the first batch with that key seen so far:
   * from an earlier round if there was one, else from this round.
   */
  lemma CollatedBatch(earlier: seq<RuntimeBatch>, bs: seq<RuntimeBatch>, p: nat)
    requires p < |FirstKeys(bs)|
    ensures FirstKeys(bs)[p] in KeySet(bs) && FirstKeys(bs)[p] in KeySet(earlier + bs)
    ensures var k := FirstKeys(bs)[p];
            && Collated(earlier, bs)[p].count == KeyTotal(bs, k)
            && Collated(earlier, bs)[p].(count := 0) == FirstWithKey(earlier + bs, k).(count := 0)
            && (k in KeySet(earlier) ==> FirstWithKey(earlier + bs, k) == FirstWithKey(earlier, k))
            && (k !in KeySet(earlier) ==> FirstWithKey(earlier + bs, k) == FirstWithKey(bs, k))
  {
    FirstKeysAreKeys(bs);
    KeySetAppend(earlier, bs);
    FirstWithKeyOfAppend(earlier, bs, FirstKeys(bs)[p]);
  }

  /** The first batch with a key in `a + b` is in `a` when the key occurs there, else in `b`. */
  lemma {:induction false} FirstWithKeyOfAppend(a: seq<RuntimeBatch>, b: seq<RuntimeBatch>, k: string)
    requires k in KeySet(a) || k in KeySet(b)
    ensures k in KeySet(a + b)
    ensures && (k in KeySet(a) ==> FirstWithKey(a + b, k) == FirstWithKey(a, k))
            && (k !in KeySet(a) ==> FirstWithKey(a + b, k) == FirstWithKey(b, k))
    decreases |b|
  {
    KeySetAppend(a, b);
    if b == [] {
      assert a + b == a;
    } else {
      var n := |b| - 1;
      assert a + b == (a + b[..n]) + [b[n]];
      assert b == b[..n] + [b[n]];
      AppendFirst(a + b[..n], b[n]);
      AppendKeys(b[..n], b[n]);
      KeySetAppend(a, b[..n]);
      if k in KeySet(a) || k in KeySet(b[..n]) {
        FirstWithKeyOfAppend(a, b[..n], k);
      }
    }
  }

  /** Summed totals of a list of distinct keys. */
  function SumTotals(ks: seq<string>, bs: seq<RuntimeBatch>): nat
    decreases |ks|
  {
    if ks == [] then 0 else SumTotals(ks[..|ks| - 1], bs) + KeyTotal(bs, ks[|ks| - 1])
  }

  /** Adding a batch raises the summed totals by its count when its key is listed, once. */
  lemma {:induction false} SumTotalsStep(ks: seq<string>, bs: seq<RuntimeBatch>, b: RuntimeBatch)
    requires forall p, q :: 0 <= p < q < |ks| ==> ks[p] != ks[q]
    ensures SumTotals(ks, bs + [b]) == SumTotals(ks, bs) + (if CollationKey(b) in ks then b.count else 0)
    decreases |ks|
  {
    AppendTotals(bs, b);
    if ks != [] {
      var n := |ks| - 1;
      SumTotalsStep(ks[..n], bs, b);
      assert CollationKey(b) in ks <==> CollationKey(b) in ks[..n] || CollationKey(b) == ks[n] by {
        assert ks == ks[..n] + [ks[n]];
      }
      if CollationKey(b) in ks[..n] {
        var p :| 0 <= p < n && ks[..n][p] == CollationKey(b);
        assert ks[p] != ks[n];
      }
    }
  }

  /** The merged batches carry the summed totals of their keys. */
  lemma {:induction false} MergedTotal(seen: seq<RuntimeBatch>, ks: seq<string>, bs: seq<RuntimeBatch>)
    requires forall p :: 0 <= p < |ks| ==> ks[p] in KeySet(seen)
    ensures TotalCount(Merged(seen, ks, bs)) == SumTotals(ks, bs)
    decreases |ks|
  {
    if ks != [] {
      var n := |ks| - 1;
      MergedTotal(seen, ks[..n], bs);
      assert Merged(seen, ks, bs)[..n] == Merged(seen, ks[..n], bs);
    }
  }

  /** Listing one more key adds its total. */
  lemma SumTotalsSnoc(ks: seq<string>, k: string, bs: seq<RuntimeBatch>)
    ensures SumTotals(ks + [k], bs) == SumTotals(ks, bs) + KeyTotal(bs, k)
  {
    assert (ks + [k])[..|ks|] == ks;
  }

  /** The first-occurrence keys of a round sum to its total. */
  lemma {:induction false} FirstKeysTotal(bs: seq<RuntimeBatch>)
    ensures SumTotals(FirstKeys(bs), bs) == TotalCount(bs)
    decreases |bs|
  {
    if bs != [] {
      var n := |bs| - 1;
      var init, b := bs[..n], bs[n];
      var key := CollationKey(b);
      assert bs == init + [b];
      FirstKeysTotal(init);
      AppendTotals(init, b);
      FirstKeysAreKeys(init);
      SumTotalsStep(FirstKeys(init), init, b);
      AppendKeys(init, b);
      if key in KeySet(init) {
        assert key in FirstKeys(init);
        assert FirstKeys(bs) == FirstKeys(init);
      } else {
        KeyTotalOfAbsentKey(init, key);
        assert key !in FirstKeys(init);
        assert FirstKeys(bs) == FirstKeys(init) + [key];
        SumTotalsSnoc(FirstKeys(init), key, bs);
        assert KeyTotal(bs, key) == b.count;
      }
    }
  }

  /** Collation merges batches but never changes a round's total count. */
  lemma CollationKeepsTotal(earlier: seq<RuntimeBatch>, bs: seq<RuntimeBatch>)
    ensures TotalCount(Collated(earlier, bs)) == TotalCount(bs)
  {
    FirstKeysAreKeys(bs);
    KeySetAppend(earlier, bs);
    MergedTotal(earlier + bs, FirstKeys(bs), bs);
    FirstKeysTotal(bs);
  }

  // ---------------------------------------------------------------------------
  // The loop

  /**
   * The collation loop over one round.  `shared` is `collatedRuntimes`; `pos`
   * is `multipleCollationsThisRound`, holding for each key the position of its
   * record in the output, which `count +=` updates in place.
   */
  method CollateRound(shared: map<string, RuntimeBatch>, ghost earlier: seq<RuntimeBatch>, bs: seq<RuntimeBatch>)
    returns (out: seq<RuntimeBatch>, shared': map<string, RuntimeBatch>)
    requires shared == SharedOf(earlier)
    ensures out == Collated(earlier, bs)
    ensures shared' == SharedOf(earlier + bs)
  {
    out := [];
    shared' := shared;
    var pos: map<string, nat> := map[];
    assert earlier + bs[..0] == earlier;
    for j := 0 to |bs|
      invariant CollationState(earlier, bs[..j], out, shared', pos)
    {
      out, shared', pos := CollateOne(earlier, bs[..j], out, shared', pos, bs[j]);
      assert bs[..j + 1] == bs[..j] + [bs[j]];
    }
    assert bs[..|bs|] == bs;
  }

  /** After the batches `done` of the round: the output, the shared record and the positions agree with them. */
  ghost predicate CollationState(earlier: seq<RuntimeBatch>, done: seq<RuntimeBatch>, out: seq<RuntimeBatch>,
                                 shared: map<string, RuntimeBatch>, pos: map<string, nat>)
  {
    && out == Collated(earlier, done)
    && shared == SharedOf(earlier + done)
    && PositionsOf(done, pos)
  }

  /** `pos` maps each key of `done` to its index among the first-occurrence keys. */
  ghost predicate PositionsOf(done: seq<RuntimeBatch>, pos: map<string, nat>)
  {
    && (forall k :: k in pos <==> k in KeySet(done))
    && (forall k :: k in pos ==> pos[k] < |FirstKeys(done)| && FirstKeys(done)[pos[k]] == k)
  }

  /** A repeated key leaves the positions as they were. */
  lemma PositionsOfRepeated(done: seq<RuntimeBatch>, pos: map<string, nat>, b: RuntimeBatch)
    requires PositionsOf(done, pos) && CollationKey(b) in KeySet(done)
    ensures PositionsOf(done + [b], pos)
  {
    AppendKeys(done, b);
  }

  /** A new key is placed after all earlier ones. */
  lemma PositionsOfNew(done: seq<RuntimeBatch>, pos: map<string, nat>, b: RuntimeBatch)
    requires PositionsOf(done, pos) && CollationKey(b) !in KeySet(done)
    ensures PositionsOf(done + [b], pos[CollationKey(b) := |FirstKeys(done)|])
  {
    AppendKeys(done, b);
  }

  /** The loop body for one batch. */
  method CollateOne(ghost earlier: seq<RuntimeBatch>, ghost done: seq<RuntimeBatch>, out: seq<RuntimeBatch>,
                    shared: map<string, RuntimeBatch>, pos: map<string, nat>, b: RuntimeBatch)
    returns (out': seq<RuntimeBatch>, shared': map<string, RuntimeBatch>, pos': map<string, nat>)
    requires CollationState(earlier, done, out, shared, pos)
    ensures CollationState(earlier, done + [b], out', shared', pos')
  {
    var key := CollationKey(b);
    if key in shared {
      if key in pos {
        var p := pos[key];
        out' := out[p := out[p].(count := out[p].count + b.count)];
        shared', pos' := shared, pos;
        RepeatedKeyStep(earlier, done, out, shared, pos, b);
      } else {
        var clone := shared[key].(count := b.count);
        out' := out + [clone];
        pos' := pos[key := |out|];
        shared' := shared;
        EarlierKeyStep(earlier, done, out, shared, pos, b);
      }
    } else {
      var clone := b;
      out' := out + [clone];
      pos' := pos[key := |out|];
      shared' := shared[key := clone];
      NewKeyStep(earlier, done, out, shared, pos, b);
    }
  }

  /** A key already met in this round: its merged batch's count grows in place. */
  lemma RepeatedKeyStep(earlier: seq<RuntimeBatch>, done: seq<RuntimeBatch>, out: seq<RuntimeBatch>,
                        shared: map<string, RuntimeBatch>, pos: map<string, nat>, b: RuntimeBatch)
    requires CollationState(earlier, done, out, shared, pos)
    requires CollationKey(b) in pos
    ensures pos[CollationKey(b)] < |out|
    ensures CollationState(earlier, done + [b],
                           out[pos[CollationKey(b)] := out[pos[CollationKey(b)]].(count := out[pos[CollationKey(b)]].count + b.count)],
                           shared, pos)
  {
    var key := CollationKey(b);
    var p := pos[key];
    assert out[p := out[p].(count := out[p].count + b.count)] == Collated(earlier, done + [b]) by {
      CollatedExisting(earlier, done, out, b, p);
    }
    assert PositionsOf(done + [b], pos) by {
      PositionsOfRepeated(done, pos, b);
    }
    assert shared == SharedOf(earlier + (done + [b])) by {
      KeySetAppend(earlier, done);
      SharedAfter(earlier, done, b);
    }
  }

  /** A key met in an earlier round but not yet in this one: a copy of the shared batch is appended. */
  lemma EarlierKeyStep(earlier: seq<RuntimeBatch>, done: seq<RuntimeBatch>, out: seq<RuntimeBatch>,
                       shared: map<string, RuntimeBatch>, pos: map<string, nat>, b: RuntimeBatch)
    requires CollationState(earlier, done, out, shared, pos)
    requires CollationKey(b) in shared && CollationKey(b) !in pos
    ensures CollationState(earlier, done + [b], out + [shared[CollationKey(b)].(count := b.count)],
                           shared, pos[CollationKey(b) := |out|])
  {
    var key := CollationKey(b);
    var seen := earlier + done;
    CollatedNew(earlier, done, b);
    AppendFirst(seen, b);
    PositionsOfNew(done, pos, b);
    SharedAfter(earlier, done, b);
  }

  /** A key never met before: the batch itself is appended and becomes the shared record for its key. */
  lemma NewKeyStep(earlier: seq<RuntimeBatch>, done: seq<RuntimeBatch>, out: seq<RuntimeBatch>,
                   shared: map<string, RuntimeBatch>, pos: map<string, nat>, b: RuntimeBatch)
    requires CollationState(earlier, done, out, shared, pos)
    requires CollationKey(b) !in shared
    ensures CollationState(earlier, done + [b], out + [b], shared[CollationKey(b) := b], pos[CollationKey(b) := |out|])
  {
    var key := CollationKey(b);
    var seen := earlier + done;
    KeySetAppend(earlier, done);
    assert key !in KeySet(done);
    CollatedNew(earlier, done, b);
    AppendFirst(seen, b);
    PositionsOfNew(done, pos, b);
    SharedAfter(earlier, done, b);
  }

  /** Adding a batch whose key the round already has raises that one merged batch's count. */
  lemma CollatedExisting(earlier: seq<RuntimeBatch>, done: seq<RuntimeBatch>, before: seq<RuntimeBatch>, b: RuntimeBatch, p: nat)
    requires before == Collated(earlier, done)
    requires p < |FirstKeys(done)| && FirstKeys(done)[p] == CollationKey(b)
    ensures p < |before|
    ensures Collated(earlier, done + [b]) == before[p := before[p].(count := before[p].count + b.count)]
  {
    var after := Collated(earlier, done + [b]);
    CollatedExistingAt(earlier, done, b, p, p);
    var bumped := before[p := before[p].(count := before[p].count + b.count)];
    forall q | 0 <= q < |bumped|
      ensures after[q] == bumped[q]
    {
      CollatedExistingAt(earlier, done, b, p, q);
    }
    assert after == bumped;
  }

  /** One position of a collated round, from the definition. */
  lemma CollatedAt(earlier: seq<RuntimeBatch>, bs: seq<RuntimeBatch>, q: nat)
    requires q < |FirstKeys(bs)|
    ensures |Collated(earlier, bs)| == |FirstKeys(bs)|
    ensures FirstKeys(bs)[q] in KeySet(earlier + bs)
    ensures Collated(earlier, bs)[q]
            == FirstWithKey(earlier + bs, FirstKeys(bs)[q]).(count := KeyTotal(bs, FirstKeys(bs)[q]))
  {
    FirstKeysAreKeys(bs);
    KeySetAppend(earlier, bs);
  }

  /** One position of `CollatedExisting`. */
  lemma CollatedExistingAt(earlier: seq<RuntimeBatch>, done: seq<RuntimeBatch>, b: RuntimeBatch, p: nat, q: nat)
    requires p < |FirstKeys(done)| && FirstKeys(done)[p] == CollationKey(b)
    requires q < |FirstKeys(done)|
    ensures |Collated(earlier, done + [b])| == |Collated(earlier, done)| == |FirstKeys(done)|
    ensures Collated(earlier, done + [b])[q]
            == if q == p then Collated(earlier, done)[q].(count := Collated(earlier, done)[q].count + b.count)
               else Collated(earlier, done)[q]
  {
    var ks := FirstKeys(done);
    FirstKeysAreKeys(done);
    assert CollationKey(b) in KeySet(done);
    RepeatKeepsFirstKeys(done, b);
    CollatedAt(earlier, done, q);
    CollatedAt(earlier, done + [b], q);
    RepeatKeepsFirst(earlier, done, b, ks[q]);
    AppendTotals(done, b);
    if q != p {
      assert ks[q] != CollationKey(b);
    }
  }

  /** A batch whose key is already there adds no key. */
  lemma RepeatKeepsFirstKeys(done: seq<RuntimeBatch>, b: RuntimeBatch)
    requires CollationKey(b) in KeySet(done)
    ensures FirstKeys(done + [b]) == FirstKeys(done)
  {
    AppendKeys(done, b);
  }

  /** A batch appended to a round in progress changes no first batch of a key seen before it. */
  lemma RepeatKeepsFirst(earlier: seq<RuntimeBatch>, done: seq<RuntimeBatch>, b: RuntimeBatch, k: string)
    requires k in KeySet(earlier + done)
    ensures k in KeySet(earlier + (done + [b]))
    ensures FirstWithKey(earlier + (done + [b]), k) == FirstWithKey(earlier + done, k)
  {
    assert earlier + (done + [b]) == (earlier + done) + [b];
    AppendFirst(earlier + done, b);
  }

  /** Adding a batch whose key the round does not have yet appends one merged batch. */
  lemma CollatedNew(earlier: seq<RuntimeBatch>, done: seq<RuntimeBatch>, b: RuntimeBatch)
    requires CollationKey(b) !in KeySet(done)
    ensures CollationKey(b) in KeySet((earlier + done) + [b])
    ensures Collated(earlier, done + [b])
            == Collated(earlier, done) + [FirstWithKey((earlier + done) + [b], CollationKey(b)).(count := b.count)]
  {
    var before := Collated(earlier, done);
    var after := Collated(earlier, done + [b]);
    var next := before + [FirstWithKey((earlier + done) + [b], CollationKey(b)).(count := b.count)];
    CollatedNewAt(earlier, done, b, |FirstKeys(done)|);
    forall q | 0 <= q < |after|
      ensures after[q] == next[q]
    {
      CollatedNewAt(earlier, done, b, q);
    }
    assert after == next;
  }

  /** One position of `CollatedNew`. */
  lemma CollatedNewAt(earlier: seq<RuntimeBatch>, done: seq<RuntimeBatch>, b: RuntimeBatch, q: nat)
    requires CollationKey(b) !in KeySet(done)
    requires q <= |FirstKeys(done)|
    ensures CollationKey(b) in KeySet((earlier + done) + [b])
    ensures |Collated(earlier, done + [b])| == |Collated(earlier, done)| + 1 == |FirstKeys(done)| + 1
    ensures Collated(earlier, done + [b])[q]
            == if q == |FirstKeys(done)| then FirstWithKey((earlier + done) + [b], CollationKey(b)).(count := b.count)
               else Collated(earlier, done)[q]
  {
    var seen := earlier + done;
    var ks := FirstKeys(done);
    var key := CollationKey(b);
    AppendKeys(done, b);
    assert FirstKeys(done + [b]) == ks + [key];
    assert earlier + (done + [b]) == seen + [b];
    AppendFirst(seen, b);
    AppendTotals(done, b);
    CollatedAt(earlier, done + [b], q);
    if q < |ks| {
      FirstKeysAreKeys(done);
      CollatedAt(earlier, done, q);
      assert ks[q] != key;
    } else {
      if ks != [] {
        CollatedAt(earlier, done, 0);
      }
      KeyTotalOfAbsentKey(done, key);
    }
  }

  /** The shared record gains the batch only when its key is new. */
  lemma SharedStep(seen: seq<RuntimeBatch>, b: RuntimeBatch)
    ensures SharedOf(seen + [b])
            == if CollationKey(b) in SharedOf(seen) then SharedOf(seen) else SharedOf(seen)[CollationKey(b) := b]
  {
    AppendFirst(seen, b);
  }

  /** `SharedStep` for a round in progress after earlier rounds. */
  lemma SharedAfter(earlier: seq<RuntimeBatch>, done: seq<RuntimeBatch>, b: RuntimeBatch)
    ensures SharedOf(earlier + (done + [b]))
            == if CollationKey(b) in SharedOf(earlier + done) then SharedOf(earlier + done)
               else SharedOf(earlier + done)[CollationKey(b) := b]
  {
    assert earlier + (done + [b]) == (earlier + done) + [b];
    SharedStep(earlier + done, b);
  }
}
