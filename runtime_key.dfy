/**
 * The key under which the front end groups runtime batches across rounds
 * (`runtimeToKey`): the exception text and the procedure path joined by
 * seven underscores.  It deliberately ignores the count, the source file,
 * the line and the filename guesses, so a batch whose file moved still
 * groups with its older occurrences.
 */
module RuntimeKey {
  import opened Wrappers
  import Text
  import opened Runtimes

  const KEY_SEPARATOR: string := "_______"

  function RuntimeToKey(b: RuntimeBatch): string
  {
    b.exception + KEY_SEPARATOR + b.procPath
  }

  /**
   * The key is the exception, the separator and the procedure path laid end
   * to end: it has their summed length, starts with the exception and ends
   * with the path.
   */
  lemma KeyLayout(b: RuntimeBatch)
    ensures |RuntimeToKey(b)| == |b.exception| + 7 + |b.procPath|
    ensures RuntimeToKey(b)[..|b.exception|] == b.exception
    ensures RuntimeToKey(b)[|b.exception|..|b.exception| + 7] == KEY_SEPARATOR
    ensures RuntimeToKey(b)[|b.exception| + 7..] == b.procPath
  {
  }

  /** Only the exception and the procedure path matter: batches agreeing on both share a key. */
  lemma KeyIgnoresOtherFields(a: RuntimeBatch, b: RuntimeBatch)
    requires a.exception == b.exception && a.procPath == b.procPath
    ensures RuntimeToKey(a) == RuntimeToKey(b)
  {
  }

  /**
   * The converse does not hold: an exception that itself contains the
   * separator makes two different (exception, path) pairs share a key.
   */
  lemma KeyCanCollide()
    ensures exists a: RuntimeBatch, b: RuntimeBatch ::
              (a.exception != b.exception || a.procPath != b.procPath) && RuntimeToKey(a) == RuntimeToKey(b)
  {
    var a := RuntimeBatch(1, "x" + KEY_SEPARATOR + "y", "/z", "f.dm", 1, None);
    var b := RuntimeBatch(1, "x", "y" + KEY_SEPARATOR + "/z", "f.dm", 1, None);
    assert RuntimeToKey(a) == RuntimeToKey(b);
  }

  /** Without the separator in either exception, equal keys mean equal exceptions and paths. */
  lemma {:induction false} KeyInjectiveWithoutSeparator(a: RuntimeBatch, b: RuntimeBatch)
    requires !Text.Contains(a.exception, "_") && !Text.Contains(b.exception, "_")
    requires RuntimeToKey(a) == RuntimeToKey(b)
    ensures a.exception == b.exception && a.procPath == b.procPath
  {
    var k := RuntimeToKey(a);
    KeyLayout(a);
    KeyLayout(b);
    forall i | 0 <= i < |a.exception| ensures k[i] != '_' {
      UnderscoreAt(a.exception, i);
    }
    forall i | 0 <= i < |b.exception| ensures k[i] != '_' {
      UnderscoreAt(b.exception, i);
    }
    assert k[|a.exception|] == '_' && k[|b.exception|] == '_';
  }

  /** A string without an underscore has none at any position. */
  lemma UnderscoreAt(s: string, i: nat)
    requires !Text.Contains(s, "_")
    requires i < |s|
    ensures s[i] != '_'
  {
    Text.ContainsIff(s, "_");
    assert !Text.OccursAt(s, "_", i);
    assert s[i..i + 1] == [s[i]];
  }
}
