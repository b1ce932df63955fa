/**
 * Joining texts in order: what the nodes' running `partial += chunk.content`
 * computes from "", and what a client reads off a connection that carries a
 * sequence of frames.
 */
module Text {

  /** The texts joined in order: "" extended by each one in turn. */
  function Concat(chunks: seq<string>): string
    decreases |chunks|
  {
    if chunks == [] then "" else Concat(chunks[..|chunks| - 1]) + chunks[|chunks| - 1]
  }

  /** The accumulator only ever grows: after i chunks it is a prefix of itself after j >= i chunks. */
  lemma {:induction false} ConcatPrefix(chunks: seq<string>, i: nat, j: nat)
    requires i <= j <= |chunks|
    ensures Concat(chunks[..i]) <= Concat(chunks[..j])
  {
    if i < j {
      ConcatPrefix(chunks, i, j - 1);
      assert chunks[..j][..j - 1] == chunks[..j - 1];
    }
  }

  /** One step of the accumulator: the text after k + 1 chunks is the text after k chunks and chunk k. */
  lemma ConcatStep(chunks: seq<string>, k: nat)
    requires k < |chunks|
    ensures Concat(chunks[..k + 1]) == Concat(chunks[..k]) + chunks[k]
  {
    assert chunks[..k + 1][..k] == chunks[..k];
  }

  /** Joining distributes over splitting the sequence anywhere. */
  lemma {:induction false} ConcatAppend(a: seq<string>, b: seq<string>)
    ensures Concat(a + b) == Concat(a) + Concat(b)
    decreases |b|
  {
    if b == [] {
      assert a + b == a;
    } else {
      var n := |b| - 1;
      assert (a + b)[..|a + b| - 1] == a + b[..n];
      assert (a + b)[|a + b| - 1] == b[n];
      ConcatAppend(a, b[..n]);
    }
  }

  /** Two texts joined are the one followed by the other. */
  lemma ConcatPair(a: string, b: string)
    ensures Concat([a]) == a
    ensures Concat([a, b]) == a + b
  {
    assert [a][..0] == [];
    assert [a, b][..1] == [a];
  }
}
