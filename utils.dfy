/** The log-line shortener of the crate. */
module Utils {
  import opened Text

  /** The text made of a sequence of graphemes. */
  function Concat(graphemes: seq<string>): string {
    if graphemes == [] then [] else graphemes[0] + Concat(graphemes[1..])
  }

  function Min(a: nat, b: nat): nat {
    if a <= b then a else b
  }

  lemma {:induction false} ConcatAppend(a: seq<string>, b: seq<string>)
    ensures Concat(a + b) == Concat(a) + Concat(b)
  {
    if a == [] {
      assert a + b == b;
    } else {
      assert (a + b)[1..] == a[1..] + b;
      ConcatAppend(a[1..], b);
    }
  }

  /** Every grapheme is at least one byte long. */
  lemma {:induction false} ConcatByteLen(graphemes: seq<string>)
    requires forall i :: 0 <= i < |graphemes| ==> graphemes[i] != []
    ensures ByteLen(Concat(graphemes)) >= |graphemes|
  {
    if graphemes != [] {
      ConcatByteLen(graphemes[1..]);
      ByteLenAppend(graphemes[0], Concat(graphemes[1..]));
      ByteLenAtLeastLength(graphemes[0]);
    }
  }

  /**
   * Shortens a text longer than `maxLen` bytes to its first `maxLen` graphemes. The
   * text is given as its grapheme clusters. Either way the result is the first
   * `min(maxLen, count)` graphemes: a text of at most `maxLen` bytes has no more
   * graphemes than that.
   */
  function SubstrUpToLen(graphemes: seq<string>, maxLen: nat): (r: string)
    requires forall i :: 0 <= i < |graphemes| ==> graphemes[i] != []
    ensures r == Concat(graphemes[..Min(maxLen, |graphemes|)])
    ensures r <= Concat(graphemes)
    ensures ByteLen(Concat(graphemes)) <= maxLen ==> r == Concat(graphemes)
    ensures |graphemes| <= maxLen ==> r == Concat(graphemes)
  {
    var k := Min(maxLen, |graphemes|);
    assert graphemes == graphemes[..k] + graphemes[k..];
    ConcatAppend(graphemes[..k], graphemes[k..]);
    if ByteLen(Concat(graphemes)) > maxLen then
      Concat(graphemes[..k])  // `take` stops early when there are fewer graphemes
    else
      ConcatByteLen(graphemes);
      assert graphemes[..k] == graphemes;
      Concat(graphemes)
  }
}
