/**
 * What promises and streams carry, the tokens that stand for the user's
 * callbacks, and a way to speak about the order of events in a trace.
 */
module Signals {

  /** Opaque stand-in for a user callback (a `std::function`). */
  type CallbackId = nat

  /** The argument of a delivery: nothing for the `void` kinds, a value otherwise. */
  datatype Payload<T> = Unit | Value(value: T)

  /**
   * `t` is made of `|heads|` consecutive pieces, the i-th beginning with
   * `heads[i]`: the heads occur in order, one piece each, and nothing
   * precedes the first.
   */
  ghost predicate Segmented<E>(t: seq<E>, heads: seq<seq<E>>)
    decreases |heads|
  {
    if heads == [] then t == []
    else exists k :: 0 <= k <= |t| && Segmented(t[..k], heads[..|heads| - 1]) && heads[|heads| - 1] <= t[k..]
  }

  lemma SegmentedExtend<E>(t: seq<E>, heads: seq<seq<E>>, u: seq<E>, h: seq<E>)
    requires Segmented(t, heads) && h <= u
    ensures Segmented(t + u, heads + [h])
  {
    var w := t + u;
    assert w[..|t|] == t;
    assert w[|t|..] == u;
    assert (heads + [h])[..|heads|] == heads;
  }

  /** If `a + e` is a prefix of `t`, then `e` begins what follows `a` in `t`. */
  lemma PrefixTail<E>(a: seq<E>, e: seq<E>, t: seq<E>)
    requires a + e <= t
    ensures a <= t && e <= t[|a|..]
  {
    assert t[..|a|] == (a + e)[..|a|] == a;
    forall i | 0 <= i < |e|
      ensures e[i] == t[|a|..][i]
    {
      assert (a + e)[|a| + i] == e[i];
    }
  }

  /**
   * A trace that grew from `a` through `b` to `c`: if the part added
   * first is made of pieces headed by `heads` and the part added last
   * begins with `h`, the whole addition is made of pieces headed by
   * `heads + [h]`.
   */
  lemma SegmentedGrow<E>(a: seq<E>, b: seq<E>, c: seq<E>, heads: seq<seq<E>>, h: seq<E>)
    requires a <= b <= c
    requires Segmented(b[|a|..], heads) && h <= c[|b|..]
    ensures Segmented(c[|a|..], heads + [h])
  {
    assert c[|a|..] == b[|a|..] + c[|b|..] by {
      assert c[..|b|] == b;
    }
    SegmentedExtend(b[|a|..], heads, c[|b|..], h);
  }

  /** Each head of a segmented trace occurs in it. */
  lemma {:induction false} SegmentedHead<E>(t: seq<E>, heads: seq<seq<E>>, i: nat)
    requires Segmented(t, heads) && i < |heads|
    ensures exists k :: 0 <= k <= |t| && heads[i] <= t[k..]
    decreases |heads|
  {
    var k :| 0 <= k <= |t| && Segmented(t[..k], heads[..|heads| - 1]) && heads[|heads| - 1] <= t[k..];
    if i < |heads| - 1 {
      SegmentedHead(t[..k], heads[..|heads| - 1], i);
      var j :| 0 <= j <= k && heads[i] <= t[..k][j..];
      assert t[..k][j..] <= t[j..];
    }
  }

  /** A head of a segmented stretch of a trace, which later grew, occurs in the grown trace. */
  lemma HeadOccurs<E>(a: seq<E>, m: seq<E>, from: nat, heads: seq<seq<E>>, i: nat)
    requires from <= |a| && a <= m && Segmented(a[from..], heads) && i < |heads|
    ensures exists k :: from <= k <= |m| && heads[i] <= m[k..]
  {
    SegmentedHead(a[from..], heads, i);
    var j :| 0 <= j <= |a[from..]| && heads[i] <= a[from..][j..];
    var k := from + j;
    forall x | 0 <= x < |heads[i]|
      ensures heads[i][x] == m[k..][x]
    {
      assert heads[i][x] == a[from..][j..][x] == a[k + x];
    }
    assert heads[i] <= m[k..];
  }
}
