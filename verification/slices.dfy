/**
 * Python's slice expressions `s[:k]` and `s[k:]` on sequences, including negative
 * bounds, which count from the end, and bounds past either end, which clamp.
 */
module Slices {
  function Clamp(k: int, n: nat): (r: nat)
    ensures r <= n
  {
    if k < 0 then (if n + k < 0 then 0 else n + k)
    else if k > n then n
    else k
  }

  /** `s[:k]`: the first `k` elements, or all but the last `-k` when `k` is negative. */
  function Prefix<T>(s: seq<T>, k: int): (r: seq<T>)
    ensures |r| <= |s| && r == s[..|r|]
    ensures k >= 0 ==> |r| == (if k < |s| then k else |s|)
    ensures k < 0 ==> |r| == (if -k < |s| then |s| + k else 0)
  {
    s[..Clamp(k, |s|)]
  }

  /** `s[k:]`: everything from index `k`, or the last `-k` elements when `k` is negative. */
  function Suffix<T>(s: seq<T>, k: int): (r: seq<T>)
    ensures |r| <= |s| && r == s[|s| - |r|..]
    ensures k >= 0 ==> |r| == (if k < |s| then |s| - k else 0)
    ensures k < 0 ==> |r| == (if -k < |s| then -k else |s|)
  {
    s[Clamp(k, |s|)..]
  }

  /** `s[-n:]` for a positive `n`: the last `n` elements, in order. */
  function LastN<T>(s: seq<T>, n: nat): (r: seq<T>)
    requires n > 0
    ensures |r| == (if n < |s| then n else |s|)
    ensures r == s[|s| - |r|..]
  {
    Suffix(s, -(n as int))
  }

  /** Appending one element and keeping the last `n` is a bounded FIFO: the oldest goes first. */
  lemma LastNAppend<T>(s: seq<T>, x: T, n: nat)
    requires n > 0 && |s| <= n
    ensures |LastN(s + [x], n)| <= n
    ensures LastN(s + [x], n) == if |s| < n then s + [x] else s[1..] + [x]
  {
    var r := LastN(s + [x], n);
    if |s| == n {
      assert r == (s + [x])[1..];
      assert (s + [x])[1..] == s[1..] + [x];
    } else {
      assert r == (s + [x])[0..];
    }
  }

  /** Trimming before an append and trimming after it agree. */
  lemma LastNLastN<T>(s: seq<T>, x: T, n: nat)
    requires n > 0
    ensures LastN(LastN(s, n) + [x], n) == LastN(s + [x], n)
  {
    var t := LastN(s, n);
    if |s| < n {
      assert t == s;
    } else {
      assert LastN(t + [x], n) == (t + [x])[1..];
      assert (t + [x])[1..] == s[|s| - n + 1..] + [x];
      assert (s + [x])[|s| + 1 - n..] == s[|s| - n + 1..] + [x];
    }
  }

  /** The element just appended survives the trimming, and nothing is dropped while there is room. */
  lemma LastNAppendKeepsItem<T>(s: seq<T>, x: T, n: nat)
    requires n > 0
    ensures var r := LastN(s + [x], n); |r| > 0 && r[|r| - 1] == x && (|s| < n ==> r == s + [x])
  {
    var r := LastN(s + [x], n);
    assert r[|r| - 1] == (s + [x])[|s|];
  }

  /** One append to a bounded FIFO that holds the last `n` of `s` holds the last `n` of `s + [x]`. */
  lemma LastNPush<T>(s: seq<T>, r: seq<T>, x: T, n: nat)
    requires n > 0 && r == LastN(s, n)
    ensures LastN(s + [x], n) == if |r| == n then r[1..] + [x] else r + [x]
  {
    LastNAppend(r, x, n);
    LastNLastN(s, x, n);
  }

  /** One more element of `items` pushed onto a bounded FIFO that holds the last `n` of `s + items[..k]`. */
  lemma LastNExtendStep<T>(s: seq<T>, items: seq<T>, k: nat, r: seq<T>, n: nat)
    requires n > 0 && k < |items| && r == LastN(s + items[..k], n)
    ensures LastN(s + items[..k + 1], n) == if |r| == n then r[1..] + [items[k]] else r + [items[k]]
  {
    assert s + items[..k + 1] == (s + items[..k]) + [items[k]];
    LastNPush(s + items[..k], r, items[k], n);
  }

  /** Trimming to the last `n` before appending a whole block changes nothing in the result. */
  lemma LastNConcat<T>(s: seq<T>, t: seq<T>, n: nat)
    requires n > 0
    ensures LastN(LastN(s, n) + t, n) == LastN(s + t, n)
  {
    var u := LastN(s, n);
    if |s| > n {
      var k := |s| - n;
      assert s + t == s[..k] + (u + t);
      var m := if n < |u + t| then n else |u + t|;
      assert LastN(u + t, n) == (u + t)[|u + t| - m..];
      assert (s + t)[|s + t| - m..] == (u + t)[|u + t| - m..];
    }
  }
}
