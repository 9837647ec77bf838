/**
 * Integer division as the bulk saver writes it, and `split_every`, which cuts
 * a sequence into consecutive chunks of at most `n` elements.
 */
module Chunks {

  /** The concatenation of a sequence of chunks. */
  function Flatten<T>(chunks: seq<seq<T>>): seq<T>
  {
    if chunks == [] then [] else chunks[0] + Flatten(chunks[1..])
  }

  /**
   * The number of chunks of at most `n` elements that `a` elements need,
   * that is, the ceiling of a / n.
   */
  function CeilDiv(a: nat, n: nat): (q: nat)
    requires n >= 1
    ensures q <= a
    ensures a > 0 ==> q >= 1
    decreases a
  {
    if a == 0 then 0 else if a <= n then 1 else 1 + CeilDiv(a - n, n)
  }

  /** The count of chunks is the usual closed form of the ceiling, (a + n - 1) / n. */
  lemma {:induction false} CeilDivClosedForm(a: nat, n: nat)
    requires n >= 1
    ensures CeilDiv(a, n) == (a + n - 1) / n
    decreases a
  {
    if a == 0 {
      DivUnique(n - 1, n, 0);
    } else if a <= n {
      DivUnique(a + n - 1, n, 1);
    } else {
      CeilDivClosedForm(a - n, n);
      DivShift(a - 1, n);
      assert a - n + n - 1 == a - 1;
    }
  }

  lemma {:induction false} MulLe(a: int, b: int, n: nat)
    requires a <= b
    ensures a * n <= b * n
  {
    if n > 0 {
      MulLe(a, b, n - 1);
      assert a * n == a * (n - 1) + a && b * n == b * (n - 1) + b;
    }
  }

  /** The quotient is the one multiple of n that brackets x. */
  lemma DivUnique(x: int, n: nat, q: int)
    requires n >= 1 && q * n <= x < q * n + n
    ensures x / n == q
  {
    var k := x / n;
    if k < q {
      assert (k + 1) * n == k * n + n;
      MulLe(k + 1, q, n);
    } else if k > q {
      assert (q + 1) * n == q * n + n;
      MulLe(q + 1, k, n);
    }
  }

  lemma DivShift(x: nat, n: nat)
    requires n >= 1
    ensures (x + n) / n == x / n + 1
  {
    var q := x / n;
    assert (q + 1) * n == q * n + n;
    DivUnique(x + n, n, q + 1);
  }

  /**
   * Python's floor division `a // b`. Dafny's `/` is Euclidean, which rounds
   * the other way when the divisor is negative, as it is at the split site.
   */
  function FloorDiv(a: int, b: int): (q: int)
    requires b != 0
    ensures b > 0 ==> q * b <= a < q * b + b
    ensures b < 0 ==> q * b + b < a <= q * b
  {
    if b > 0 then a / b else (-a) / (-b)
  }

  function Sum(s: seq<nat>): nat
  {
    if s == [] then 0 else s[0] + Sum(s[1..])
  }

  /** The length of each chunk. */
  function Lengths<T>(chunks: seq<seq<T>>): (ls: seq<nat>)
    ensures |ls| == |chunks|
    ensures forall i :: 0 <= i < |chunks| ==> ls[i] == |chunks[i]|
  {
    if chunks == [] then [] else [|chunks[0]|] + Lengths(chunks[1..])
  }

  /** The lengths of the chunks `split_every(n, ...)` cuts `a` elements into. */
  function ChunkSizes(n: nat, a: nat): (sizes: seq<nat>)
    requires n >= 1
    ensures |sizes| == CeilDiv(a, n)
    ensures Sum(sizes) == a
    ensures forall i :: 0 <= i < |sizes| ==> 1 <= sizes[i] <= n
    ensures forall i :: 0 <= i < |sizes| - 1 ==> sizes[i] == n
    decreases a
  {
    if a == 0 then [] else if a <= n then [a] else [n] + ChunkSizes(n, a - n)
  }

  /**
   * `split_every(n, s)`: consecutive chunks of `s`, each holding `n` elements
   * except possibly the last.
   */
  function SplitEvery<T>(n: nat, s: seq<T>): (chunks: seq<seq<T>>)
    requires n >= 1
    ensures forall i :: 0 <= i < |chunks| ==> 1 <= |chunks[i]| <= n
    decreases |s|
  {
    if |s| == 0 then []
    else if |s| <= n then [s]
    else [s[..n]] + SplitEvery(n, s[n..])
  }

  /** The chunks together give back the sequence. */
  lemma {:induction false} SplitEveryFlatten<T>(n: nat, s: seq<T>)
    requires n >= 1
    ensures Flatten(SplitEvery(n, s)) == s
    decreases |s|
  {
    if |s| > n {
      SplitEveryFlatten(n, s[n..]);
      var chunks := SplitEvery(n, s);
      assert chunks[1..] == SplitEvery(n, s[n..]);
      assert s == s[..n] + s[n..];
    }
  }

  /** Every chunk holds `n` elements except the last, so there are ceil(|s| / n) of them. */
  lemma {:induction false} SplitEveryLengths<T>(n: nat, s: seq<T>)
    requires n >= 1
    ensures Lengths(SplitEvery(n, s)) == ChunkSizes(n, |s|)
    decreases |s|
  {
    if |s| > n {
      SplitEveryLengths(n, s[n..]);
      var chunks := SplitEvery(n, s);
      assert chunks == [s[..n]] + SplitEvery(n, s[n..]);
      assert Lengths(chunks) == [n] + Lengths(SplitEvery(n, s[n..]));
      assert ChunkSizes(n, |s|) == [n] + ChunkSizes(n, |s| - n);
    }
  }
}
