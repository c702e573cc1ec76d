/**
 * Cutting a list into consecutive slices of a fixed maximum size, as the newsletter
 * function does twice: subscribers into send batches, result rows into insert chunks.
 */
module Batching {

  /** The slices `s.slice(i, i + n)` for i = 0, n, 2n, ... while i < |s|. */
  function Chunks<T>(s: seq<T>, n: nat): seq<seq<T>>
    requires n > 0
    decreases |s|
  {
    if s == [] then []
    else if |s| <= n then [s]
    else [s[..n]] + Chunks(s[n..], n)
  }

  /** The concatenation of a list of lists. */
  function Flatten<T>(ss: seq<seq<T>>): seq<T> {
    if ss == [] then [] else ss[0] + Flatten(ss[1..])
  }

  lemma {:induction false} FlattenAppend<T>(a: seq<seq<T>>, b: seq<seq<T>>)
    ensures Flatten(a + b) == Flatten(a) + Flatten(b)
  {
    if a == [] {
      assert a + b == b;
    } else {
      assert (a + b)[1..] == a[1..] + b;
      FlattenAppend(a[1..], b);
    }
  }

  /** The chunks, put back together, are the list itself, in order. */
  lemma {:induction false} ChunksFlatten<T>(s: seq<T>, n: nat)
    requires n > 0
    ensures Flatten(Chunks(s, n)) == s
    decreases |s|
  {
    if |s| > n {
      var c := Chunks(s, n);
      assert c[1..] == Chunks(s[n..], n);
      ChunksFlatten(s[n..], n);
      assert s == s[..n] + s[n..];
    }
  }

  /** Every chunk is non-empty and holds at most n elements; all but the last hold exactly n. */
  lemma {:induction false} ChunksSizes<T>(s: seq<T>, n: nat)
    requires n > 0
    ensures forall i :: 0 <= i < |Chunks(s, n)| ==> 0 < |Chunks(s, n)[i]| <= n
    ensures forall i :: 0 <= i < |Chunks(s, n)| - 1 ==> |Chunks(s, n)[i]| == n
    decreases |s|
  {
    if |s| > n {
      var c, rest := Chunks(s, n), Chunks(s[n..], n);
      ChunksSizes(s[n..], n);
      assert forall i :: 1 <= i < |c| ==> c[i] == rest[i - 1];
    }
  }

  /** There are ceil(|s| / n) chunks. */
  lemma {:induction false} ChunksCount<T>(s: seq<T>, n: nat)
    requires n > 0
    ensures |Chunks(s, n)| == (|s| + n - 1) / n
    decreases |s|
  {
    if s == [] {
      DivSmall(n - 1, n);
    } else if |s| <= n {
      DivOnce(|s| - 1, n);
    } else {
      ChunksCount(s[n..], n);
      DivStep(|s| - 1, n);
    }
  }

  lemma DivSmall(x: nat, n: nat)
    requires x < n
    ensures x / n == 0
  {
  }

  lemma DivOnce(x: nat, n: nat)
    requires x < n
    ensures (x + n) / n == 1
  {
    DivUnique(x + n, n, 1, x);
  }

  lemma DivStep(x: nat, n: nat)
    requires 0 < n
    ensures (x + n) / n == x / n + 1
  {
    var q, r := x / n, x % n;
    assert x == q * n + r;
    assert x + n == (q + 1) * n + r;
    DivUnique(x + n, n, q + 1, r);
  }

  /** Euclidean division has one quotient. */
  lemma DivUnique(a: nat, n: nat, q: nat, r: nat)
    requires 0 <= r < n && a == q * n + r
    ensures a / n == q
  {
    var q', r' := a / n, a % n;
    if q' < q {
      MulGap(q', q, n);
    } else if q' > q {
      MulGap(q, q', n);
    }
  }

  /** If a < b then b * n exceeds a * n by at least n. */
  lemma {:induction false} MulGap(a: nat, b: nat, n: nat)
    requires a < b
    ensures a * n + n <= b * n
    decreases b - a
  {
    if a + 1 < b {
      MulGap(a, b - 1, n);
    }
    assert b * n == (b - 1) * n + n;
  }

  /** `s.slice(i)`, which is empty once i has passed the end. */
  function From<T>(s: seq<T>, i: nat): seq<T> {
    if i <= |s| then s[i..] else []
  }

  /** `s.slice(i, i + n)`. */
  function Slice<T>(s: seq<T>, i: nat, n: nat): seq<T>
    requires i <= |s|
  {
    if i + n <= |s| then s[i..i + n] else s[i..]
  }

  /** The chunks from position i are the slice at i followed by the chunks from i + n. */
  lemma ChunksStep<T>(s: seq<T>, i: nat, n: nat)
    requires n > 0 && i < |s|
    ensures Chunks(From(s, i), n) == [Slice(s, i, n)] + Chunks(From(s, i + n), n)
  {
    var rest := s[i..];
    assert From(s, i) == rest;
    if |rest| <= n {
      assert Slice(s, i, n) == rest;
      assert From(s, i + n) == [];
    } else {
      assert rest[..n] == s[i..i + n];
      assert rest[n..] == s[i + n..];
    }
  }

  /** The loop `for (i = 0; i < s.length; i += n) out.push(s.slice(i, i + n))`. */
  method MakeChunks<T>(s: seq<T>, n: nat) returns (chunks: seq<seq<T>>)
    requires n > 0
    ensures chunks == Chunks(s, n)
  {
    chunks := [];
    var i := 0;
    while i < |s|
      invariant i <= |s| ==> chunks + Chunks(s[i..], n) == Chunks(s, n)
      invariant i > |s| ==> chunks == Chunks(s, n)
      decreases |s| - i
    {
      var end := if i + n < |s| then i + n else |s|;
      var slice := s[i..end];
      var rest := s[i..];
      if |rest| <= n {
        assert slice == rest;
        assert Chunks(rest, n) == [rest];
      } else {
        assert slice == rest[..n];
        assert rest[n..] == s[i + n..];
      }
      chunks := chunks + [slice];
      i := i + n;
      if i == |s| {
        assert s[i..] == [];
      }
    }
  }
}
