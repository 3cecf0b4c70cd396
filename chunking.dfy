/**
  Bounded-size chunks. Both store writers drain the array they are given
  with `while (arr.length) { write(arr.splice(0, limit)) }`, and the
  dispatch lambda groups identifiers two at a time; `Chunks` is the
  sequence of pieces all of them produce, and `JsArray` is the JavaScript
  array whose front `splice` removes.
 */
module Chunking {
  import opened Numbers

  /** Concatenation of a sequence of pieces, in order. */
  function Flatten<T>(pieces: seq<seq<T>>): seq<T>
  {
    if |pieces| == 0 then [] else pieces[0] + Flatten(pieces[1..])
  }

  lemma {:induction false} FlattenAppend<T>(pieces: seq<seq<T>>, last: seq<T>)
    ensures Flatten(pieces + [last]) == Flatten(pieces) + last
  {
    if |pieces| > 0 {
      assert (pieces + [last])[1..] == pieces[1..] + [last];
      FlattenAppend(pieces[1..], last);
    }
  }

  lemma ConcatAssoc<T>(a: seq<T>, b: seq<T>, c: seq<T>)
    ensures (a + b) + c == a + (b + c)
  {
  }

  /** `s` cut, from the front, into pieces of `n` elements, the last piece
      holding what is left over. */
  function Chunks<T>(s: seq<T>, n: nat): (r: seq<seq<T>>)
    requires n > 0
    ensures forall i :: 0 <= i < |r| ==> 0 < |r[i]| <= n
    decreases |s|
  {
    if |s| == 0 then []
    else
      var k := if |s| < n then |s| else n;
      [s[..k]] + Chunks(s[k..], n)
  }

  /** The pieces, put back together in order, are the original sequence:
      nothing is dropped, repeated or reordered. */
  lemma {:induction false} ChunksFlatten<T>(s: seq<T>, n: nat)
    requires n > 0
    ensures Flatten(Chunks(s, n)) == s
    decreases |s|
  {
    if |s| > 0 {
      var k := if |s| < n then |s| else n;
      ChunksFlatten(s[k..], n);
      assert s == s[..k] + s[k..];
    }
  }

  /** There are ⌈|s| / n⌉ pieces. */
  lemma {:induction false} ChunksCount<T>(s: seq<T>, n: nat)
    requires n > 0
    ensures |Chunks(s, n)| == CeilDiv(|s|, n)
    decreases |s|
  {
    if |s| > 0 {
      if |s| < n {
        assert Chunks(s[|s|..], n) == [];
      } else {
        ChunksCount(s[n..], n);
        CeilDivStep(|s| - n, n);
      }
    }
  }

  /** A sequence of at least n elements gives a full first piece followed by
      the pieces of the rest. */
  lemma ChunksUnfold<T>(s: seq<T>, n: nat)
    requires n > 0 && |s| >= n
    ensures Chunks(s, n) == [s[..n]] + Chunks(s[n..], n)
  {
  }

  /** Every piece but the last is full. */
  lemma {:induction false} ChunksFull<T>(s: seq<T>, n: nat)
    requires n > 0
    ensures forall i :: 0 <= i < |Chunks(s, n)| - 1 ==> |Chunks(s, n)[i]| == n
    decreases |s|
  {
    if |s| >= n {
      ChunksUnfold(s, n);
      ChunksFull(s[n..], n);
      var c, rest := Chunks(s, n), Chunks(s[n..], n);
      forall i | 1 <= i < |c| - 1
        ensures |c[i]| == n
      {
        assert c[i] == rest[i - 1];
      }
    }
  }

  /** The last piece holds |s| mod n elements, or n when n divides |s|. */
  lemma {:induction false} ChunksLast<T>(s: seq<T>, n: nat)
    requires n > 0 && |s| > 0
    ensures |Chunks(s, n)[|Chunks(s, n)| - 1]| == if |s| % n == 0 then n else |s| % n
    decreases |s|
  {
    if |s| <= n {
      ChunksSingle(s, n);
      SmallMod(|s|, n);
    } else {
      ChunksLastOfRest(s, n);
      ChunksLast(s[n..], n);
      ModSub(|s|, n);
    }
  }

  /** At most n elements make a single piece. */
  lemma ChunksSingle<T>(s: seq<T>, n: nat)
    requires 0 < |s| <= n
    ensures Chunks(s, n) == [s]
  {
    assert s[..|s|] == s;
    assert Chunks(s[|s|..], n) == [];
  }

  lemma SmallMod(m: nat, n: nat)
    requires 0 < m <= n
    ensures (if m % n == 0 then n else m % n) == m
  {
    if m < n {
      assert m % n == m;
    } else {
      assert m % n == 0;
    }
  }

  /** Beyond the first n elements, the last piece is the last piece of the rest. */
  lemma ChunksLastOfRest<T>(s: seq<T>, n: nat)
    requires 0 < n < |s|
    ensures |Chunks(s[n..], n)| > 0
    ensures Chunks(s, n)[|Chunks(s, n)| - 1] == Chunks(s[n..], n)[|Chunks(s[n..], n)| - 1]
  {
    ChunksUnfold(s, n);
  }

  /** Appending a last piece of at most n elements to a sequence that fills
      whole pieces appends exactly that piece. */
  lemma {:induction false} ChunksAppend<T>(a: seq<T>, c: seq<T>, n: nat)
    requires n > 0 && |a| % n == 0 && 0 < |c| <= n
    ensures Chunks(a + c, n) == Chunks(a, n) + [c]
    decreases |a|
  {
    if |a| == 0 {
      assert a + c == c;
      ChunksSingle(c, n);
    } else {
      WholePiecesAtLeastOne(|a|, n);
      ModSub(|a|, n);
      ChunksAppend(a[n..], c, n);
      ChunksUnfoldConcat(a, c, n);
      ConcatAssoc([a[..n]], Chunks(a[n..], n), [c]);
    }
  }

  /** The first piece of a + c, for |a| >= n, lies in a. */
  lemma ChunksUnfoldConcat<T>(a: seq<T>, c: seq<T>, n: nat)
    requires 0 < n <= |a|
    ensures Chunks(a, n) == [a[..n]] + Chunks(a[n..], n)
    ensures Chunks(a + c, n) == [a[..n]] + Chunks(a[n..] + c, n)
  {
    ChunksUnfold(a, n);
    ChunksUnfold(a + c, n);
    assert (a + c)[..n] == a[..n];
    assert (a + c)[n..] == a[n..] + c;
  }

  /** Cutting the first piece off the front of what is left of `whole`
      moves that piece from the pieces to come to the pieces done. */
  lemma ChunksSplice<T>(whole: seq<T>, done: seq<seq<T>>, rest: seq<T>, n: nat)
    requires n > 0 && |rest| > 0 && Chunks(whole, n) == done + Chunks(rest, n)
    ensures var k := if n < |rest| then n else |rest|;
      Chunks(whole, n) == (done + [rest[..k]]) + Chunks(rest[k..], n)
  {
    var k := if n < |rest| then n else |rest|;
    assert Chunks(rest, n) == [rest[..k]] + Chunks(rest[k..], n);
    assert done + ([rest[..k]] + Chunks(rest[k..], n)) == (done + [rest[..k]]) + Chunks(rest[k..], n);
  }

  lemma WholePiecesAtLeastOne(m: nat, n: nat)
    requires n > 0 && m > 0 && m % n == 0
    ensures m >= n
  {
  }

  /** A JavaScript array that its users shorten from the front. */
  class JsArray<T> {
    var elements: seq<T>

    constructor (initial: seq<T>)
      ensures elements == initial
    {
      elements := initial;
    }

    /** `splice(0, count)`: removes and returns the first `count` elements,
        or all of them when there are fewer. */
    method SpliceFront(count: nat) returns (removed: seq<T>)
      modifies this
      ensures removed == old(elements)[..if count < |old(elements)| then count else |old(elements)|]
      ensures elements == old(elements)[|removed|..]
    {
      var k := if count < |elements| then count else |elements|;
      removed := elements[..k];
      elements := elements[k..];
    }
  }
}
