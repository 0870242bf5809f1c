/** `Array.prototype.filter` over sequences, with what the pages rely on:
    the kept elements are exactly those satisfying the predicate, with their
    multiplicities, and they keep their original order. */
module Lists {

  function Filter<T(!new)>(p: T -> bool, s: seq<T>): (r: seq<T>)
    ensures |r| <= |s|
    ensures forall i :: 0 <= i < |r| ==> p(r[i])
    ensures forall x :: x in r <==> x in s && p(x)
    ensures forall x :: multiset(r)[x] == if p(x) then multiset(s)[x] else 0
  {
    if s == [] then []
    else
      assert s == [s[0]] + s[1..];
      if p(s[0]) then [s[0]] + Filter(p, s[1..]) else Filter(p, s[1..])
  }

  /** `idx` lists, in increasing order, positions of `b` that spell out `a`. */
  ghost predicate IsEmbedding<T>(a: seq<T>, b: seq<T>, idx: seq<int>)
  {
    && |idx| == |a|
    && (forall k :: 0 <= k < |idx| ==> 0 <= idx[k] < |b| && b[idx[k]] == a[k])
    && (forall k, l :: 0 <= k < l < |idx| ==> idx[k] < idx[l])
  }

  /** `a` is `b` with some elements dropped and the rest in their original order. */
  ghost predicate IsSubsequence<T>(a: seq<T>, b: seq<T>)
  {
    exists idx :: IsEmbedding(a, b, idx)
  }

  ghost function Shifted(idx: seq<int>): (r: seq<int>)
    ensures |r| == |idx| && forall k :: 0 <= k < |idx| ==> r[k] == idx[k] + 1
  {
    seq(|idx|, k requires 0 <= k < |idx| => idx[k] + 1)
  }

  /** The positions of `s` whose elements satisfy `p`, in increasing order. */
  ghost function KeptPositions<T(!new)>(p: T -> bool, s: seq<T>): seq<int>
  {
    if s == [] then []
    else if p(s[0]) then [0] + Shifted(KeptPositions(p, s[1..]))
    else Shifted(KeptPositions(p, s[1..]))
  }

  /** Putting an element in front of `b` moves every embedded position up by one. */
  lemma EmbeddingUnderCons<T>(a: seq<T>, b: seq<T>, x: T, idx: seq<int>)
    requires IsEmbedding(a, b, idx)
    ensures IsEmbedding(a, [x] + b, Shifted(idx))
  {
    var sh := Shifted(idx);
    forall k | 0 <= k < |sh| ensures ([x] + b)[sh[k]] == a[k] {
      assert ([x] + b)[sh[k]] == b[idx[k]];
    }
  }

  /** An element put in front of both sequences is embedded at position 0. */
  lemma EmbeddingBothCons<T>(a: seq<T>, b: seq<T>, x: T, idx: seq<int>)
    requires IsEmbedding(a, b, idx)
    ensures IsEmbedding([x] + a, [x] + b, [0] + Shifted(idx))
  {
    EmbeddingUnderCons(a, b, x, idx);
    var sh, full := Shifted(idx), [0] + Shifted(idx);
    forall k | 0 <= k < |full| ensures 0 <= full[k] < |b| + 1 && ([x] + b)[full[k]] == ([x] + a)[k] {
      if k > 0 { assert full[k] == sh[k - 1]; }
    }
    forall k, l | 0 <= k < l < |full| ensures full[k] < full[l] {
      assert full[l] == sh[l - 1];
      if k > 0 { assert full[k] == sh[k - 1]; }
    }
  }

  /** The filter's result sits inside its input at the kept positions, in order. */
  lemma {:induction false} FilterEmbeds<T(!new)>(p: T -> bool, s: seq<T>)
    ensures IsEmbedding(Filter(p, s), s, KeptPositions(p, s))
  {
    if s != [] {
      var tail := s[1..];
      assert s == [s[0]] + tail;
      FilterEmbeds(p, tail);
      if p(s[0]) {
        EmbeddingBothCons(Filter(p, tail), tail, s[0], KeptPositions(p, tail));
      } else {
        EmbeddingUnderCons(Filter(p, tail), tail, s[0], KeptPositions(p, tail));
      }
    }
  }

  lemma FilterIsSubsequence<T(!new)>(p: T -> bool, s: seq<T>)
    ensures IsSubsequence(Filter(p, s), s)
  {
    FilterEmbeds(p, s);
  }

  /** A filter whose predicate holds everywhere keeps the whole sequence. */
  lemma {:induction false} FilterKeepsAll<T(!new)>(p: T -> bool, s: seq<T>)
    requires forall x :: x in s ==> p(x)
    ensures Filter(p, s) == s
  {
    if s != [] {
      FilterKeepsAll(p, s[1..]);
    }
  }

  /** Filters with predicates that agree on `s` give the same result. */
  lemma {:induction false} FilterAgrees<T(!new)>(p: T -> bool, q: T -> bool, s: seq<T>)
    requires forall x :: x in s ==> p(x) == q(x)
    ensures Filter(p, s) == Filter(q, s)
  {
    if s != [] {
      FilterAgrees(p, q, s[1..]);
    }
  }
}
