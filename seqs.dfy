/** Sequence helpers standing for the JavaScript array methods the core uses. */
module Seqs {
  import opened Wrappers

  /** Array.prototype.filter: the elements of s that satisfy p, in their original order. */
  function Filter<T>(s: seq<T>, p: T -> bool): (r: seq<T>)
    ensures |r| <= |s|
  {
    if s == [] then []
    else Filter(s[..|s| - 1], p) + (if p(s[|s| - 1]) then [s[|s| - 1]] else [])
  }

  /** The least k with lo <= k <= hi and P(k), if there is one: a left-to-right search. */
  function FirstFrom(lo: nat, hi: nat, P: nat -> bool): (r: Option<nat>)
    requires lo <= hi
    ensures r.Some? ==> lo <= r.value <= hi && P(r.value)
    ensures r.Some? ==> forall k :: lo <= k < r.value ==> !P(k)
    ensures r.None? ==> forall k :: lo <= k <= hi ==> !P(k)
    decreases hi - lo
  {
    if P(lo) then Some(lo)
    else if lo == hi then None
    else FirstFrom(lo + 1, hi, P)
  }

  /** A position where P holds, with P false at every earlier position, is the one FirstFrom finds. */
  lemma FirstFromLeast(lo: nat, hi: nat, P: nat -> bool, p: nat)
    requires lo <= p <= hi && P(p)
    requires forall k :: lo <= k < p ==> !P(k)
    ensures FirstFrom(lo, hi, P) == Some(p)
  {
  }

  /** An element is kept exactly when it occurs in s and satisfies p. */
  lemma {:induction false} FilterMembership<T>(s: seq<T>, p: T -> bool, x: T)
    ensures x in Filter(s, p) <==> x in s && p(x)
  {
    if s != [] {
      var init := s[..|s| - 1];
      FilterMembership(init, p, x);
      assert s == init + [s[|s| - 1]];
    }
  }

  /** FilterMembership for every element at once. */
  lemma FilterMembershipAll<T>(s: seq<T>, p: T -> bool)
    ensures forall x :: x in Filter(s, p) <==> x in s && p(x)
  {
    forall x
      ensures x in Filter(s, p) <==> x in s && p(x)
    {
      FilterMembership(s, p, x);
    }
  }

  /** Every kept element satisfies p. */
  lemma FilterAllSatisfy<T>(s: seq<T>, p: T -> bool)
    ensures forall i :: 0 <= i < |Filter(s, p)| ==> p(Filter(s, p)[i])
  {
    forall i | 0 <= i < |Filter(s, p)|
      ensures p(Filter(s, p)[i])
    {
      FilterMembership(s, p, Filter(s, p)[i]);
    }
  }

  /** The positions of s that Filter keeps, in increasing order. */
  function KeptIndices<T>(s: seq<T>, p: T -> bool): (idx: seq<nat>)
    ensures |idx| == |Filter(s, p)|
  {
    if s == [] then []
    else KeptIndices(s[..|s| - 1], p) + (if p(s[|s| - 1]) then [|s| - 1] else [])
  }

  /** The k-th kept position holds the k-th element of the filtered sequence, and its element satisfies p. */
  lemma {:induction false} KeptIndicesElements<T>(s: seq<T>, p: T -> bool, k: nat)
    requires k < |KeptIndices(s, p)|
    ensures KeptIndices(s, p)[k] < |s|
    ensures s[KeptIndices(s, p)[k]] == Filter(s, p)[k]
    ensures p(s[KeptIndices(s, p)[k]])
  {
    var init := s[..|s| - 1];
    var idx0 := KeptIndices(init, p);
    if k < |idx0| {
      KeptIndicesElements(init, p, k);
      assert KeptIndices(s, p)[k] == idx0[k];
      assert Filter(s, p)[k] == Filter(init, p)[k];
      assert s[idx0[k]] == init[idx0[k]];
    }
  }

  /** The kept positions are strictly increasing and all below |s|. */
  lemma {:induction false} KeptIndicesIncreasing<T>(s: seq<T>, p: T -> bool)
    ensures forall k :: 0 <= k < |KeptIndices(s, p)| ==> KeptIndices(s, p)[k] < |s|
    ensures forall k, l :: 0 <= k < l < |KeptIndices(s, p)| ==> KeptIndices(s, p)[k] < KeptIndices(s, p)[l]
  {
    if s != [] {
      KeptIndicesIncreasing(s[..|s| - 1], p);
    }
  }

  /** Every position whose element satisfies p is kept. */
  lemma {:induction false} KeptIndicesComplete<T>(s: seq<T>, p: T -> bool, i: nat)
    requires i < |s| && p(s[i])
    ensures i in KeptIndices(s, p)
  {
    if i < |s| - 1 {
      var init := s[..|s| - 1];
      assert init[i] == s[i];
      KeptIndicesComplete(init, p, i);
    }
  }

  /** Filter keeps, in increasing order, exactly the positions whose element satisfies p. */
  lemma FilterPositions<T>(s: seq<T>, p: T -> bool)
    ensures var idx := KeptIndices(s, p);
      && |idx| == |Filter(s, p)|
      && (forall k :: 0 <= k < |idx| ==> idx[k] < |s| && Filter(s, p)[k] == s[idx[k]])
      && (forall k, l :: 0 <= k < l < |idx| ==> idx[k] < idx[l])
      && (forall i :: 0 <= i < |s| && p(s[i]) ==> i in idx)
  {
    KeptIndicesIncreasing(s, p);
    forall k | 0 <= k < |KeptIndices(s, p)|
      ensures Filter(s, p)[k] == s[KeptIndices(s, p)[k]]
    {
      KeptIndicesElements(s, p, k);
    }
    forall i | 0 <= i < |s| && p(s[i])
      ensures i in KeptIndices(s, p)
    {
      KeptIndicesComplete(s, p, i);
    }
  }

  /** The positions of s whose element satisfies p. */
  function PositionsWhere<T>(s: seq<T>, p: T -> bool): set<int>
  {
    set i | 0 <= i < |s| && p(s[i])
  }

  /** Filter keeps as many elements as there are positions whose element satisfies p. */
  lemma {:induction false} FilterCount<T>(s: seq<T>, p: T -> bool)
    ensures |Filter(s, p)| == |PositionsWhere(s, p)|
  {
    if s != [] {
      var init := s[..|s| - 1];
      var n := |s| - 1;
      FilterCount(init, p);
      var last := if p(s[n]) then {n} else {};
      assert PositionsWhere(s, p) == PositionsWhere(init, p) + last;
      assert n !in PositionsWhere(init, p);
    }
  }

  /** An element that satisfies p is kept, at some position of the filtered sequence. */
  lemma FilterKeeps<T>(s: seq<T>, p: T -> bool, i: nat)
    requires i < |s| && p(s[i])
    ensures exists k :: 0 <= k < |Filter(s, p)| && Filter(s, p)[k] == s[i]
  {
    KeptIndicesComplete(s, p, i);
    var k :| 0 <= k < |KeptIndices(s, p)| && KeptIndices(s, p)[k] == i;
    KeptIndicesElements(s, p, k);
  }

  /** Filtering a sequence that starts with x. */
  lemma FilterCons<T>(x: T, s: seq<T>, p: T -> bool)
    ensures Filter([x] + s, p) == (if p(x) then [x] else []) + Filter(s, p)
  {
    var one := [x];
    assert one[..|one| - 1] == [];
    assert Filter(one, p) == (if p(x) then [x] else []);
    FilterConcat(one, s, p);
  }

  /** Filtering a sequence extended by one element. */
  lemma FilterSnoc<T>(s: seq<T>, x: T, p: T -> bool)
    ensures Filter(s + [x], p) == Filter(s, p) + (if p(x) then [x] else [])
  {
    assert (s + [x])[..|s|] == s;
  }

  /** Filtering distributes over concatenation. */
  lemma {:induction false} FilterConcat<T>(a: seq<T>, b: seq<T>, p: T -> bool)
    ensures Filter(a + b, p) == Filter(a, p) + Filter(b, p)
  {
    if b == [] {
      assert a + b == a;
    } else {
      var init := b[..|b| - 1];
      var x := b[|b| - 1];
      FilterConcat(a, init, p);
      assert a + b == (a + init) + [x];
      assert b == init + [x];
      FilterSnoc(a + init, x, p);
      FilterSnoc(init, x, p);
    }
  }

  /** Filtering distributes over a concatenation of three parts. */
  lemma FilterConcat3<T>(a: seq<T>, b: seq<T>, c: seq<T>, p: T -> bool)
    ensures Filter(a + b + c, p) == Filter(a, p) + Filter(b, p) + Filter(c, p)
  {
    FilterConcat(a, b, p);
    FilterConcat(a + b, c, p);
  }

  /** Filtering drops a middle part with no element kept and keeps the parts around it whole. */
  lemma KeepAround<T>(a: seq<T>, b: seq<T>, c: seq<T>, p: T -> bool)
    requires Filter(a, p) == a && Filter(b, p) == [] && Filter(c, p) == c
    ensures Filter(a + b + c, p) == a + c
  {
    FilterConcat(a, b, p);
    assert Filter(a + b, p) == a;
    FilterConcat(a + b, c, p);
  }

  /** findIndex from position i: the first index at or after i whose element satisfies p, or -1. */
  function FindFrom<T>(s: seq<T>, p: T -> bool, i: nat): (k: int)
    requires i <= |s|
    ensures k == -1 || i <= k < |s|
    ensures k != -1 ==> p(s[k])
    ensures forall j :: i <= j < (if k == -1 then |s| else k) ==> !p(s[j])
    decreases |s| - i
  {
    if i == |s| then -1
    else if p(s[i]) then i
    else FindFrom(s, p, i + 1)
  }

  /** Replacing the last element of a sequence. */
  lemma UpdateLast<T>(xs: seq<T>, x: T, y: T)
    ensures (xs + [x])[|xs| := y] == xs + [y]
  {
    assert forall k :: 0 <= k < |xs| ==> (xs + [x])[|xs| := y][k] == xs[k];
  }

  /** The first of the positions i, i + 1, ... below both limit and |s| whose element
      satisfies p, or 0 when there is none. */
  function FirstWithin<T>(s: seq<T>, p: T -> bool, limit: nat, i: nat): (k: nat)
    ensures || (i <= k < limit && k < |s| && p(s[k]) && forall j :: i <= j < k ==> !p(s[j]))
            || (k == 0 && forall j :: i <= j < limit && j < |s| ==> !p(s[j]))
    decreases limit - i
  {
    if i < limit && i < |s| then (if p(s[i]) then i else FirstWithin(s, p, limit, i + 1)) else 0
  }

  /** The conjunction of two predicates. */
  function Both<T>(p: T -> bool, q: T -> bool): T -> bool
  {
    x => p(x) && q(x)
  }

  /** Filtering twice is filtering once by both predicates. */
  lemma {:induction false} FilterFilter<T>(s: seq<T>, p: T -> bool, q: T -> bool)
    ensures Filter(Filter(s, p), q) == Filter(s, Both(p, q))
  {
    if s != [] {
      var init := s[..|s| - 1];
      var x := s[|s| - 1];
      assert s == init + [x];
      FilterFilter(init, p, q);
      FilterSnoc(init, x, p);
      FilterSnoc(init, x, Both(p, q));
      if p(x) {
        FilterSnoc(Filter(init, p), x, q);
      } else {
        assert Filter(s, p) == Filter(init, p);
      }
    }
  }

  /** Filtering by a predicate that every element satisfies changes nothing. */
  lemma {:induction false} FilterAll<T>(s: seq<T>, p: T -> bool)
    requires forall i :: 0 <= i < |s| ==> p(s[i])
    ensures Filter(s, p) == s
  {
    if s != [] {
      FilterAll(s[..|s| - 1], p);
    }
  }

  /** Filtering by a predicate that no element satisfies leaves nothing. */
  lemma {:induction false} FilterNone<T>(s: seq<T>, p: T -> bool)
    requires forall i :: 0 <= i < |s| ==> !p(s[i])
    ensures Filter(s, p) == []
  {
    if s != [] {
      FilterNone(s[..|s| - 1], p);
    }
  }

  /** A filter by a predicate that is the disjoint union of two others keeps as many elements
      as the two together. */
  lemma {:induction false} FilterSplit<T>(s: seq<T>, p: T -> bool, a: T -> bool, b: T -> bool)
    requires forall x :: p(x) <==> a(x) || b(x)
    requires forall x :: !(a(x) && b(x))
    ensures |Filter(s, p)| == |Filter(s, a)| + |Filter(s, b)|
  {
    if s != [] {
      FilterSplit(s[..|s| - 1], p, a, b);
    }
  }

  /** Filtering by a weaker predicate keeps at least as many elements. */
  lemma {:induction false} FilterMonotone<T>(s: seq<T>, p: T -> bool, q: T -> bool)
    requires forall i :: 0 <= i < |s| && p(s[i]) ==> q(s[i])
    ensures |Filter(s, p)| <= |Filter(s, q)|
  {
    if s != [] {
      FilterMonotone(s[..|s| - 1], p, q);
    }
  }

  /** The values f gives for the elements of s, in order, skipping the elements it gives none for. */
  function Collect<T, U>(s: seq<T>, f: T -> Option<U>): (r: seq<U>)
    ensures |r| <= |s|
  {
    if s == [] then []
    else
      var init := Collect(s[..|s| - 1], f);
      match f(s[|s| - 1])
      case None => init
      case Some(u) => init + [u]
  }

  /** Collecting is filtering by "f gives a value" and then applying f. */
  lemma {:induction false} CollectFilter<T, U>(s: seq<T>, f: T -> Option<U>, p: T -> bool)
    requires forall x :: p(x) <==> f(x).Some?
    ensures |Collect(s, f)| == |Filter(s, p)|
    ensures forall k :: 0 <= k < |Filter(s, p)| ==> f(Filter(s, p)[k]) == Some(Collect(s, f)[k])
  {
    if s != [] {
      var init := s[..|s| - 1];
      var x := s[|s| - 1];
      CollectFilter(init, f, p);
      assert init + [x] == s;
      FilterSnoc(init, x, p);
    }
  }
}
