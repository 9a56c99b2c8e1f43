/** Sequence helpers shared by the store model and the client pages: the
    JavaScript array operations the source relies on (`filter`, `find`,
    `some`, `slice`) and the row order the tables are read back in. */
module Collections {

  datatype Option<T> = None | Some(value: T)

  /** `Array.prototype.filter`: the elements that satisfy `f`, in their original order. */
  function Filter<T>(f: T -> bool, s: seq<T>): (r: seq<T>)
    ensures |r| <= |s|
    ensures forall i :: 0 <= i < |r| ==> f(r[i]) && r[i] in s
    ensures forall i :: 0 <= i < |s| && f(s[i]) ==> s[i] in r
    decreases |s|
  {
    if s == [] then [] else (if f(s[0]) then [s[0]] else []) + Filter(f, s[1..])
  }

  /** Index of the first element that satisfies `f` (`Array.prototype.findIndex`). */
  function FirstIndex<T>(f: T -> bool, s: seq<T>): (r: Option<nat>)
    ensures r.Some? ==> r.value < |s| && f(s[r.value])
    ensures r.Some? ==> forall j :: 0 <= j < r.value ==> !f(s[j])
    ensures r.None? <==> forall j :: 0 <= j < |s| ==> !f(s[j])
    decreases |s|
  {
    if s == [] then None
    else if f(s[0]) then Some(0)
    else match FirstIndex(f, s[1..]) {
      case None => None
      case Some(k) => Some(k + 1)
    }
  }

  /** `Array.prototype.find`, and the first row a `SELECT ... WHERE` hands back. */
  function Find<T>(f: T -> bool, s: seq<T>): (r: Option<T>)
    ensures r.Some? ==> f(r.value) && r.value in s
    ensures r.None? <==> forall j :: 0 <= j < |s| ==> !f(s[j])
  {
    match FirstIndex(f, s)
    case None => None
    case Some(k) => Some(s[k])
  }

  /** The rows in reverse insertion order: how `ORDER BY createdAt DESC` reads
      back a table whose rows were inserted one after another. */
  function Reverse<T>(s: seq<T>): (r: seq<T>)
    ensures |r| == |s|
    ensures forall i :: 0 <= i < |s| ==> r[i] == s[|s| - 1 - i]
    decreases |s|
  {
    if s == [] then [] else Reverse(s[1..]) + [s[0]]
  }

  /** Reversal keeps exactly the same elements. */
  lemma ReverseElements<T>(s: seq<T>)
    ensures forall x :: x in Reverse(s) <==> x in s
  {
    var r := Reverse(s);
    forall x | x in s ensures x in r {
      var k :| 0 <= k < |s| && s[k] == x;
      assert r[|s| - 1 - k] == x;
    }
  }

  /** `a` is obtained from `b` by deleting elements, without reordering. */
  predicate IsSubseq<T(==)>(a: seq<T>, b: seq<T>)
    decreases |b|
  {
    if a == [] then true
    else if b == [] then false
    else if a[0] == b[0] then IsSubseq(a[1..], b[1..])
    else IsSubseq(a, b[1..])
  }

  /** `P` holds between every element and every later one. */
  ghost predicate Pairwise<T>(s: seq<T>, P: (T, T) -> bool) {
    forall i, j :: 0 <= i < j < |s| ==> P(s[i], s[j])
  }

  /** Filtering keeps the original order: the result is a subsequence. */
  lemma {:induction false} FilterIsSubseq<T>(f: T -> bool, s: seq<T>)
    ensures IsSubseq(Filter(f, s), s)
    decreases |s|
  {
    if s != [] {
      FilterIsSubseq(f, s[1..]);
      var r := Filter(f, s);
      if f(s[0]) {
        assert r == [s[0]] + Filter(f, s[1..]);
        assert r[1..] == Filter(f, s[1..]);
      } else {
        assert r == Filter(f, s[1..]);
        if r != [] {
          assert f(r[0]);
        }
      }
    }
  }

  /** Filtering distributes over concatenation. */
  lemma {:induction false} FilterAppend<T>(f: T -> bool, a: seq<T>, b: seq<T>)
    ensures Filter(f, a + b) == Filter(f, a) + Filter(f, b)
    decreases |a|
  {
    if a == [] {
      assert a + b == b;
    } else {
      assert (a + b)[0] == a[0];
      assert (a + b)[1..] == a[1..] + b;
      FilterAppend(f, a[1..], b);
    }
  }

  /** Filtering keeps everything when every element satisfies the predicate. */
  lemma {:induction false} FilterAll<T>(f: T -> bool, s: seq<T>)
    requires forall i :: 0 <= i < |s| ==> f(s[i])
    ensures Filter(f, s) == s
    decreases |s|
  {
    if s != [] {
      FilterAll(f, s[1..]);
      assert [s[0]] + s[1..] == s;
    }
  }

  /** Filtering keeps nothing when no element satisfies the predicate. */
  lemma {:induction false} FilterNone<T>(f: T -> bool, s: seq<T>)
    requires forall i :: 0 <= i < |s| ==> !f(s[i])
    ensures Filter(f, s) == []
    decreases |s|
  {
    if s != [] {
      FilterNone(f, s[1..]);
    }
  }

  /** A relation that holds between all earlier/later pairs of `s` still holds in
      any filtered view of `s` (deleting rows cannot create a conflict). */
  lemma {:induction false} FilterPairwise<T>(f: T -> bool, s: seq<T>, P: (T, T) -> bool)
    requires Pairwise(s, P)
    ensures Pairwise(Filter(f, s), P)
    decreases |s|
  {
    if s != [] {
      var tail := s[1..];
      PairwiseTail(s, P);
      FilterPairwise(f, tail, P);
      var rt := Filter(f, tail);
      if f(s[0]) {
        FilterKeeps(f, tail, (x: T) => P(s[0], x));
        PairwiseCons(s[0], rt, P);
        assert Filter(f, s) == [s[0]] + rt;
      } else {
        assert Filter(f, s) == rt;
      }
    }
  }

  /** The tail of a pairwise-related sequence is pairwise related, and its
      head is related to all of it. */
  lemma PairwiseTail<T>(s: seq<T>, P: (T, T) -> bool)
    requires s != [] && Pairwise(s, P)
    ensures Pairwise(s[1..], P)
    ensures forall k :: 0 <= k < |s[1..]| ==> P(s[0], s[1..][k])
  {
    var tail := s[1..];
    forall i, j | 0 <= i < j < |tail| ensures P(tail[i], tail[j]) {
      assert tail[i] == s[i + 1] && tail[j] == s[j + 1];
    }
    forall k | 0 <= k < |tail| ensures P(s[0], tail[k]) {
      assert tail[k] == s[k + 1];
    }
  }

  /** Putting in front an element related to all of a pairwise-related
      sequence keeps it pairwise related. */
  lemma PairwiseCons<T>(x: T, t: seq<T>, P: (T, T) -> bool)
    requires Pairwise(t, P)
    requires forall k :: 0 <= k < |t| ==> P(x, t[k])
    ensures Pairwise([x] + t, P)
  {
    var r := [x] + t;
    forall i, j | 0 <= i < j < |r| ensures P(r[i], r[j]) {
      if i == 0 {
        assert r[j] == t[j - 1];
      } else {
        assert r[i] == t[i - 1] && r[j] == t[j - 1];
      }
    }
  }

  /** Whatever holds of every element holds of every element kept. */
  lemma FilterKeeps<T>(f: T -> bool, s: seq<T>, Q: T -> bool)
    requires forall i :: 0 <= i < |s| ==> Q(s[i])
    ensures forall i :: 0 <= i < |Filter(f, s)| ==> Q(Filter(f, s)[i])
  {
    var r := Filter(f, s);
    forall i | 0 <= i < |r| ensures Q(r[i]) {
      var k :| 0 <= k < |s| && s[k] == r[i];
    }
  }

  /** Filtering commutes with reversal. */
  lemma {:induction false} FilterReverse<T>(f: T -> bool, s: seq<T>)
    ensures Filter(f, Reverse(s)) == Reverse(Filter(f, s))
    decreases |s|
  {
    if s != [] {
      FilterReverse(f, s[1..]);
      assert Reverse(s) == Reverse(s[1..]) + [s[0]];
      FilterAppend(f, Reverse(s[1..]), [s[0]]);
      assert Filter(f, [s[0]]) == (if f(s[0]) then [s[0]] else []) by {
        assert [s[0]][1..] == [];
      }
      var ft := Filter(f, s[1..]);
      if f(s[0]) {
        assert Filter(f, s) == [s[0]] + ft;
        assert ([s[0]] + ft)[1..] == ft;
      } else {
        assert Filter(f, s) == ft;
      }
    }
  }

  /** Appending an element that is related to every earlier one keeps `Pairwise`. */
  lemma PairwiseAppend<T>(s: seq<T>, x: T, P: (T, T) -> bool)
    requires Pairwise(s, P)
    requires forall i :: 0 <= i < |s| ==> P(s[i], x)
    ensures Pairwise(s + [x], P)
  {
    var t := s + [x];
    forall i, j | 0 <= i < j < |t| ensures P(t[i], t[j]) {
      if j < |s| {
        assert t[i] == s[i] && t[j] == s[j];
      } else {
        assert t[i] == s[i] && t[j] == x;
      }
    }
  }
}
