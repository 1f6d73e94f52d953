/** The array operations the portal relies on (`filter`, `findIndex`,
    `find`, `slice(0, n)`, `splice(i, 1)`, the length of a filter and an
    in-place `sort` by a numeric key), stated once for every element type. */
module Sequences {
  import opened Models

  /** `r` is what is left of `s` after deleting some of its elements; the
      order of the remaining ones is kept. */
  predicate IsSubseq<T(==)>(r: seq<T>, s: seq<T>)
    decreases |s|
  {
    if s == [] then r == []
    else (r != [] && r[0] == s[0] && IsSubseq(r[1..], s[1..])) || IsSubseq(r, s[1..])
  }

  lemma {:induction false} SubseqRefl<T>(s: seq<T>)
    ensures IsSubseq(s, s)
    decreases |s|
  {
    if s != [] {
      SubseqRefl(s[1..]);
    }
  }

  lemma {:induction false} SubseqTrans<T>(a: seq<T>, b: seq<T>, c: seq<T>)
    requires IsSubseq(a, b) && IsSubseq(b, c)
    ensures IsSubseq(a, c)
    decreases |c|
  {
    if c == [] {
    } else if b != [] && b[0] == c[0] && IsSubseq(b[1..], c[1..]) {
      if a != [] && a[0] == b[0] && IsSubseq(a[1..], b[1..]) {
        SubseqTrans(a[1..], b[1..], c[1..]);
      } else {
        SubseqTrans(a, b[1..], c[1..]);
      }
    } else {
      SubseqTrans(a, b, c[1..]);
    }
  }

  /** `Array.prototype.filter`: the elements of `s` that satisfy `p`, in order. */
  function Filter<T(==,!new)>(s: seq<T>, p: T -> bool): (r: seq<T>)
    ensures |r| <= |s|
    ensures IsSubseq(r, s)
    ensures forall x :: x in r ==> x in s && p(x)
    ensures forall x {:trigger multiset(r)[x]} :: p(x) ==> multiset(r)[x] == multiset(s)[x]
    decreases |s|
  {
    if s == [] then []
    else if p(s[0]) then
      assert s == [s[0]] + s[1..];
      [s[0]] + Filter(s[1..], p)
    else
      assert s == [s[0]] + s[1..];
      Filter(s[1..], p)
  }

  /** The length of `s.filter(p)`. */
  function Count<T(==,!new)>(s: seq<T>, p: T -> bool): (n: nat)
    ensures n <= |s|
  {
    |Filter(s, p)|
  }

  lemma {:induction false} FilterAllKept<T(!new)>(s: seq<T>, p: T -> bool)
    requires forall i :: 0 <= i < |s| ==> p(s[i])
    ensures Filter(s, p) == s
    decreases |s|
  {
    if s != [] {
      FilterAllKept(s[1..], p);
    }
  }

  lemma {:induction false} FilterNoneKept<T(!new)>(s: seq<T>, p: T -> bool)
    requires forall i :: 0 <= i < |s| ==> !p(s[i])
    ensures Filter(s, p) == []
    decreases |s|
  {
    if s != [] {
      FilterNoneKept(s[1..], p);
    }
  }

  /** Filtering twice is filtering once by the conjunction `pq`. */
  lemma {:induction false} FilterTwice<T(!new)>(s: seq<T>, p: T -> bool, q: T -> bool, pq: T -> bool)
    requires forall x :: pq(x) == (p(x) && q(x))
    ensures Filter(Filter(s, p), q) == Filter(s, pq)
    decreases |s|
  {
    if s != [] {
      FilterTwice(s[1..], p, q, pq);
    }
  }

  lemma {:induction false} FilterAppend<T(!new)>(s: seq<T>, t: seq<T>, p: T -> bool)
    ensures Filter(s + t, p) == Filter(s, p) + Filter(t, p)
    decreases |s|
  {
    if s == [] {
      assert s + t == t;
    } else {
      assert (s + t)[1..] == s[1..] + t;
      FilterAppend(s[1..], t, p);
    }
  }

  /** A filter by a weaker predicate keeps at least as many elements. */
  lemma {:induction false} CountMono<T(!new)>(s: seq<T>, p: T -> bool, q: T -> bool)
    requires forall x :: p(x) ==> q(x)
    ensures Count(s, p) <= Count(s, q)
    decreases |s|
  {
    if s != [] {
      CountMono(s[1..], p, q);
    }
  }

  /** Elements that satisfy `p` either satisfy `q` as well or they do not. */
  lemma {:induction false} CountSplit<T(!new)>(s: seq<T>, p: T -> bool, pq: T -> bool, pnq: T -> bool, q: T -> bool)
    requires forall x :: pq(x) == (p(x) && q(x))
    requires forall x :: pnq(x) == (p(x) && !q(x))
    ensures Count(s, p) == Count(s, pq) + Count(s, pnq)
    decreases |s|
  {
    if s != [] {
      CountSplit(s[1..], p, pq, pnq, q);
    }
  }

  /** Every element satisfies exactly one of `p` and its negation `q`. */
  lemma {:induction false} CountComplement<T(!new)>(s: seq<T>, p: T -> bool, q: T -> bool)
    requires forall x :: q(x) == !p(x)
    ensures Count(s, p) + Count(s, q) == |s|
    decreases |s|
  {
    if s != [] {
      CountComplement(s[1..], p, q);
    }
  }

  /** Two predicates that never hold together count no more than `s` holds. */
  lemma {:induction false} CountDisjoint<T(!new)>(s: seq<T>, p: T -> bool, q: T -> bool)
    requires forall x :: !(p(x) && q(x))
    ensures Count(s, p) + Count(s, q) <= |s|
    decreases |s|
  {
    if s != [] {
      CountDisjoint(s[1..], p, q);
    }
  }

  /** Every element is counted exactly when the count is the length. */
  lemma {:induction false} CountAll<T(!new)>(s: seq<T>, p: T -> bool)
    ensures Count(s, p) == |s| <==> forall i :: 0 <= i < |s| ==> p(s[i])
    decreases |s|
  {
    if s != [] {
      CountAll(s[1..], p);
      assert forall i :: 1 <= i < |s| ==> s[i] == s[1..][i - 1];
    }
  }

  /** No element is counted exactly when the count is zero. */
  lemma {:induction false} CountNone<T(!new)>(s: seq<T>, p: T -> bool)
    ensures Count(s, p) == 0 <==> forall i :: 0 <= i < |s| ==> !p(s[i])
    decreases |s|
  {
    if s != [] {
      CountNone(s[1..], p);
      assert forall i :: 1 <= i < |s| ==> s[i] == s[1..][i - 1];
    }
  }

  /** The positions of `s` whose element satisfies `p`. */
  function IndicesWhere<T>(s: seq<T>, p: T -> bool): set<int>
  {
    set i | 0 <= i < |s| && p(s[i])
  }

  /** The length of the filter is the number of positions that pass it. */
  lemma {:induction false} CountIsIndexCount<T(!new)>(s: seq<T>, p: T -> bool)
    ensures Count(s, p) == |IndicesWhere(s, p)|
    decreases |s|
  {
    if s != [] {
      var n := |s| - 1;
      var init := s[..n];
      CountIsIndexCount(init, p);
      CountSnoc(init, s[n], p);
      assert init + [s[n]] == s;
      var a, b := IndicesWhere(init, p), IndicesWhere(s, p);
      assert n !in a;
      if p(s[n]) {
        assert b == a + {n} by {
          forall i ensures i in b <==> i in a + {n} {
            if 0 <= i < n { assert init[i] == s[i]; }
          }
        }
      } else {
        assert b == a by {
          forall i ensures i in b <==> i in a {
            if 0 <= i < n { assert init[i] == s[i]; }
          }
        }
      }
    }
  }

  lemma CountSnoc<T(!new)>(s: seq<T>, x: T, p: T -> bool)
    ensures Count(s + [x], p) == Count(s, p) + (if p(x) then 1 else 0)
  {
    FilterAppend(s, [x], p);
    assert [x][1..] == [];
  }

  /** Replacing one element changes the count by what the old and the new
      element contribute. */
  lemma {:induction false} CountUpdate<T(!new)>(s: seq<T>, i: nat, x: T, p: T -> bool)
    requires i < |s|
    ensures Count(s[i := x], p) + (if p(s[i]) then 1 else 0) == Count(s, p) + (if p(x) then 1 else 0)
    decreases i
  {
    if i > 0 {
      assert s[i := x][1..] == s[1..][i - 1 := x];
      CountUpdate(s[1..], i - 1, x, p);
    }
  }

  /** A subsequence counts no more than the sequence it is taken from. */
  lemma {:induction false} CountSubseq<T(!new)>(r: seq<T>, s: seq<T>, p: T -> bool)
    requires IsSubseq(r, s)
    ensures Count(r, p) <= Count(s, p)
    decreases |s|
  {
    if s != [] {
      if r != [] && r[0] == s[0] && IsSubseq(r[1..], s[1..]) {
        CountSubseq(r[1..], s[1..], p);
      } else {
        CountSubseq(r, s[1..], p);
      }
    }
  }

  /** `Array.prototype.findIndex`: the first position satisfying `p`, or -1. */
  function FindIndex<T>(s: seq<T>, p: T -> bool): (r: int)
    ensures -1 <= r < |s|
    ensures r == -1 <==> forall i :: 0 <= i < |s| ==> !p(s[i])
    ensures 0 <= r ==> p(s[r]) && forall i :: 0 <= i < r ==> !p(s[i])
    decreases |s|
  {
    if s == [] then -1
    else if p(s[0]) then 0
    else
      var k := FindIndex(s[1..], p);
      if k == -1 then -1 else k + 1
  }

  /** `Array.prototype.find`: the first element satisfying `p`, if any. */
  function Find<T>(s: seq<T>, p: T -> bool): (r: Option<T>)
    ensures r.None? <==> forall i :: 0 <= i < |s| ==> !p(s[i])
    ensures r.Some? ==> exists i :: 0 <= i < |s| && s[i] == r.value && p(s[i]) &&
                                    forall j :: 0 <= j < i ==> !p(s[j])
  {
    var i := FindIndex(s, p);
    if i == -1 then None else Some(s[i])
  }

  /** `s.slice(0, n)`. */
  function Take<T>(s: seq<T>, n: nat): (r: seq<T>)
    ensures |r| == if n < |s| then n else |s|
    ensures forall i :: 0 <= i < |r| ==> r[i] == s[i]
  {
    if n < |s| then s[..n] else s
  }

  /** The first `n` elements of a list in key order come first: every
      element they leave out is not before any of them. */
  lemma TakeOfOrderedDominates<T>(s: seq<T>, n: nat, key: T -> int, descending: bool, x: T, y: T)
    requires Ordered(s, key, descending)
    requires x in Take(s, n) && y in s && y !in Take(s, n)
    ensures !OutOfOrder(x, y, key, descending)
  {
    var i :| 0 <= i < |Take(s, n)| && Take(s, n)[i] == x;
    var j :| 0 <= j < |s| && s[j] == y;
    assert s[i] == x && i < j;
  }

  /** `s` after `s.splice(i, 1)`. */
  function RemoveAt<T>(s: seq<T>, i: nat): (r: seq<T>)
    requires i < |s|
    ensures |r| == |s| - 1
    ensures forall j :: 0 <= j < i ==> r[j] == s[j]
    ensures forall j :: i <= j < |r| ==> r[j] == s[j + 1]
  {
    s[..i] + s[i + 1..]
  }

  /** `s.findIndex(x => x.id === id)`, where `idOf` reads the record's id. */
  function IndexOfId<T>(s: seq<T>, idOf: T -> int, id: int): (r: int)
    ensures -1 <= r < |s|
    ensures r == -1 <==> forall i :: 0 <= i < |s| ==> idOf(s[i]) != id
    ensures 0 <= r ==> idOf(s[r]) == id && forall i :: 0 <= i < r ==> idOf(s[i]) != id
    decreases |s|
  {
    if s == [] then -1
    else if idOf(s[0]) == id then 0
    else
      var k := IndexOfId(s[1..], idOf, id);
      if k == -1 then -1 else k + 1
  }

  /** Two tables whose rows carry the same ids find the same first row. */
  lemma SameIdsSameIndex<T>(s: seq<T>, t: seq<T>, idOf: T -> int, id: int)
    requires |s| == |t|
    requires forall i :: 0 <= i < |s| ==> idOf(s[i]) == idOf(t[i])
    ensures IndexOfId(s, idOf, id) == IndexOfId(t, idOf, id)
  {
    var i, j := IndexOfId(s, idOf, id), IndexOfId(t, idOf, id);
    if i != -1 && j != -1 {
      assert !(i < j) && !(j < i);
    }
  }

  /** The table after `s[s.findIndex(x => x.id === id)]` is replaced by `f`
      of itself; unchanged when no row has that id. */
  function UpdateById<T>(s: seq<T>, idOf: T -> int, id: int, f: T -> T): (r: seq<T>)
    ensures |r| == |s|
    ensures IndexOfId(s, idOf, id) == -1 ==> r == s
    ensures 0 <= IndexOfId(s, idOf, id) ==> r[IndexOfId(s, idOf, id)] == f(s[IndexOfId(s, idOf, id)])
    ensures forall j :: 0 <= j < |s| && j != IndexOfId(s, idOf, id) ==> r[j] == s[j]
  {
    var i := IndexOfId(s, idOf, id);
    if i == -1 then s else s[i := f(s[i])]
  }

  /** An update that keeps ids and undoes itself, applied twice, changes nothing. */
  lemma UpdateByIdTwice<T>(s: seq<T>, idOf: T -> int, id: int, f: T -> T)
    requires forall x :: idOf(f(x)) == idOf(x)
    requires forall x :: f(f(x)) == x
    ensures UpdateById(UpdateById(s, idOf, id, f), idOf, id, f) == s
  {
    var r := UpdateById(s, idOf, id, f);
    SameIdsSameIndex(s, r, idOf, id);
  }

  /** An update that keeps ids and is idempotent can be repeated harmlessly. */
  lemma UpdateByIdRepeat<T>(s: seq<T>, idOf: T -> int, id: int, f: T -> T)
    requires forall x :: idOf(f(x)) == idOf(x)
    requires forall x :: f(f(x)) == f(x)
    ensures UpdateById(UpdateById(s, idOf, id, f), idOf, id, f) == UpdateById(s, idOf, id, f)
  {
    var r := UpdateById(s, idOf, id, f);
    SameIdsSameIndex(s, r, idOf, id);
  }

  /** The table after `s.splice(s.findIndex(x => x.id === id), 1)` when some
      row has that id: only that first row is gone. */
  function RemoveFirstId<T>(s: seq<T>, idOf: T -> int, id: int): (r: seq<T>)
    ensures IndexOfId(s, idOf, id) == -1 ==> r == s
    ensures 0 <= IndexOfId(s, idOf, id) ==> r == RemoveAt(s, IndexOfId(s, idOf, id))
  {
    var i := IndexOfId(s, idOf, id);
    if i == -1 then s else RemoveAt(s, i)
  }

  /** `s.filter(x => x.id !== id)`. */
  function WithoutId<T(==,!new)>(s: seq<T>, idOf: T -> int, id: int): (r: seq<T>)
    ensures IsSubseq(r, s)
    ensures forall x :: x in r ==> idOf(x) != id
    ensures forall x {:trigger multiset(r)[x]} :: idOf(x) != id ==> multiset(r)[x] == multiset(s)[x]
  {
    Filter(s, x => idOf(x) != id)
  }

  /** `x` must come after `y`: its key is strictly greater (strictly
      smaller when descending). */
  predicate OutOfOrder<T>(x: T, y: T, key: T -> int, descending: bool)
  {
    if descending then key(x) < key(y) else key(x) > key(y)
  }

  /** The keys of `s` are in order: non-decreasing, or non-increasing when
      `descending` holds; no pair of `s` is out of order. */
  predicate Ordered<T>(s: seq<T>, key: T -> int, descending: bool)
  {
    forall i, j :: 0 <= i < j < |s| ==> !OutOfOrder(s[i], s[j], key, descending)
  }

  /** `a.sort((x, y) => key(x) - key(y))` (or `key(y) - key(x)` when
      descending), done in place by insertion: adjacent elements are swapped
      only when strictly out of order, so equal keys keep their order. */
  method SortByKey<T>(a: array<T>, key: T -> int, descending: bool)
    modifies a
    ensures Ordered(a[..], key, descending)
    ensures multiset(a[..]) == multiset(old(a[..]))
  {
    var i := 0;
    while i < a.Length
      invariant 0 <= i <= a.Length
      invariant Ordered(a[..i], key, descending)
      invariant multiset(a[..]) == multiset(old(a[..]))
    {
      InsertInto(a, i, key, descending);
      i := i + 1;
    }
    assert a[..i] == a[..];
  }

  /** One insertion step: `a[i]` is swapped down the ordered prefix
      `a[..i]` until it is no longer out of order with its predecessor. */
  method InsertInto<T>(a: array<T>, i: nat, key: T -> int, descending: bool)
    requires i < a.Length
    requires Ordered(a[..i], key, descending)
    modifies a
    ensures Ordered(a[..i + 1], key, descending)
    ensures multiset(a[..]) == multiset(old(a[..]))
  {
    var j := i;
    while 0 < j && OutOfOrder(a[j - 1], a[j], key, descending)
      invariant 0 <= j <= i
      invariant forall p, q :: 0 <= p < q <= i && p != j && q != j ==>
        !OutOfOrder(a[p], a[q], key, descending)
      invariant forall q :: j < q <= i ==> !OutOfOrder(a[j], a[q], key, descending)
      invariant multiset(a[..]) == multiset(old(a[..]))
    {
      Swap(a, j - 1, j);
      j := j - 1;
    }
  }

  /** Exchanges two cells of `a`; the contents stay the same multiset. */
  method Swap<T>(a: array<T>, i: nat, j: nat)
    requires i < a.Length && j < a.Length
    modifies a
    ensures a[i] == old(a[j]) && a[j] == old(a[i])
    ensures forall k :: 0 <= k < a.Length && k != i && k != j ==> a[k] == old(a[k])
    ensures multiset(a[..]) == multiset(old(a[..]))
  {
    a[i], a[j] := a[j], a[i];
  }

  /** A sorted copy of `s`: `s` is copied into a fresh array, which is sorted
      in place and read back. */
  method SortedByKey<T>(s: seq<T>, key: T -> int, descending: bool) returns (r: seq<T>)
    ensures Ordered(r, key, descending)
    ensures multiset(r) == multiset(s)
  {
    var a := new T[|s|](i requires 0 <= i < |s| => s[i]);
    assert a[..] == s;
    SortByKey(a, key, descending);
    r := a[..];
  }
}
