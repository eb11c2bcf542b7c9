/** The query operators the controller's LINQ expressions use, over
    sequences: OrderByDescending (a stable sort, largest key first), Skip and
    Take, and the enumeration of a table's keys in ascending order. */
module Queries {

  predicate SortedDesc<T>(s: seq<T>, key: T -> int)
  {
    forall i, j :: 0 <= i < j < |s| ==> key(s[i]) >= key(s[j])
  }

  /** Puts `x` after the leading elements of `s` whose key is at least
      `key(x)`, so that on a sorted `s` the earlier of two equal keys stays
      first. */
  function InsertDesc<T(==)>(x: T, s: seq<T>, key: T -> int): (r: seq<T>)
    ensures |r| == |s| + 1
    ensures multiset(r) == multiset(s) + multiset{x}
  {
    if s == [] || key(x) > key(s[0]) then
      [x] + s
    else
      assert s == [s[0]] + s[1..];
      [s[0]] + InsertDesc(x, s[1..], key)
  }

  /** Inserting into a sorted sequence keeps it sorted; the new first
      element is `x` or the old first one. */
  lemma {:induction false} InsertDescSorted<T>(x: T, s: seq<T>, key: T -> int)
    requires SortedDesc(s, key)
    ensures SortedDesc(InsertDesc(x, s, key), key)
    ensures InsertDesc(x, s, key)[0] == x || (s != [] && InsertDesc(x, s, key)[0] == s[0])
  {
    if s != [] && key(x) <= key(s[0]) {
      var tail := s[1..];
      assert forall i :: 0 <= i < |tail| ==> tail[i] == s[i + 1];
      InsertDescSorted(x, tail, key);
      var rest := InsertDesc(x, tail, key);
      var r := InsertDesc(x, s, key);
      assert r == [s[0]] + rest;
      assert key(s[0]) >= key(rest[0]);
      forall i, j | 0 <= i < j < |r|
        ensures key(r[i]) >= key(r[j])
      {
        assert r[j] == rest[j - 1];
        if i > 0 {
          assert r[i] == rest[i - 1];
        } else if j > 1 {
          assert key(rest[0]) >= key(rest[j - 1]);
        }
      }
    }
  }

  /** `OrderByDescending(key)`: a permutation of `s`, largest key first. */
  function SortDesc<T(==)>(s: seq<T>, key: T -> int): (r: seq<T>)
    ensures |r| == |s|
    ensures multiset(r) == multiset(s)
    ensures SortedDesc(r, key)
  {
    if s == [] then
      []
    else
      assert s == s[..|s| - 1] + [s[|s| - 1]];
      var sorted := SortDesc(s[..|s| - 1], key);
      InsertDescSorted(s[|s| - 1], sorted, key);
      InsertDesc(s[|s| - 1], sorted, key)
  }

  /** An element that occurs at two positions counts at least twice. */
  lemma TwiceCounted<T>(s: seq<T>, i: int, j: int)
    requires 0 <= i < j < |s| && s[i] == s[j]
    ensures multiset(s)[s[i]] >= 2
  {
    assert s == s[..j] + [s[j]] + s[j + 1..];
    assert s[i] in multiset(s[..j]) by {
      assert s[..j][i] == s[i];
    }
  }

  /** In a sequence without repetitions every value counts at most once. */
  lemma {:induction false} OnceCounted<T>(s: seq<T>, x: T)
    requires forall i, j :: 0 <= i < j < |s| ==> s[i] != s[j]
    ensures multiset(s)[x] <= 1
  {
    if s != [] {
      var init := s[..|s| - 1];
      assert s == init + [s[|s| - 1]];
      OnceCounted(init, x);
      if s[|s| - 1] == x {
        assert forall k :: 0 <= k < |init| ==> init[k] == s[k] != s[|s| - 1];
      }
    }
  }

  /** LINQ `Skip(n)`: a non-positive count skips nothing. */
  function Skip<T>(s: seq<T>, n: int): (r: seq<T>)
    ensures |r| == if n <= 0 then |s| else if n >= |s| then 0 else |s| - n
    ensures forall i :: 0 <= i < |r| ==> r[i] == s[|s| - |r| + i]
  {
    if n <= 0 then s else if n >= |s| then [] else s[n..]
  }

  /** LINQ `Take(n)`: a non-positive count takes nothing. */
  function Take<T>(s: seq<T>, n: int): (r: seq<T>)
    ensures |r| == if n <= 0 then 0 else if n >= |s| then |s| else n
    ensures forall i :: 0 <= i < |r| ==> r[i] == s[i]
  {
    if n <= 0 then [] else if n >= |s| then s else s[..n]
  }

  /** The range of a C# `int`. */
  predicate IsInt32(x: int)
  {
    -0x8000_0000 <= x < 0x8000_0000
  }

  /** Unchecked C# `int` arithmetic: the exact result reduced modulo 2^32
      into the `int` range. */
  function Wrap32(x: int): (r: int)
    ensures IsInt32(r)
    ensures IsInt32(x) ==> r == x
    ensures (x - r) % 0x1_0000_0000 == 0
  {
    var m := x % 0x1_0000_0000;
    if m < 0x8000_0000 then m else m - 0x1_0000_0000
  }

  /** The count `(page - 1) * pageSize` as C# computes it on `int`: both the
      subtraction and the product wrap around. */
  function SkipCount(page: int, pageSize: int): (n: int)
    requires IsInt32(page) && IsInt32(pageSize)
    ensures IsInt32(n)
    ensures IsInt32((page - 1) * pageSize) ==> n == (page - 1) * pageSize
  {
    if page == -0x8000_0000 then
      assert Wrap32(page - 1) == 0x7FFF_FFFF;
      Wrap32(0x7FFF_FFFF * pageSize)
    else
      Wrap32((page - 1) * pageSize)
  }

  /** An ordinary request, page 1 or later whose skip count fits in an
      `int`, skips a non-negative number of elements. */
  lemma SkipCountOfPage(page: int, pageSize: int)
    requires IsInt32(page) && IsInt32(pageSize)
    ensures page >= 1 && pageSize >= 0 && (page - 1) * pageSize < 0x8000_0000 ==>
              SkipCount(page, pageSize) == (page - 1) * pageSize >= 0
  {
    if page >= 1 && pageSize >= 0 && (page - 1) * pageSize < 0x8000_0000 {
      var n := (page - 1) * pageSize;
      assert IsInt32(n);
    }
  }

  /** A page far enough out wraps back to the start: page 65537 of 65536
      skips nothing, though (65537 - 1) * 65536 is 2^32. */
  lemma SkipCountWraps()
    ensures (65537 - 1) * 65536 == 0x1_0000_0000
    ensures SkipCount(65537, 65536) == 0
  {
  }

  /** The number of elements `Skip(SkipCount(page, pageSize))` passes over;
      a negative count skips nothing. */
  function Offset(page: int, pageSize: int): (n: nat)
    requires IsInt32(page) && IsInt32(pageSize)
    ensures n < 0x8000_0000
    ensures n == 0 || n == SkipCount(page, pageSize)
    ensures SkipCount(page, pageSize) >= 0 ==> n == SkipCount(page, pageSize)
    ensures page >= 1 && pageSize >= 0 && (page - 1) * pageSize < 0x8000_0000 ==> n == (page - 1) * pageSize
  {
    var n := SkipCount(page, pageSize);
    if n <= 0 then 0 else n
  }

  /** How many of `count` elements land on page `page` of `pageSize`:
      never more than `pageSize`, a full page while enough elements remain,
      and none past the end. */
  function PageLength(count: nat, page: int, pageSize: int): (n: nat)
    requires IsInt32(page) && IsInt32(pageSize)
    ensures pageSize >= 0 ==> n <= pageSize
    ensures n == 0 || Offset(page, pageSize) + n <= count
    ensures pageSize >= 0 && Offset(page, pageSize) + pageSize <= count ==> n == pageSize
    ensures Offset(page, pageSize) < count && pageSize > 0 ==> n > 0
  {
    if pageSize <= 0 || Offset(page, pageSize) >= count then 0
    else if Offset(page, pageSize) + pageSize <= count then pageSize
    else count - Offset(page, pageSize)
  }

  /** `Skip((page - 1) * pageSize).Take(pageSize)`: the elements from
      position `Offset(page, pageSize)` on, as many as fit on a page of
      `pageSize`. */
  function Page<T>(s: seq<T>, page: int, pageSize: int): (r: seq<T>)
    requires IsInt32(page) && IsInt32(pageSize)
    ensures |r| == PageLength(|s|, page, pageSize)
    ensures forall i :: 0 <= i < |r| ==> Offset(page, pageSize) + i < |s| && r[i] == s[Offset(page, pageSize) + i]
  {
    Take(Skip(s, Offset(page, pageSize)), pageSize)
  }

  /** A page of a sorted sequence is sorted. */
  lemma PageOfSorted<T>(s: seq<T>, key: T -> int, page: int, pageSize: int)
    requires IsInt32(page) && IsInt32(pageSize) && SortedDesc(s, key)
    ensures SortedDesc(Page(s, page, pageSize), key)
  {
  }

  /** The first elements of a sorted sequence are sorted. */
  lemma TakeOfSortedIsSorted<T>(s: seq<T>, key: T -> int, n: int)
    requires SortedDesc(s, key)
    ensures SortedDesc(Take(s, n), key)
  {
  }

  /** An element of a sorted sequence that its first `n` elements leave
      out ranks no higher than the last of them, and they are all there. */
  lemma TakeOfSorted<T>(s: seq<T>, key: T -> int, n: nat, x: T)
    requires SortedDesc(s, key) && x in s && n >= 1
    ensures x in Take(s, n) || (|Take(s, n)| == n && key(x) <= key(Take(s, n)[n - 1]))
  {
    var j :| 0 <= j < |s| && s[j] == x;
    if j < |Take(s, n)| {
      assert Take(s, n)[j] == x;
    } else {
      assert key(s[n - 1]) >= key(s[j]);
    }
  }

  /** A non-empty table has a key. */
  lemma HasKey(ids: set<int>)
    requires ids != {}
    ensures exists k :: k in ids
  {
    if forall k :: k !in ids {
      assert false;
    }
  }

  lemma {:induction false} MinExists(ids: set<int>)
    requires ids != {}
    ensures exists m :: m in ids && forall k :: k in ids ==> m <= k
  {
    HasKey(ids);
    var x :| x in ids;
    var rest := ids - {x};
    if rest == {} {
      assert ids == {x};
    } else {
      MinExists(rest);
      var m :| m in rest && forall k :: k in rest ==> m <= k;
      var least := if x < m then x else m;
      forall k | k in ids
        ensures least <= k
      {
        if k != x {
          assert k in rest;
        }
      }
      assert least in ids;
    }
  }

  /** The smallest key of a non-empty table. */
  function Smallest(ids: set<int>): (m: int)
    requires ids != {}
    ensures m in ids && forall k :: k in ids ==> m <= k
  {
    MinExists(ids);
    var m :| m in ids && forall k :: k in ids ==> m <= k;
    m
  }

  /** The keys of a table in ascending order, each exactly once. */
  function AscendingKeys(ids: set<int>): (r: seq<int>)
    ensures |r| == |ids|
    ensures forall k :: k in r <==> k in ids
    ensures forall i, j :: 0 <= i < j < |r| ==> r[i] < r[j]
    decreases ids
  {
    if ids == {} then
      []
    else
      var m := Smallest(ids);
      var rest := AscendingKeys(ids - {m});
      assert forall k :: k in ids <==> k == m || k in ids - {m};
      [m] + rest
  }

  lemma {:induction false} MaxExists(ids: set<int>)
    requires ids != {}
    ensures exists m :: m in ids && forall k :: k in ids ==> k <= m
  {
    HasKey(ids);
    var x :| x in ids;
    var rest := ids - {x};
    if rest == {} {
      assert ids == {x};
    } else {
      MaxExists(rest);
      var m :| m in rest && forall k :: k in rest ==> k <= m;
      var most := if x > m then x else m;
      forall k | k in ids
        ensures k <= most
      {
        if k != x {
          assert k in rest;
        }
      }
      assert most in ids;
    }
  }

  /** The largest key, or 0 for an empty table (`last?.Id ?? 0`). */
  function LargestKey(ids: set<int>): (m: int)
    ensures ids != {} ==> m in ids
    ensures forall k :: k in ids ==> k <= m
    ensures ids == {} ==> m == 0
  {
    if ids == {} then 0
    else
      MaxExists(ids);
      var m :| m in ids && forall k :: k in ids ==> k <= m;
      m
  }
}
