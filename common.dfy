/**
 * Value types and sequence operations shared by every module of the model:
 * the nullable wrapper, LINQ-style filtering and counting, a stable ordering
 * by a descending key (what `OrderByDescending(..).ThenBy..(..)` produces),
 * `Skip`/`Take` paging, integer ceiling division and JavaScript's
 * `Array.prototype.slice`.
 *
 * Identifiers (GUIDs) are `int`, with `EmptyId` standing for `Guid.Empty`;
 * instants (`DateTime`) are `int` ticks.
 */
module Common {

  datatype Option<T> = None | Some(value: T)

  datatype Result<T, E> = Ok(value: T) | Err(error: E)

  type Id = int
  const EmptyId: Id := 0

  /** `value ?? fallback` */
  function OrElse<T>(o: Option<T>, fallback: T): T
  {
    if o.Some? then o.value else fallback
  }

  /** `if (patch != null) target = patch`: the null-means-keep update of a nullable field. */
  function Patch<T>(current: Option<T>, patch: Option<T>): Option<T>
  {
    if patch.Some? then patch else current
  }

  // ---------------------------------------------------------------------
  // Where / Count

  /** LINQ `Where`: the elements satisfying `p`, in their original order. */
  function Filter<T(!new)>(s: seq<T>, p: T -> bool): (r: seq<T>)
    ensures |r| <= |s|
    ensures forall x :: x in r <==> x in s && p(x)
    ensures forall i :: 0 <= i < |r| ==> p(r[i])
  {
    if s == [] then []
    else (if p(s[0]) then [s[0]] else []) + Filter(s[1..], p)
  }

  /** LINQ `Count(p)`. */
  function CountIf<T>(s: seq<T>, p: T -> bool): nat
  {
    if s == [] then 0 else (if p(s[0]) then 1 else 0) + CountIf(s[1..], p)
  }

  lemma {:induction false} CountIfIsFilterLength<T(!new)>(s: seq<T>, p: T -> bool)
    ensures CountIf(s, p) == |Filter(s, p)|
    ensures CountIf(s, p) <= |s|
  {
    if s != [] {
      CountIfIsFilterLength(s[1..], p);
    }
  }

  lemma {:induction false} CountIfZero<T>(s: seq<T>, p: T -> bool)
    ensures CountIf(s, p) == 0 <==> forall i :: 0 <= i < |s| ==> !p(s[i])
  {
    if s != [] {
      CountIfZero(s[1..], p);
      assert forall i :: 1 <= i < |s| ==> s[i] == s[1..][i - 1];
    }
  }

  /** Counting is monotone in the predicate. */
  lemma {:induction false} CountIfMono<T>(s: seq<T>, p: T -> bool, q: T -> bool)
    requires forall i :: 0 <= i < |s| ==> p(s[i]) ==> q(s[i])
    ensures CountIf(s, p) <= CountIf(s, q)
  {
    if s != [] {
      CountIfMono(s[1..], p, q);
    }
  }

  /** Counting over an appended element. */
  lemma {:induction false} CountIfAppend<T>(s: seq<T>, x: T, p: T -> bool)
    ensures CountIf(s + [x], p) == CountIf(s, p) + (if p(x) then 1 else 0)
  {
    if s != [] {
      assert (s + [x])[1..] == s[1..] + [x];
      CountIfAppend(s[1..], x, p);
    }
  }

  /** Counting after replacing one element. */
  lemma {:induction false} CountIfUpdate<T>(s: seq<T>, i: int, x: T, p: T -> bool)
    requires 0 <= i < |s|
    ensures CountIf(s[i := x], p) ==
      CountIf(s, p) - (if p(s[i]) then 1 else 0) + (if p(x) then 1 else 0)
  {
    if i > 0 {
      assert s[i := x][1..] == s[1..][i - 1 := x];
      CountIfUpdate(s[1..], i - 1, x, p);
    } else {
      assert s[i := x][1..] == s[1..];
    }
  }

  /** Two predicates that agree on every element count the same. */
  lemma CountIfSame<T>(s: seq<T>, p: T -> bool, q: T -> bool)
    requires forall i :: 0 <= i < |s| ==> p(s[i]) == q(s[i])
    ensures CountIf(s, p) == CountIf(s, q)
  {
    CountIfMono(s, p, q);
    CountIfMono(s, q, p);
  }

  /** Two predicates that agree on every element filter alike. */
  lemma {:induction false} FilterSame<T(!new)>(s: seq<T>, p: T -> bool, q: T -> bool)
    requires forall i :: 0 <= i < |s| ==> p(s[i]) == q(s[i])
    ensures Filter(s, p) == Filter(s, q)
  {
    if s != [] {
      FilterSame(s[1..], p, q);
    }
  }

  /** A predicate every element satisfies filters nothing out. */
  lemma {:induction false} FilterAll<T(!new)>(s: seq<T>, p: T -> bool)
    requires forall i :: 0 <= i < |s| ==> p(s[i])
    ensures Filter(s, p) == s
  {
    if s != [] {
      FilterAll(s[1..], p);
    }
  }

  lemma {:induction false} FilterAppend<T(!new)>(s: seq<T>, x: T, p: T -> bool)
    ensures Filter(s + [x], p) == Filter(s, p) + (if p(x) then [x] else [])
  {
    if s != [] {
      assert (s + [x])[1..] == s[1..] + [x];
      FilterAppend(s[1..], x, p);
    }
  }

  /** LINQ `Select`. */
  function Map<T, U>(s: seq<T>, f: T -> U): (r: seq<U>)
    ensures |r| == |s|
    ensures forall i :: 0 <= i < |s| ==> r[i] == f(s[i])
  {
    if s == [] then [] else [f(s[0])] + Map(s[1..], f)
  }

  lemma {:induction false} MapAppend<T, U>(s: seq<T>, x: T, f: T -> U)
    ensures Map(s + [x], f) == Map(s, f) + [f(x)]
  {
    if s != [] {
      assert (s + [x])[1..] == s[1..] + [x];
      MapAppend(s[1..], x, f);
    }
  }

  /** `FirstOrDefault(p)`. */
  function First<T>(s: seq<T>, p: T -> bool): (r: Option<T>)
    ensures r.None? <==> forall i :: 0 <= i < |s| ==> !p(s[i])
    ensures r.Some? ==> r.value in s && p(r.value)
  {
    if s == [] then None else if p(s[0]) then Some(s[0]) else First(s[1..], p)
  }

  /** `findIndex`: the first index satisfying `p`, or -1. */
  function FindIndex<T>(s: seq<T>, p: T -> bool): (r: int)
    ensures -1 <= r < |s|
    ensures r == -1 <==> forall i :: 0 <= i < |s| ==> !p(s[i])
    ensures r >= 0 ==> p(s[r]) && forall i :: 0 <= i < r ==> !p(s[i])
  {
    if s == [] then -1
    else if p(s[0]) then 0
    else var k := FindIndex(s[1..], p); if k == -1 then -1 else k + 1
  }

  /** Appending an element that satisfies `p` finds the old first match, or the new element when there was none. */
  lemma FindIndexAppend<T>(s: seq<T>, x: T, p: T -> bool)
    requires p(x)
    ensures FindIndex(s + [x], p) == if FindIndex(s, p) < 0 then |s| else FindIndex(s, p)
  {
    assert (s + [x])[|s|] == x;
    assert forall i :: 0 <= i < |s| ==> (s + [x])[i] == s[i];
  }

  // ---------------------------------------------------------------------
  // OrderByDescending

  /** A two-part sort key, compared lexicographically. */
  datatype Key = Key(major: int, minor: int)

  predicate KeyGe(a: Key, b: Key)
  {
    a.major > b.major || (a.major == b.major && a.minor >= b.minor)
  }

  predicate SortedDesc<T>(s: seq<T>, key: T -> Key)
  {
    forall i, j :: 0 <= i < j < |s| ==> KeyGe(key(s[i]), key(s[j]))
  }

  /** Inserts `x` before the first element whose key it reaches. */
  function InsertDesc<T>(x: T, s: seq<T>, key: T -> Key): (r: seq<T>)
    ensures |r| == |s| + 1
    ensures multiset(r) == multiset(s) + multiset{x}
  {
    if s == [] then [x]
    else if KeyGe(key(x), key(s[0])) then [x] + s
    else
      assert s == [s[0]] + s[1..];
      [s[0]] + InsertDesc(x, s[1..], key)
  }

  /** A head whose key reaches every key of a sorted tail keeps the sequence sorted. */
  lemma ConsSorted<T>(h: T, t: seq<T>, key: T -> Key)
    requires SortedDesc(t, key)
    requires forall k :: 0 <= k < |t| ==> KeyGe(key(h), key(t[k]))
    ensures SortedDesc([h] + t, key)
  {
    var r := [h] + t;
    forall i, j | 0 <= i < j < |r|
      ensures KeyGe(key(r[i]), key(r[j]))
    {
      assert r[j] == t[j - 1];
      if i > 0 {
        assert r[i] == t[i - 1];
      }
    }
  }

  /** Inserting below the head of a sorted sequence leaves every element under the head. */
  lemma InsertBelowHead<T>(x: T, s: seq<T>, key: T -> Key)
    requires s != [] && SortedDesc(s, key) && !KeyGe(key(x), key(s[0]))
    ensures forall k :: 0 <= k < |InsertDesc(x, s[1..], key)| ==> KeyGe(key(s[0]), key(InsertDesc(x, s[1..], key)[k]))
  {
    var t := InsertDesc(x, s[1..], key);
    forall k | 0 <= k < |t|
      ensures KeyGe(key(s[0]), key(t[k]))
    {
      assert t[k] in multiset(t);
      if t[k] != x {
        assert t[k] in multiset(s[1..]);
        var j :| 0 <= j < |s[1..]| && s[1..][j] == t[k];
        assert s[j + 1] == t[k];
      }
    }
  }

  lemma {:induction false} InsertDescSorted<T>(x: T, s: seq<T>, key: T -> Key)
    requires SortedDesc(s, key)
    ensures SortedDesc(InsertDesc(x, s, key), key)
  {
    if s != [] && !KeyGe(key(x), key(s[0])) {
      var tail := s[1..];
      assert SortedDesc(tail, key) by {
        assert forall k :: 0 <= k < |tail| ==> tail[k] == s[k + 1];
      }
      InsertDescSorted(x, tail, key);
      InsertBelowHead(x, s, key);
      ConsSorted(s[0], InsertDesc(x, tail, key), key);
    } else if s != [] {
      assert forall k :: 0 <= k < |s| ==> KeyGe(key(s[0]), key(s[k])) || k == 0;
      ConsSorted(x, s, key);
    }
  }

  /**
   * A stable sort by descending key: LINQ's `OrderByDescending` (whose
   * `ThenBy` tie-breaks are folded into `minor`).
   */
  function SortDesc<T>(s: seq<T>, key: T -> Key): (r: seq<T>)
    ensures |r| == |s|
    ensures multiset(r) == multiset(s)
  {
    if s == [] then []
    else
      assert s == [s[0]] + s[1..];
      InsertDesc(s[0], SortDesc(s[1..], key), key)
  }

  /** The sort's output is in descending key order. */
  lemma {:induction false} SortDescSorted<T>(s: seq<T>, key: T -> Key)
    ensures SortedDesc(SortDesc(s, key), key)
  {
    if s != [] {
      SortDescSorted(s[1..], key);
      InsertDescSorted(s[0], SortDesc(s[1..], key), key);
    }
  }

  /** Sorting keeps exactly the elements: membership is preserved both ways. */
  lemma SortDescMembers<T>(s: seq<T>, key: T -> Key, x: T)
    ensures x in SortDesc(s, key) <==> x in s
  {
    assert x in multiset(SortDesc(s, key)) <==> x in multiset(s);
  }

  /** The first `n` of a sorted filter are elements of the input that pass the filter. */
  lemma TopOfFilter<T(!new)>(s: seq<T>, p: T -> bool, key: T -> Key, n: int)
    ensures var r := Take(SortDesc(Filter(s, p), key), n);
      |r| <= |s| && forall k :: 0 <= k < |r| ==> r[k] in s && p(r[k])
  {
    var own := Filter(s, p);
    var sorted := SortDesc(own, key);
    var r := Take(sorted, n);
    forall k | 0 <= k < |r|
      ensures r[k] in s && p(r[k])
    {
      assert r[k] == sorted[k];
      SortDescMembers(own, key, r[k]);
    }
  }

  /**
   * The first `n` of a sort: in order, drawn from the input, and missing no
   * element whose key is above the last one taken.
   */
  lemma TopOfSort<T>(s: seq<T>, key: T -> Key, n: int)
    requires n >= 1
    ensures var r := Take(SortDesc(s, key), n);
      SortedDesc(r, key) && (forall k :: 0 <= k < |r| ==> r[k] in s) &&
      (forall x :: x in s && (|r| < n || !KeyGe(key(r[|r| - 1]), key(x))) ==> x in r)
  {
    var sorted := SortDesc(s, key);
    var r := Take(sorted, n);
    SortDescSorted(s, key);
    assert forall k :: 0 <= k < |r| ==> r[k] == sorted[k];
    forall k | 0 <= k < |r|
      ensures r[k] in s
    {
      SortDescMembers(s, key, r[k]);
    }
    forall x | x in s && (|r| < n || !KeyGe(key(r[|r| - 1]), key(x)))
      ensures x in r
    {
      SortDescMembers(s, key, x);
      var j :| 0 <= j < |sorted| && sorted[j] == x;
      assert j < |r|;
      assert r[j] == x;
    }
  }

  /** The head of a sort is an input element whose key reaches every input key. */
  lemma HeadOfSort<T>(s: seq<T>, key: T -> Key)
    requires s != []
    ensures SortDesc(s, key)[0] in s
    ensures forall x :: x in s ==> KeyGe(key(SortDesc(s, key)[0]), key(x))
  {
    var sorted := SortDesc(s, key);
    SortDescSorted(s, key);
    SortDescMembers(s, key, sorted[0]);
    forall x | x in s
      ensures KeyGe(key(sorted[0]), key(x))
    {
      SortDescMembers(s, key, x);
      var j :| 0 <= j < |sorted| && sorted[j] == x;
      if j > 0 {
        assert KeyGe(key(sorted[0]), key(sorted[j]));
      }
    }
  }

  /** An element of a mapped sequence is the image of an element of the original. */
  lemma InMap<T, U>(s: seq<T>, f: T -> U, y: U)
    requires y in Map(s, f)
    ensures exists x :: x in s && y == f(x)
  {
    var i :| 0 <= i < |s| && Map(s, f)[i] == y;
    assert s[i] in s;
  }

  lemma AppendAssoc<T>(a: seq<T>, b: seq<T>, c: seq<T>)
    ensures (a + b) + c == a + (b + c)
  {
  }

  /** `Remove` of the row at index `i`: the others keep their order. */
  function RemoveAt<T>(s: seq<T>, i: int): (r: seq<T>)
    requires 0 <= i < |s|
    ensures |r| == |s| - 1
  {
    s[..i] + s[i + 1..]
  }

  /** The rows before `i` keep their index; the rows after it move down by one. */
  lemma RemoveAtIndex<T>(s: seq<T>, i: int, k: int)
    requires 0 <= i < |s| && 0 <= k < |s| - 1
    ensures RemoveAt(s, i)[k] == if k < i then s[k] else s[k + 1]
  {
  }

  // ---------------------------------------------------------------------
  // Skip / Take

  /** LINQ `Skip(n)`: a non-positive count skips nothing. */
  function Skip<T>(s: seq<T>, n: int): seq<T>
  {
    if n <= 0 then s else if n >= |s| then [] else s[n..]
  }

  /** LINQ `Take(n)`: a non-positive count takes nothing. */
  function Take<T>(s: seq<T>, n: int): (r: seq<T>)
    ensures |r| <= |s| && (n >= 0 ==> |r| <= n)
    ensures r == s[..|r|]
    ensures |r| == if n <= 0 then 0 else if n < |s| then n else |s|
  {
    if n <= 0 then [] else if n >= |s| then s else s[..n]
  }

  /** The number of elements before page `page`: `(page - 1) * size`. */
  function Offset(page: int, size: int): int
  {
    (page - 1) * size
  }

  /** `Skip((page - 1) * size).Take(size)`. */
  function PageOf<T>(s: seq<T>, page: int, size: int): seq<T>
  {
    Take(Skip(s, Offset(page, size)), size)
  }

  /** A page holds elements of the sequence it is cut from, and no more of them. */
  lemma PageOfWithin<T>(s: seq<T>, page: int, size: int)
    ensures |PageOf(s, page, size)| <= |s|
    ensures forall k :: 0 <= k < |PageOf(s, page, size)| ==> PageOf(s, page, size)[k] in s
  {
    var skipped := Skip(s, Offset(page, size));
    assert forall k :: 0 <= k < |skipped| ==> skipped[k] in s;
  }

  function Max(a: int, b: int): int { if a >= b then a else b }
  function Min(a: int, b: int): int { if a <= b then a else b }

  /** For page >= 1: the page is `s[(page-1)*size ..]` cut to `size` elements. */
  lemma PageOfAt<T>(s: seq<T>, page: int, size: int)
    requires page >= 1 && size >= 1
    ensures Offset(page, size) >= 0
    ensures |PageOf(s, page, size)| == Min(size, Max(0, |s| - Offset(page, size)))
    ensures forall i :: 0 <= i < |PageOf(s, page, size)| ==>
      0 <= Offset(page, size) + i < |s| && PageOf(s, page, size)[i] == s[Offset(page, size) + i]
  {
    var off := Offset(page, size);
    assert off >= 0 by { assert page - 1 >= 0; }
  }

  /** `ceil(a / b)` for a positive divisor. */
  function CeilDiv(a: int, b: int): (r: int)
    requires b > 0
    ensures (r - 1) * b < a <= r * b
  {
    if a <= 0 then -((-a) / b) else (a - 1) / b + 1
  }

  // ---------------------------------------------------------------------
  // JavaScript `slice`

  /** An index argument of `slice`: negative counts from the end, clamped to [0, n]. */
  function JsIndex(k: int, n: nat): (r: nat)
    ensures r <= n
  {
    if k < 0 then (if n + k < 0 then 0 else n + k) else if k > n then n else k
  }

  function JsSlice<T>(s: seq<T>, start: int, end: int): (r: seq<T>)
    ensures |r| <= |s|
  {
    var b, e := JsIndex(start, |s|), JsIndex(end, |s|);
    if e <= b then [] else s[b..e]
  }
}
