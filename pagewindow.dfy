/**
 * The numbered page window the admin job and user lists show: every page
 * when there are few, else the first, the last and the neighbours of the
 * current page, with "..." wherever shown pages are not consecutive; and
 * the Previous/Next clamps and the "showing a to b of n" text.
 */
module PageWindow {
  import opened Common
  import Pagination

  /** Whether page `p` is kept: all pages up to `threshold`, else the ends and the current page's neighbours. */
  predicate Shown(p: int, currentPage: int, totalPages: int, threshold: int)
  {
    totalPages <= threshold || p == 1 || p == totalPages || -1 <= p - currentPage <= 1
  }

  predicate Increasing(w: seq<int>)
  {
    forall i, j :: 0 <= i < j < |w| ==> w[i] < w[j]
  }

  /** The kept pages among `lo..hi`, in order. */
  function Pages(lo: int, hi: int, currentPage: int, totalPages: int, threshold: int): (w: seq<int>)
    ensures forall p :: p in w <==> lo <= p <= hi && Shown(p, currentPage, totalPages, threshold)
    ensures Increasing(w)
    ensures forall i :: 0 <= i < |w| ==> lo <= w[i] <= hi
    decreases hi - lo
  {
    if lo > hi then []
    else (if Shown(lo, currentPage, totalPages, threshold) then [lo] else []) + Pages(lo + 1, hi, currentPage, totalPages, threshold)
  }

  /** `Array.from({length: totalPages}, (_, i) => i + 1).filter(...)`. */
  function Window(totalPages: int, currentPage: int, threshold: int): seq<int>
  {
    Pages(1, totalPages, currentPage, totalPages, threshold)
  }

  /** Up to the threshold, every page is shown: the window from `lo` counts up from `lo` to the last page. */
  lemma {:induction false} SmallWindowShowsAll(totalPages: int, currentPage: int, threshold: int, lo: int)
    requires totalPages <= threshold && 1 <= lo
    ensures var w := Pages(lo, totalPages, currentPage, totalPages, threshold);
      |w| == Max(0, totalPages - lo + 1) && forall i :: 0 <= i < |w| ==> w[i] == lo + i
    decreases totalPages - lo
  {
    if lo <= totalPages {
      SmallWindowShowsAll(totalPages, currentPage, threshold, lo + 1);
      var rest := Pages(lo + 1, totalPages, currentPage, totalPages, threshold);
      var w := Pages(lo, totalPages, currentPage, totalPages, threshold);
      assert w == [lo] + rest;
      forall i | 1 <= i < |w|
        ensures w[i] == lo + i
      {
        assert w[i] == rest[i - 1];
      }
    }
  }

  /** Past the threshold, exactly the first page, the last page and the pages next to the current one are shown. */
  lemma LargeWindowMembers(totalPages: int, currentPage: int, threshold: int, p: int)
    requires totalPages > threshold
    ensures p in Window(totalPages, currentPage, threshold) <==>
      1 <= p <= totalPages && (p == 1 || p == totalPages || currentPage - 1 <= p <= currentPage + 1)
  {
  }

  /** Past the threshold, at most five numbers are shown. */
  lemma {:induction false} LargeWindowIsSmall(totalPages: int, currentPage: int, threshold: int)
    requires totalPages > threshold
    ensures |Window(totalPages, currentPage, threshold)| <= 5
  {
    var w := Window(totalPages, currentPage, threshold);
    var allowed := {1, totalPages, currentPage - 1, currentPage, currentPage + 1};
    assert forall p :: p in w ==> p in allowed;
    var shown := set i | 0 <= i < |w| :: w[i];
    assert shown <= allowed;
    assert |allowed| <= 5 by { SetOfFiveAtMostFive(1, totalPages, currentPage - 1, currentPage, currentPage + 1); }
    SubsetSize(shown, allowed);
    DistinctCount(w);
  }

  lemma SetOfFiveAtMostFive(a: int, b: int, c: int, d: int, e: int)
    ensures |{a, b, c, d, e}| <= 5
  {
  }

  lemma SubsetSize(a: set<int>, b: set<int>)
    requires a <= b
    ensures |a| <= |b|
  {
    assert b == a + (b - a);
  }

  /** A strictly increasing sequence has as many distinct elements as positions. */
  lemma {:induction false} DistinctCount(w: seq<int>)
    requires Increasing(w)
    ensures |set i | 0 <= i < |w| :: w[i]| == |w|
  {
    if w != [] {
      var init := w[..|w| - 1];
      assert Increasing(init);
      DistinctCount(init);
      var last := w[|w| - 1];
      var s := set i | 0 <= i < |w| :: w[i];
      var t := set i | 0 <= i < |init| :: init[i];
      assert s == t + {last} by {
        forall x | x in s
          ensures x in t + {last}
        {
          var i :| 0 <= i < |w| && w[i] == x;
          if i < |w| - 1 {
            assert init[i] == x;
          }
        }
      }
      assert last !in t;
    }
  }

  /** An ellipsis goes before the `index`-th shown page when the previous shown page is not the one just below. */
  predicate Ellipsis(w: seq<int>, index: int)
    requires 0 <= index < |w|
  {
    index > 0 && w[index - 1] != w[index] - 1
  }

  /** An ellipsis marks exactly the places where a page between two shown ones is left out. */
  lemma EllipsisMarksAGap(totalPages: int, currentPage: int, threshold: int, index: int)
    requires 0 < index < |Window(totalPages, currentPage, threshold)|
    ensures var w := Window(totalPages, currentPage, threshold);
      Ellipsis(w, index) <==> w[index - 1] + 1 < w[index]
    ensures var w := Window(totalPages, currentPage, threshold);
      Ellipsis(w, index) ==> 1 <= w[index - 1] + 1 <= totalPages && w[index - 1] + 1 !in w
  {
  }

  /** No ellipsis at all when every page is shown. */
  lemma NoEllipsisInFullWindow(totalPages: int, currentPage: int, threshold: int, index: int)
    requires totalPages <= threshold
    requires 0 <= index < |Window(totalPages, currentPage, threshold)|
    ensures !Ellipsis(Window(totalPages, currentPage, threshold), index)
  {
    SmallWindowShowsAll(totalPages, currentPage, threshold, 1);
  }

  // ---------------------------------------------------------------------
  // Previous / Next and the range text

  /** Previous: `Math.max(1, prev - 1)`. */
  function Previous(currentPage: int): (r: int)
    ensures r >= 1
    ensures currentPage > 1 ==> r == currentPage - 1
  {
    Max(1, currentPage - 1)
  }

  /** Next: `Math.min(Math.ceil(totalCount / pageSize), prev + 1)`. */
  function Next(currentPage: int, totalCount: int, pageSize: int): (r: int)
    requires pageSize > 0
    ensures r <= Pagination.TotalPages(totalCount, pageSize)
    ensures currentPage < Pagination.TotalPages(totalCount, pageSize) ==> r == currentPage + 1
  {
    Min(Pagination.TotalPages(totalCount, pageSize), currentPage + 1)
  }

  /** Starting from a page that exists, Previous and Next stay on pages that exist. */
  lemma ClampsStayInRange(currentPage: int, totalCount: int, pageSize: int)
    requires pageSize > 0
    requires 1 <= currentPage <= Pagination.TotalPages(totalCount, pageSize)
    ensures 1 <= Previous(currentPage) <= Pagination.TotalPages(totalCount, pageSize)
    ensures 1 <= Next(currentPage, totalCount, pageSize) <= Pagination.TotalPages(totalCount, pageSize)
  {
  }

  /** "Showing `first` to `last` of `totalCount`". */
  datatype RangeText = RangeText(first: int, last: int)

  function Range(currentPage: int, pageSize: int, totalCount: int): RangeText
  {
    RangeText((currentPage - 1) * pageSize + 1, Min(currentPage * pageSize, totalCount))
  }

  /** On a page that exists the range is non-empty, within the total, and at most a page long. */
  lemma RangeWithinTotal(currentPage: int, pageSize: int, totalCount: int)
    requires pageSize > 0 && totalCount > 0
    requires 1 <= currentPage <= Pagination.TotalPages(totalCount, pageSize)
    ensures var r := Range(currentPage, pageSize, totalCount);
      1 <= r.first <= r.last <= totalCount && r.last - r.first < pageSize
  {
    var tp := Pagination.TotalPages(totalCount, pageSize);
    assert (currentPage - 1) * pageSize <= (tp - 1) * pageSize by {
      MulMono(currentPage - 1, tp - 1, pageSize);
    }
    assert (currentPage - 1) * pageSize >= 0 by {
      MulMono(0, currentPage - 1, pageSize);
    }
    assert currentPage * pageSize == (currentPage - 1) * pageSize + pageSize;
  }

  lemma MulMono(a: int, b: int, c: int)
    requires a <= b && c >= 0
    ensures a * c <= b * c
  {
    assert b * c - a * c == (b - a) * c;
    assert (b - a) * c >= 0;
  }
}
