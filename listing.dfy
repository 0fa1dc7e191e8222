/** What the two list pages do with a fetched list: `Array.prototype.filter`,
    `Array.prototype.slice` and the fixed-size pagination built on them. */
module Listing {

  /** `xs.filter(keep)` */
  function Filter<T>(xs: seq<T>, keep: T -> bool): (r: seq<T>)
    ensures |r| <= |xs|
    ensures forall i :: 0 <= i < |r| ==> r[i] in xs && keep(r[i])
    ensures forall i :: 0 <= i < |xs| && keep(xs[i]) ==> xs[i] in r
  {
    if xs == [] then [] else (if keep(xs[0]) then [xs[0]] else []) + Filter(xs[1..], keep)
  }

  /** Taking one more element of `b` after `a`. */
  lemma AppendSliceStep<T>(a: seq<T>, b: seq<T>, c: nat)
    requires c < |b|
    ensures a + b[..c + 1] == (a + b[..c]) + [b[c]]
  {
    assert b[..c + 1] == b[..c] + [b[c]];
  }

  /** `a` is `b` with some elements left out and the rest in their order. */
  predicate IsSubsequence<T(==)>(a: seq<T>, b: seq<T>)
    decreases |b|
  {
    if a == [] then true
    else if b == [] then false
    else (a[0] == b[0] && IsSubsequence(a[1..], b[1..])) || IsSubsequence(a, b[1..])
  }

  /** The filtered list is an order-preserving subsequence of the list. */
  lemma {:induction false} FilterIsSubsequence<T>(xs: seq<T>, keep: T -> bool)
    ensures IsSubsequence(Filter(xs, keep), xs)
  {
    if xs != [] {
      FilterIsSubsequence(xs[1..], keep);
      if keep(xs[0]) {
        assert Filter(xs, keep)[1..] == Filter(xs[1..], keep);
      } else {
        assert Filter(xs, keep) == Filter(xs[1..], keep);
      }
    }
  }

  /** Each value that passes occurs in the filtered list exactly as often as
      in the list, and each value that fails not at all: duplicates are kept. */
  lemma {:induction false} FilterCounts<T>(xs: seq<T>, keep: T -> bool)
    ensures forall x :: multiset(Filter(xs, keep))[x] == if keep(x) then multiset(xs)[x] else 0
  {
    if xs != [] {
      FilterCounts(xs[1..], keep);
      var head := if keep(xs[0]) then [xs[0]] else [];
      assert xs == [xs[0]] + xs[1..];
      assert multiset(xs) == multiset([xs[0]]) + multiset(xs[1..]);
      assert Filter(xs, keep) == head + Filter(xs[1..], keep);
      assert multiset(Filter(xs, keep)) == multiset(head) + multiset(Filter(xs[1..], keep));
    }
  }

  /** Normalises a `slice` argument: a negative one counts from the end, and
      the result is clamped into `0..n`. */
  function SliceIndex(i: int, n: nat): (r: nat)
    ensures r <= n
    ensures 0 <= i <= n ==> r == i
    ensures i > n ==> r == n
    ensures i < 0 ==> r == if n + i < 0 then 0 else n + i
  {
    if i < 0 then (if n + i < 0 then 0 else n + i) else if i > n then n else i
  }

  /** `xs.slice(start, end)` for integer arguments. */
  function Slice<T>(xs: seq<T>, start: int, end: int): (r: seq<T>)
    ensures 0 <= start <= end ==> r == xs[SliceIndex(start, |xs|)..SliceIndex(end, |xs|)]
    ensures |r| <= |xs|
  {
    var a, b := SliceIndex(start, |xs|), SliceIndex(end, |xs|);
    if a < b then xs[a..b] else []
  }

  /** `rowPerPage` / `usersPerPage`: both list pages show 8 rows. */
  const RowsPerPage: nat := 8

  /** `Math.ceil(n / 8)`: the fewest pages of 8 that hold `n` rows. */
  function TotalPages(n: nat): (p: nat)
    ensures p * RowsPerPage >= n
    ensures p > 0 ==> (p - 1) * RowsPerPage < n
    ensures p == 0 <==> n == 0
  {
    (n + RowsPerPage - 1) / RowsPerPage
  }

  /** The first row index of page `page` (counted from 1). */
  function PageStart(page: int): int {
    (page - 1) * RowsPerPage
  }

  /** `rows.slice(startIndex, endIndex)` for the current page. */
  function PageRows<T>(rows: seq<T>, page: int): (r: seq<T>)
    ensures |r| <= RowsPerPage
    ensures page >= 1 ==> r == rows[Min(PageStart(page), |rows|)..Min(PageStart(page) + RowsPerPage, |rows|)]
    ensures page >= 1 && page > TotalPages(|rows|) ==> r == []
  {
    Slice(rows, PageStart(page), PageStart(page) + RowsPerPage)
  }

  function Min(a: int, b: int): int { if a <= b then a else b }

  /** Page 0, which the pager never asks for, is empty: its slice ends at 0. */
  lemma PageZeroIsEmpty<T>(rows: seq<T>)
    ensures PageRows(rows, 0) == []
  {
  }

  /** Row `i` is shown on page `i / 8 + 1`, at position `i % 8`. */
  lemma RowOnPage<T>(rows: seq<T>, i: nat)
    requires i < |rows|
    ensures 1 <= i / RowsPerPage + 1 <= TotalPages(|rows|)
    ensures i % RowsPerPage < |PageRows(rows, i / RowsPerPage + 1)|
    ensures PageRows(rows, i / RowsPerPage + 1)[i % RowsPerPage] == rows[i]
  {
    var p := i / RowsPerPage + 1;
    assert PageStart(p) == i - i % RowsPerPage;
  }

  /** Pages 1 to `k` one after another. */
  function Pages<T>(rows: seq<T>, k: nat): seq<T> {
    if k == 0 then [] else Pages(rows, k - 1) + PageRows(rows, k)
  }

  /** The first `k` pages hold exactly the first `8 k` rows (or all of them). */
  lemma {:induction false} PagesPrefix<T>(rows: seq<T>, k: nat)
    ensures Pages(rows, k) == rows[..Min(k * RowsPerPage, |rows|)]
  {
    if k > 0 {
      PagesPrefix(rows, k - 1);
      var a, b := Min((k - 1) * RowsPerPage, |rows|), Min(k * RowsPerPage, |rows|);
      assert PageStart(k) == (k - 1) * RowsPerPage;
      assert rows[..a] + rows[a..b] == rows[..b];
    }
  }

  /** Pages 1 to `TotalPages` concatenated are the whole list: every row is
      shown once, in order. */
  lemma PagesPartition<T>(rows: seq<T>)
    ensures Pages(rows, TotalPages(|rows|)) == rows
  {
    PagesPrefix(rows, TotalPages(|rows|));
  }
}
