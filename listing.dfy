/** The read side of the routes, as pure functions over a collection's documents
    in their natural order: the database's descending sort on a numeric key,
    equality filters, skip/limit paging and the top-six "popular" selection. */
module Listing {
  import opened Records

  /** The database's descending order on a key that may be missing: a missing
      key sorts after every number. */
  predicate KeyGe(a: Option<int>, b: Option<int>) {
    b.None? || (a.Some? && a.value >= b.value)
  }

  predicate SortedDesc<T>(s: seq<T>, key: T -> Option<int>) {
    forall i, j :: 0 <= i < j < |s| ==> KeyGe(key(s[i]), key(s[j]))
  }

  /** Puts `x` before the first element whose key it is at least as large as. */
  function Insert<T>(x: T, s: seq<T>, key: T -> Option<int>): (r: seq<T>)
    requires SortedDesc(s, key)
    ensures multiset(r) == multiset(s) + multiset{x}
    ensures SortedDesc(r, key)
  {
    if s == [] || KeyGe(key(x), key(s[0])) then [x] + s
    else
      var tail := Insert(x, s[1..], key);
      assert forall k :: 0 <= k < |tail| ==> KeyGe(key(s[0]), key(tail[k])) by {
        forall k | 0 <= k < |tail| ensures KeyGe(key(s[0]), key(tail[k])) {
          assert tail[k] in multiset(s[1..]) + multiset{x};
          if tail[k] != x {
            assert tail[k] in s[1..];
          }
        }
      }
      assert s == [s[0]] + s[1..];
      [s[0]] + tail
  }

  /** `.sort({key: -1})`: the documents from the largest key down; documents with
      equal keys keep their natural order. */
  function SortDesc<T>(s: seq<T>, key: T -> Option<int>): (r: seq<T>)
    ensures multiset(r) == multiset(s)
    ensures SortedDesc(r, key)
  {
    if s == [] then []
    else
      assert s == [s[0]] + s[1..];
      Insert(s[0], SortDesc(s[1..], key), key)
  }

  /** `.find(query)` with an equality query: the documents that match, in natural order. */
  function Filter<T(!new)>(s: seq<T>, keep: T -> bool): (r: seq<T>)
    ensures forall x :: multiset(r)[x] == if keep(x) then multiset(s)[x] else 0
  {
    if s == [] then []
    else
      assert s == [s[0]] + s[1..];
      (if keep(s[0]) then [s[0]] else []) + Filter(s[1..], keep)
  }

  /** `.skip(skip).limit(limit)` on an already sorted list. */
  function Window<T>(s: seq<T>, skip: nat, limit: nat): (r: seq<T>)
    ensures |r| == if skip >= |s| then 0 else if |s| - skip < limit then |s| - skip else limit
    ensures forall i :: 0 <= i < |r| ==> r[i] == s[skip + i]
  {
    if skip >= |s| then [] else if |s| - skip < limit then s[skip..] else s[skip..skip + limit]
  }

  /** `Math.ceil(total / limit)` for a non-zero integer limit. */
  function CeilDiv(total: nat, limit: int): int
    requires limit != 0
  {
    if limit > 0 then (total + limit - 1) / limit else -(total / -limit)
  }

  /** CeilDiv is the ceiling of the quotient: the least q with total <= q * limit
      for a positive limit, and the least q with q * limit <= total for a negative one. */
  lemma CeilDivIsCeiling(total: nat, limit: int)
    requires limit != 0
    ensures var q := CeilDiv(total, limit);
      if limit > 0 then (q - 1) * limit < total <= q * limit
      else q * limit <= total < (q - 1) * limit
  {
    var q := CeilDiv(total, limit);
    if limit > 0 {
      var m := total + limit - 1;
      assert m == (m / limit) * limit + m % limit;
      assert q * limit == m - m % limit;
    } else {
      var d := -limit;
      assert total == (total / d) * d + total % d;
      assert q * limit == (total / d) * d;
    }
  }

  /** `parseInt(query) || fallback`, where None stands for NaN. */
  function OrDefault(q: Option<int>, fallback: int): (v: int)
    ensures v == fallback <== q.None? || q.value == 0
    ensures q.Some? && q.value != 0 ==> v == q.value
  {
    if q.Some? && q.value != 0 then q.value else fallback
  }

  function Abs(x: int): nat {
    if x < 0 then -x else x
  }

  datatype Page<T> = Page(items: seq<T>, totalPages: int, currentPage: int)

  /** GET /camps/paginated over the documents `docs` in natural order. The page
      and limit default to 1 and 9; a negative skip is refused by the database
      (None: the route answers 500); a negative limit takes that many documents. */
  function Paginate<T>(docs: seq<T>, key: T -> Option<int>, page: Option<int>, limit: Option<int>): (r: Option<Page<T>>)
    ensures var p := OrDefault(page, 1); var l := OrDefault(limit, 9);
      && (r.None? <==> (p - 1) * l < 0)
      && (r.Some? ==>
            && r.value.currentPage == p
            && r.value.totalPages == CeilDiv(|docs|, l)
            && r.value.items == Window(SortDesc(docs, key), (p - 1) * l, Abs(l)))
  {
    var p := OrDefault(page, 1);
    var l := OrDefault(limit, 9);
    var skip := (p - 1) * l;
    if skip < 0 then None
    else Some(Page(Window(SortDesc(docs, key), skip, Abs(l)), CeilDiv(|docs|, l), p))
  }

  /** A window of a sorted list is sorted and drawn from the list. */
  lemma WindowOfSorted<T>(s: seq<T>, key: T -> Option<int>, skip: nat, limit: nat)
    requires SortedDesc(s, key)
    ensures SortedDesc(Window(s, skip, limit), key)
    ensures multiset(Window(s, skip, limit)) <= multiset(s)
  {
    if skip < |s| {
      var hi := if |s| - skip < limit then |s| else skip + limit;
      assert Window(s, skip, limit) == s[skip..hi];
      assert s == s[..skip] + s[skip..hi] + s[hi..];
      assert multiset(s) == multiset(s[..skip]) + multiset(s[skip..hi]) + multiset(s[hi..]);
    }
  }

  /** What a page holds: at most `limit` documents, in the key order of the whole
      list and drawn from it, a full `limit` of them when the collection reaches
      past the page; the page count is enough pages of `limit` to hold every
      document. */
  lemma PageContents<T>(docs: seq<T>, key: T -> Option<int>, page: Option<int>, limit: Option<int>)
    requires Paginate(docs, key, page, limit).Some?
    ensures var r := Paginate(docs, key, page, limit).value;
      var l := OrDefault(limit, 9); var skip := (OrDefault(page, 1) - 1) * l;
      && |r.items| <= Abs(l)
      && SortedDesc(r.items, key)
      && multiset(r.items) <= multiset(docs)
      && (skip + Abs(l) <= |docs| ==> |r.items| == Abs(l))
      && (l > 0 ==> (r.totalPages - 1) * l < |docs| <= r.totalPages * l)
  {
    var l := OrDefault(limit, 9);
    var skip := (OrDefault(page, 1) - 1) * l;
    var sorted := SortDesc(docs, key);
    assert |sorted| == |docs| by {
      assert |multiset(sorted)| == |multiset(docs)|;
    }
    WindowOfSorted(sorted, key, skip, Abs(l));
    CeilDivIsCeiling(|docs|, l);
  }

  /** With no query the first nine newest documents are shown as page 1. */
  lemma DefaultPage<T>(docs: seq<T>, key: T -> Option<int>)
    ensures Paginate(docs, key, None, None)
         == Some(Page(Window(SortDesc(docs, key), 0, 9), CeilDiv(|docs|, 9), 1))
  {
  }

  /** The second page of nine over twenty documents holds nine of them, out of three pages. */
  lemma SecondPageOfTwenty<T>(docs: seq<T>, key: T -> Option<int>)
    requires |docs| == 20
    ensures var r := Paginate(docs, key, Some(2), Some(9));
      r.Some? && |r.value.items| == 9 && r.value.totalPages == 3 && r.value.currentPage == 2
  {
    assert |SortDesc(docs, key)| == 20 by {
      assert |multiset(SortDesc(docs, key))| == |multiset(docs)|;
    }
  }

  /** GET /camps/popular: `.sort({participantCount: -1}).limit(6)`. */
  function Popular<T>(docs: seq<T>, key: T -> Option<int>): (r: seq<T>)
    ensures |r| == if |docs| < 6 then |docs| else 6
    ensures SortedDesc(r, key)
    ensures multiset(r) <= multiset(docs)
  {
    var sorted := SortDesc(docs, key);
    assert |sorted| == |docs| by {
      assert |multiset(sorted)| == |multiset(docs)|;
    }
    var n := if |docs| < 6 then |docs| else 6;
    assert sorted == sorted[..n] + sorted[n..];
    assert multiset(sorted) == multiset(sorted[..n]) + multiset(sorted[n..]);
    sorted[..n]
  }

  /** The popular list is the head of the sorted collection, and the camps left
      out are the rest of it. */
  lemma PopularSplit<T>(docs: seq<T>, key: T -> Option<int>)
    ensures var sorted := SortDesc(docs, key); var n := if |docs| < 6 then |docs| else 6;
      && n <= |sorted|
      && Popular(docs, key) == sorted[..n]
      && multiset(docs) - multiset(Popular(docs, key)) == multiset(sorted[n..])
  {
    var sorted := SortDesc(docs, key);
    assert |sorted| == |docs| by {
      assert |multiset(sorted)| == |multiset(docs)|;
    }
    var n := if |docs| < 6 then |docs| else 6;
    assert sorted == sorted[..n] + sorted[n..];
    assert multiset(sorted) == multiset(sorted[..n]) + multiset(sorted[n..]);
  }

  /** Two positions of a descending list, the earlier one first. */
  lemma SortedPair<T>(s: seq<T>, key: T -> Option<int>, i: int, j: int)
    requires SortedDesc(s, key) && 0 <= i < j < |s|
    ensures KeyGe(key(s[i]), key(s[j]))
  {
  }

  /** The popular camps are the top ones: every camp left out has a count no larger
      than any camp shown. */
  lemma PopularIsTop<T>(docs: seq<T>, key: T -> Option<int>, x: T, y: T)
    requires x in Popular(docs, key)
    requires y in multiset(docs) - multiset(Popular(docs, key))
    ensures KeyGe(key(x), key(y))
  {
    var sorted := SortDesc(docs, key);
    var n := if |docs| < 6 then |docs| else 6;
    PopularSplit(docs, key);
    var i :| 0 <= i < n && sorted[..n][i] == x;
    assert y in sorted[n..];
    var j :| 0 <= j < |sorted| - n && sorted[n..][j] == y;
    SortedPair(sorted, key, i, n + j);
  }

}
