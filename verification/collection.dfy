/** The result of a `findAll`: an array iterator over the returned
    resources that also remembers the server's paging window, and can
    describe it as page numbers for a view. */
module Collection {
  import opened Wrappers

  /** `items` in response order; `position` is the iterator's cursor. */
  datatype Collection<T> = Collection(items: seq<T>, position: nat, offset: int, limit: int, total: int)

  /** A new, empty collection positioned at its start. */
  function Make<T>(offset: int, limit: int, total: int): (c: Collection<T>)
    ensures c.items == [] && c.position == 0
    ensures c.offset == offset && c.limit == limit && c.total == total
  {
    Collection([], 0, offset, limit, total)
  }

  function Append<T>(c: Collection<T>, x: T): (r: Collection<T>)
    ensures r.items == c.items + [x]
    ensures r.position == c.position && r.offset == c.offset && r.limit == c.limit && r.total == c.total
  {
    c.(items := c.items + [x])
  }

  datatype Pagination = Pagination(
    offset: int, limit: int, total: int,
    page: int, pages: int,
    prev: Option<int>, next: Option<int>,
    start: int, end: int)

  /** `(int)floor($x / $d)`. Dividing by zero is a warning in PHP 5 and
      yields false, which counts as 0. */
  function FloorDiv(x: int, d: int): (q: int)
    ensures d > 0 ==> d * q <= x < d * q + d
    ensures d < 0 ==> (-d) * q <= -x < (-d) * q - d
    ensures d == 0 ==> q == 0
  {
    if d > 0 then x / d else if d < 0 then (-x) / (-d) else 0
  }

  /** `(int)ceil($x / $d)`, with the same zero divisor. */
  function CeilDiv(x: int, d: int): (q: int)
    ensures d > 0 ==> d * q - d < x <= d * q
    ensures d < 0 ==> (-d) * q + d < -x <= (-d) * q
    ensures d == 0 ==> q == 0
  {
    if d == 0 then 0
    else
      var q' := FloorDiv(-x, d);
      if d > 0 then
        assert d * (-q') == -(d * q');
        -q'
      else
        assert (-d) * (-q') == -((-d) * q');
        -q'
  }

  /** Page metadata for the collection's window. `page` and `pages` are
      floor and ceiling divisions by `limit` when a total is known; a
      zero limit then gives page 1 of 0. */
  function GetPagination<T>(c: Collection<T>): (p: Pagination)
    ensures p.offset == c.offset && p.limit == c.limit && p.total == c.total
    ensures c.total == 0 ==> p.page == 1 && p.pages == 1
    ensures c.total != 0 && c.limit > 0 ==> c.limit * (p.page - 1) <= c.offset < c.limit * (p.page - 1) + c.limit
    ensures c.total != 0 && c.limit > 0 ==> c.limit * p.pages - c.limit < c.total <= c.limit * p.pages
    ensures c.total != 0 && c.limit == 0 ==> p.page == 1 && p.pages == 0
    ensures p.prev.Some? <==> 1 < p.page <= p.pages + 1
    ensures p.prev.Some? ==> p.prev.value == p.page - 1 && 1 <= p.prev.value <= p.pages
    ensures p.next.None? <==> p.page >= p.pages
    ensures p.next.Some? ==> p.next.value == p.page + 1 <= p.pages
    ensures p.start == c.offset + 1
    ensures c.offset + c.limit > c.total ==> p.end == c.total
    ensures c.offset + c.limit <= c.total ==> p.end == c.limit * p.page
  {
    var page := if c.total != 0 then FloorDiv(c.offset, c.limit) + 1 else 1;
    var pages := if c.total != 0 then CeilDiv(c.total, c.limit) else 1;
    var prev0 := if page > 1 then Some(page - 1) else None;
    var prev := if prev0.Some? && prev0.value > pages then None else prev0;
    var next0 := if page < pages then Some(page + 1) else None;
    var next := if next0.Some? && next0.value > pages then None else next0;
    var end := if c.offset + c.limit > c.total then c.total else c.limit * page;
    Pagination(c.offset, c.limit, c.total, page, pages, prev, next, c.offset + 1, end)
  }

  /** With a non-negative window the last item number never passes the
      total, and a non-empty result has at least one page. */
  lemma {:induction false} EndWithinTotal<T>(c: Collection<T>)
    requires c.offset >= 0 && c.limit >= 0 && c.total >= 0
    requires c.total != 0 ==> c.limit > 0
    ensures GetPagination(c).end <= c.total
    ensures GetPagination(c).page >= 1 && GetPagination(c).pages >= 1
  {
    var p := GetPagination(c);
    if c.offset + c.limit <= c.total && c.total != 0 {
      assert c.limit * p.page == c.limit * (p.page - 1) + c.limit;
    }
    if c.total != 0 {
      assert c.limit * p.pages >= c.total > 0;
    }
  }

  /** The two worked examples: one result of ten, and the second page of
      a 25-item result. */
  lemma PaginationExamples()
    ensures GetPagination(Make<int>(0, 10, 1))
         == Pagination(0, 10, 1, 1, 1, None, None, 1, 1)
    ensures GetPagination(Make<int>(10, 10, 25))
         == Pagination(10, 10, 25, 2, 3, Some(1), Some(3), 11, 20)
  {
    assert FloorDiv(0, 10) == 0 && CeilDiv(1, 10) == 1;
    assert FloorDiv(10, 10) == 1 && CeilDiv(25, 10) == 3;
  }

  /** `toArray`: maps every item from the cursor on through `view`, in
      order, and leaves the iterator exhausted, so a second call on the
      returned collection yields nothing. */
  method ToArray<T, U>(c: Collection<T>, view: T -> U) returns (out: seq<U>, c': Collection<T>)
    ensures c.position <= |c.items| ==> |out| == |c.items| - c.position
    ensures c.position >= |c.items| ==> out == []
    ensures forall i :: 0 <= i < |out| ==> c.position + i < |c.items| && out[i] == view(c.items[c.position + i])
    ensures c'.position >= |c'.items|
    ensures c'.items == c.items && c'.offset == c.offset && c'.limit == c.limit && c'.total == c.total
  {
    out := [];
    c' := c;
    while c'.position < |c'.items|
      invariant c'.items == c.items && c'.offset == c.offset && c'.limit == c.limit && c'.total == c.total
      invariant c.position <= c'.position
      invariant c.position < |c.items| ==> c'.position <= |c.items|
      invariant c.position >= |c.items| ==> c'.position == c.position
      invariant |out| == c'.position - c.position
      invariant forall i :: 0 <= i < |out| ==> out[i] == view(c.items[c.position + i])
      decreases |c'.items| - c'.position
    {
      out := out + [view(c'.items[c'.position])];
      c' := c'.(position := c'.position + 1);
    }
  }
}
