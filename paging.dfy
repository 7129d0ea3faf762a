/** Offset pagination as the list routes compute it: `skip = (page - 1) * limit` rows are skipped,
    `limit` rows are taken, and `pages = Math.ceil(total / limit)`. A limit of 0 makes the
    division infinite or NaN, which JSON renders as null: `pages` is None then. */
module Paging {
  import opened Common

  /** `parseInt(param || default)` for a parameter that parses (None: absent or empty). */
  function IntParam(param: Option<int>, default: int): int
  {
    if param.Some? then param.value else default
  }

  /** `(page - 1) * limit`. */
  function Skip(page: int, limit: int): (r: int)
    ensures page >= 1 && limit >= 0 ==> r >= 0
    ensures r + limit == page * limit
  {
    (page - 1) * limit
  }

  /** `Math.ceil(total / limit)`, None where it is not a finite number. */
  function Pages(total: nat, limit: int): (r: Option<int>)
    ensures r.None? <==> limit == 0
    ensures limit > 0 ==> r.Some? && r.value >= 0 && (r.value - 1) * limit < total <= r.value * limit
  {
    if limit == 0 then None else Some(CeilDiv(total, limit))
  }

  /** With a positive limit, the pages 1 .. pages cover every row, and the last of them is not empty. */
  lemma PagesCoverAll(total: nat, limit: int)
    requires limit > 0
    ensures Skip(Pages(total, limit).value + 1, limit) >= total
    ensures total > 0 ==> Pages(total, limit).value >= 1 && Skip(Pages(total, limit).value, limit) < total
  {
    var p := Pages(total, limit).value;
    assert Skip(p + 1, limit) == p * limit;
    assert Skip(p, limit) == (p - 1) * limit;
  }

  /** The rows a query with `skip` and `take` returns from the rows it selects, in their order:
      `slice(skip, skip + take)`. */
  function Window<T>(rows: seq<T>, skip: int, take: int): (r: seq<T>)
    ensures take >= 0 ==> |r| <= take
    ensures 0 <= skip && 0 <= take && skip + take <= |rows| ==> r == rows[skip..skip + take]
    ensures forall x :: x in r ==> x in rows
  {
    JsSlice(rows, skip, skip + take)
  }

  /** The rows of page `page` in a list: `slice(skip, skip + limit)`. */
  function PageOf<T>(rows: seq<T>, page: int, limit: int): (r: seq<T>)
    ensures limit >= 0 ==> |r| <= limit
    ensures page >= 1 && limit >= 0 && Skip(page, limit) + limit <= |rows| ==>
              r == rows[Skip(page, limit)..Skip(page, limit) + limit]
    ensures forall x :: x in r ==> x in rows
  {
    Window(rows, Skip(page, limit), limit)
  }

  /** A row sits on page i / limit + 1, at position i % limit. */
  lemma RowOnItsPage<T>(rows: seq<T>, i: nat, limit: int)
    requires limit > 0 && i < |rows|
    ensures var p := PageOf(rows, i / limit + 1, limit);
            i % limit < |p| && p[i % limit] == rows[i]
  {
    var q, r := i / limit, i % limit;
    assert i == q * limit + r;
    var skip := Skip(q + 1, limit);
    assert skip == q * limit;
    var end := if skip + limit <= |rows| then skip + limit else |rows|;
    assert JsSlice(rows, skip, skip + limit) == rows[skip..end];
  }

  /** Pages past `pages` are empty. */
  lemma PageBeyondLast<T>(rows: seq<T>, page: int, limit: int)
    requires limit > 0 && page > Pages(|rows|, limit).value
    ensures PageOf(rows, page, limit) == []
  {
    var p := Pages(|rows|, limit).value;
    MulMonotone(p, page - 1, limit);
    var skip := Skip(page, limit);
    assert skip >= |rows|;
    assert JsIndex(skip, |rows|) == |rows|;
  }

  lemma MulMonotone(a: int, b: int, c: int)
    requires a <= b && c >= 0
    ensures a * c <= b * c
  {
    assert b * c - a * c == (b - a) * c;
  }

  /** `hasMore = offset + limit < total`. */
  function HasMore(offset: int, limit: int, total: int): bool
  {
    offset + limit < total
  }

  /** For a window of the selected rows, `hasMore` holds exactly when the rows before the window and
      the window's own rows leave some selected row out, that is, when a later window with a
      positive take would not be empty. */
  lemma HasMoreIffRowsRemain<T>(rows: seq<T>, offset: int, limit: int, next: int)
    requires 0 <= offset && 0 <= limit
    ensures HasMore(offset, limit, |rows|) <==> |Window(rows, 0, offset)| + |Window(rows, offset, limit)| < |rows|
    ensures next > 0 ==> (HasMore(offset, limit, |rows|) <==> Window(rows, offset + limit, next) != [])
  {
    if offset > |rows| {
      assert |Window(rows, 0, offset)| == |rows|;
    }
    if next > 0 && offset + limit < |rows| {
      assert |Window(rows, offset + limit, next)| > 0;
    }
  }

  /** A window of a descending list is descending. */
  lemma WindowKeepsOrder<T>(rows: seq<T>, skip: int, take: int, key: T -> int)
    requires Descending(rows, key)
    ensures Descending(Window(rows, skip, take), key)
  {
    var a, b := JsIndex(skip, |rows|), JsIndex(skip + take, |rows|);
    if a < b {
      var r := rows[a..b];
      assert Window(rows, skip, take) == r;
      forall i, j | 0 <= i < j < |r| ensures key(r[i]) >= key(r[j]) {
        assert r[i] == rows[a + i] && r[j] == rows[a + j];
      }
    }
  }
}
