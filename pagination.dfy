/**
 * `LegitSocialAPI.paginate`: call an operation, yield the items of the
 * page's `data`, and call again with the page's `next_cursor` under the
 * `cursor` key of a private copy of the query, for as long as the page says
 * `has_next` and gives a cursor. The operation's outcomes are a finite
 * sequence, the i-th call receiving the i-th outcome; a walk that uses them
 * all up stops with `OutOfPages`.
 */
module Pagination {
  import opened Wrappers
  import opened Json
  import opened Engine

  const CursorKey := "cursor"

  /** How a walk ends. */
  datatype Stop =
    | Finished               // a page without both `has_next` and `next_cursor`
    | Raised(f: Failure)     // the operation raised
    | PayloadNotDict         // `payload.get` on a payload that is not a dict
    | DataNotList            // `data` is truthy but not a list
    | PagingNotDict          // `paging.get` on a truthy `paging` that is not a dict
    | OutOfPages             // the given outcomes ran out

  /** The items yielded, the query each call was given, and how the walk ended. */
  datatype Walk = Walk(items: seq<Json>, queries: seq<Object>, stop: Stop)

  /** The items of one page's `data`: `data or []`, when that is a list. */
  function DataItems(payload: Object): (r: Option<seq<Json>>)
    ensures r.None? <==> Truthy(DictGet(payload, "data")) && !DictGet(payload, "data").JArr?
    ensures !Truthy(DictGet(payload, "data")) ==> r == Some([])
    ensures DictGet(payload, "data").JArr? ==> r == Some(DictGet(payload, "data").items)
  {
    var data := DictGet(payload, "data");
    if !Truthy(data) then Some([]) else if data.JArr? then Some(data.items) else None
  }

  /** The cursor a page hands on, when it says `has_next` and gives a truthy `next_cursor`. */
  function NextCursor(paging: Object): (r: Option<Json>)
    ensures r.Some? <==> Truthy(DictGet(paging, "has_next")) && Truthy(DictGet(paging, "next_cursor"))
    ensures r.Some? ==> "next_cursor" in paging && r.value == paging["next_cursor"]
  {
    var hasNext, cursor := DictGet(paging, "has_next"), DictGet(paging, "next_cursor");
    if Truthy(hasNext) && Truthy(cursor) then Some(cursor) else None
  }

  /** What one page decides: stop with this end, or go on with this cursor. */
  datatype Step = Stop(stop: Stop) | Next(cursor: Json)

  /** An outcome that is a dict payload whose `data` is falsy or a list. */
  predicate ListPage(outcome: Result<Json, Failure>) {
    outcome.Ok? && outcome.value.JObj? && DataItems(outcome.value.fields).Some?
  }

  /** The `paging` value of a payload, `None` when the key is missing. */
  function PagingOf(payload: Object): Json {
    DictGet(payload, "paging")
  }

  /** A `paging` value that is a dict with truthy `has_next` and truthy `next_cursor`. */
  predicate SaysNext(paging: Json) {
    paging.JObj? && Truthy(DictGet(paging.fields, "has_next")) && Truthy(DictGet(paging.fields, "next_cursor"))
  }

  /** One page's items and its decision, as the loop body reads them. */
  function PageStep(outcome: Result<Json, Failure>): (r: (seq<Json>, Step))
    ensures outcome.Err? ==> r == ([], Stop(Raised(outcome.error)))
    ensures outcome.Ok? && !outcome.value.JObj? ==> r == ([], Stop(PayloadNotDict))
    ensures outcome.Ok? && outcome.value.JObj? && !ListPage(outcome) ==> r == ([], Stop(DataNotList))
    ensures ListPage(outcome) ==> r.0 == DataItems(outcome.value.fields).value
    ensures r.1.Next? <==> ListPage(outcome) && SaysNext(PagingOf(outcome.value.fields))
    ensures r.1.Next? ==> r.1.cursor == DictGet(PagingOf(outcome.value.fields).fields, "next_cursor") && Truthy(r.1.cursor)
    ensures r.0 != [] ==> ListPage(outcome) && DataItems(outcome.value.fields) == Some(r.0)
  {
    match outcome
    case Err(f) => ([], Stop(Raised(f)))
    case Ok(payload) =>
      if !payload.JObj? then ([], Stop(PayloadNotDict))
      else match DataItems(payload.fields)
        case None => ([], Stop(DataNotList))
        case Some(items) =>
          var paging := PagingOf(payload.fields);
          if !Truthy(paging) then (items, Stop(Finished))
          else if !paging.JObj? then (items, Stop(PagingNotDict))
          else match NextCursor(paging.fields)
            case None => (items, Stop(Finished))
            case Some(c) => (items, Next(c))
  }

  /**
   * How a dict page with list `data` stops when it does not go on: a truthy
   * `paging` that is not a dict ends the walk as `paging.get` would raise,
   * anything else ends it normally.
   */
  lemma PageStepStops(outcome: Result<Json, Failure>)
    requires ListPage(outcome) && !SaysNext(PagingOf(outcome.value.fields))
    ensures var paging := PagingOf(outcome.value.fields);
      PageStep(outcome).1 == if Truthy(paging) && !paging.JObj? then Stop(PagingNotDict) else Stop(Finished)
  {
  }

  /** The walk from the i-th outcome on, with working query `q`. */
  function WalkFrom(pages: seq<Result<Json, Failure>>, i: nat, q: Object): Walk
    decreases |pages| - i
  {
    if i >= |pages| then Walk([], [], OutOfPages)
    else
      var (items, step) := PageStep(pages[i]);
      match step
      case Stop(s) => Walk(items, [q], s)
      case Next(c) =>
        var rest := WalkFrom(pages, i + 1, q[CursorKey := c]);
        Walk(items + rest.items, [q] + rest.queries, rest.stop)
  }

  /** One unfolding of the walk, seen from an accumulator: a page that stops the walk. */
  lemma WalkStops(pages: seq<Result<Json, Failure>>, i: nat, q: Object, items: seq<Json>, queries: seq<Object>)
    requires i < |pages| && PageStep(pages[i]).1.Stop?
    ensures items + WalkFrom(pages, i, q).items == items + PageStep(pages[i]).0
    ensures queries + WalkFrom(pages, i, q).queries == queries + [q]
    ensures WalkFrom(pages, i, q).stop == PageStep(pages[i]).1.stop
  {
  }

  /** One unfolding of the walk, seen from an accumulator: a page that goes on with its cursor. */
  lemma WalkGoesOn(pages: seq<Result<Json, Failure>>, i: nat, q: Object, items: seq<Json>, queries: seq<Object>)
    requires i < |pages| && PageStep(pages[i]).1.Next?
    ensures var q' := q[CursorKey := PageStep(pages[i]).1.cursor];
      && items + WalkFrom(pages, i, q).items == (items + PageStep(pages[i]).0) + WalkFrom(pages, i + 1, q').items
      && queries + WalkFrom(pages, i, q).queries == (queries + [q]) + WalkFrom(pages, i + 1, q').queries
      && WalkFrom(pages, i, q).stop == WalkFrom(pages, i + 1, q').stop
  {
    var q' := q[CursorKey := PageStep(pages[i]).1.cursor];
    var rest := WalkFrom(pages, i + 1, q');
    assert items + (PageStep(pages[i]).0 + rest.items) == (items + PageStep(pages[i]).0) + rest.items;
    assert queries + ([q] + rest.queries) == (queries + [q]) + rest.queries;
  }

  /** `paginate(op, query=query)`, run to the end: the `while True` loop of `paginate`, with an explicit accumulator. */
  method Paginate(pages: seq<Result<Json, Failure>>, query: Object) returns (w: Walk)
    ensures w == WalkFrom(pages, 0, query)
  {
    var q := query;
    var items: seq<Json> := [];
    var queries: seq<Object> := [];
    var i := 0;
    ghost var whole := WalkFrom(pages, 0, query);
    while i < |pages|
      invariant 0 <= i <= |pages|
      invariant whole.items == items + WalkFrom(pages, i, q).items
      invariant whole.queries == queries + WalkFrom(pages, i, q).queries
      invariant whole.stop == WalkFrom(pages, i, q).stop
    {
      var page := PageStep(pages[i]);
      if page.1.Stop? {
        WalkStops(pages, i, q, items, queries);
        return Walk(items + page.0, queries + [q], page.1.stop);
      }
      WalkGoesOn(pages, i, q, items, queries);
      items := items + page.0;
      queries := queries + [q];
      q := q[CursorKey := page.1.cursor];
      i := i + 1;
    }
    assert items + [] == items && queries + [] == queries;
    w := Walk(items, queries, OutOfPages);
  }

  /** The items of the `n` pages from the i-th on, concatenated in order. */
  function ItemsOfPages(pages: seq<Result<Json, Failure>>, i: nat, n: nat): seq<Json>
    requires i + n <= |pages|
    decreases n
  {
    if n == 0 then [] else PageStep(pages[i]).0 + ItemsOfPages(pages, i + 1, n - 1)
  }

  /** There are never more calls than outcomes. */
  lemma {:induction false} CallsWithinPages(pages: seq<Result<Json, Failure>>, i: nat, q: Object)
    requires i <= |pages|
    ensures i + |WalkFrom(pages, i, q).queries| <= |pages|
    decreases |pages| - i
  {
    if i < |pages| && PageStep(pages[i]).1.Next? {
      CallsWithinPages(pages, i + 1, q[CursorKey := PageStep(pages[i]).1.cursor]);
    }
  }

  /**
   * One call per page, in order: every page called before the last one said
   * to go on; the walk stops at the first page that says otherwise, and the
   * stop is that page's; only running out of outcomes ends it otherwise.
   */
  lemma {:induction false} CallsStopAtFirstStop(pages: seq<Result<Json, Failure>>, i: nat, q: Object)
    requires i <= |pages|
    ensures var n := |WalkFrom(pages, i, q).queries|;
      && i + n <= |pages|
      && (forall j :: i <= j < i + n - 1 ==> PageStep(pages[j]).1.Next?)
      && (WalkFrom(pages, i, q).stop != OutOfPages ==> n >= 1 && PageStep(pages[i + n - 1]).1 == Stop(WalkFrom(pages, i, q).stop))
      && (WalkFrom(pages, i, q).stop == OutOfPages ==> i + n == |pages| && forall j :: i <= j < |pages| ==> PageStep(pages[j]).1.Next?)
    decreases |pages| - i
  {
    if i < |pages| {
      var step := PageStep(pages[i]).1;
      if step.Next? {
        CallsStopAtFirstStop(pages, i + 1, q[CursorKey := step.cursor]);
      }
    }
  }

  /** The items yielded are those of the pages called, in the order of the calls. */
  lemma {:induction false} ItemsInPageOrder(pages: seq<Result<Json, Failure>>, i: nat, q: Object)
    requires i <= |pages|
    ensures i + |WalkFrom(pages, i, q).queries| <= |pages|
    ensures WalkFrom(pages, i, q).items == ItemsOfPages(pages, i, |WalkFrom(pages, i, q).queries|)
    decreases |pages| - i
  {
    if i < |pages| {
      var (items, step) := PageStep(pages[i]);
      if step.Next? {
        ItemsInPageOrder(pages, i + 1, q[CursorKey := step.cursor]);
      } else {
        assert ItemsOfPages(pages, i + 1, 0) == [];
        assert items + [] == items;
      }
    }
  }

  /** A call's query is the previous call's with `cursor` set to the cursor that the previous page went on with. */
  predicate QueryFollows(prev: Object, next: Object, step: Step) {
    step.Next? && next == prev[CursorKey := step.cursor]
  }

  /**
   * The first call gets the caller's query; each later call gets the
   * previous one's query with `cursor` set to the `next_cursor` of the
   * previous page, which said to go on.
   */
  lemma {:induction false} QueriesFollowCursors(pages: seq<Result<Json, Failure>>, i: nat, q: Object)
    requires i <= |pages|
    ensures i + |WalkFrom(pages, i, q).queries| <= |pages|
    ensures |WalkFrom(pages, i, q).queries| > 0 ==> WalkFrom(pages, i, q).queries[0] == q
    ensures forall j :: 0 <= j < |WalkFrom(pages, i, q).queries| - 1 ==>
      QueryFollows(WalkFrom(pages, i, q).queries[j], WalkFrom(pages, i, q).queries[j + 1], PageStep(pages[i + j]).1)
    decreases |pages| - i
  {
    CallsWithinPages(pages, i, q);
    if i < |pages| {
      var step := PageStep(pages[i]).1;
      if step.Next? {
        var q' := q[CursorKey := step.cursor];
        QueriesFollowCursors(pages, i + 1, q');
        var w, rest := WalkFrom(pages, i, q), WalkFrom(pages, i + 1, q');
        forall j | 0 <= j < |w.queries| - 1
          ensures QueryFollows(w.queries[j], w.queries[j + 1], PageStep(pages[i + j]).1)
        {
          if j == 0 {
            assert w.queries[0] == q && w.queries[1] == rest.queries[0] == q';
          } else {
            assert w.queries[j] == rest.queries[j - 1] && w.queries[j + 1] == rest.queries[j];
            assert pages[i + j] == pages[(i + 1) + (j - 1)];
          }
        }
      }
    }
  }

  /** No key but `cursor` of any call's query differs from the caller's query. */
  lemma {:induction false} OnlyCursorChanges(pages: seq<Result<Json, Failure>>, i: nat, q: Object)
    requires i <= |pages|
    ensures forall j :: 0 <= j < |WalkFrom(pages, i, q).queries| ==>
      WalkFrom(pages, i, q).queries[j] - {CursorKey} == q - {CursorKey}
    decreases |pages| - i
  {
    if i < |pages| {
      var step := PageStep(pages[i]).1;
      if step.Next? {
        var q' := q[CursorKey := step.cursor];
        OnlyCursorChanges(pages, i + 1, q');
        var w, rest := WalkFrom(pages, i, q), WalkFrom(pages, i + 1, q');
        assert q' - {CursorKey} == q - {CursorKey};
        forall j | 0 <= j < |w.queries|
          ensures w.queries[j] - {CursorKey} == q - {CursorKey}
        {
          if j > 0 {
            assert w.queries[j] == rest.queries[j - 1];
          }
        }
      }
    }
  }

  /** A page payload with these `data` and `paging` values. */
  function Page(data: Json, paging: Json): Result<Json, Failure> {
    Ok(JObj(map["data" := data, "paging" := paging]))
  }

  /** A page that says `has_next` with this cursor. */
  function Paging(cursor: Json): Json {
    JObj(map["has_next" := JBool(true), "next_cursor" := cursor])
  }

  lemma PageFields(data: Json, paging: Json)
    ensures DictGet(Page(data, paging).value.fields, "data") == data
    ensures DictGet(Page(data, paging).value.fields, "paging") == paging
  {
    assert "data"[0] != "paging"[0];
  }

  /** A truthy cursor under `has_next` is the one the walk goes on with. */
  lemma PagingGoesOn(cursor: Json)
    requires Truthy(cursor)
    ensures NextCursor(Paging(cursor).fields) == Some(cursor)
  {
    assert "has_next"[1] != "next_cursor"[1];
  }

  /** `has_next` without a `next_cursor` ends the walk after that page, whatever outcomes follow. */
  lemma HasNextWithoutCursorStops(items: seq<Json>, later: seq<Result<Json, Failure>>, q: Object)
    ensures WalkFrom([Page(JArr(items), JObj(map["has_next" := JBool(true)]))] + later, 0, q) == Walk(items, [q], Finished)
  {
    var paging := map["has_next" := JBool(true)];
    PageFields(JArr(items), JObj(paging));
    assert "has_next"[1] != "next_cursor"[1];
  }

  /** A null `data` yields nothing, and the walk still follows the cursor. */
  lemma NullDataYieldsNothing(q: Object)
    ensures WalkFrom([Page(JNull, Paging(JStr("c"))), Page(JArr([JNum(7)]), JNull)], 0, q) ==
      Walk([JNum(7)], [q, q[CursorKey := JStr("c")]], Finished)
  {
    var pages := [Page(JNull, Paging(JStr("c"))), Page(JArr([JNum(7)]), JNull)];
    PageFields(JNull, Paging(JStr("c")));
    PageFields(JArr([JNum(7)]), JNull);
    PagingGoesOn(JStr("c"));
    assert PageStep(pages[0]) == ([], Next(JStr("c")));
    assert PageStep(pages[1]) == ([JNum(7)], Stop(Finished));
  }

  /**
   * Three pages joined by two cursors: three calls, the second and third
   * with the cursors of the pages before, and the items of all three in order.
   */
  lemma ThreePages(q: Object)
    ensures var pages := [Page(JArr([JNum(1), JNum(2)]), Paging(JStr("c1"))),
                          Page(JArr([JNum(3)]), Paging(JStr("c2"))),
                          Page(JArr([JNum(4)]), JObj(map["has_next" := JBool(false)]))];
      WalkFrom(pages, 0, q) ==
      Walk([JNum(1), JNum(2), JNum(3), JNum(4)], [q, q[CursorKey := JStr("c1")], q[CursorKey := JStr("c2")]], Finished)
  {
    var pages := [Page(JArr([JNum(1), JNum(2)]), Paging(JStr("c1"))),
                  Page(JArr([JNum(3)]), Paging(JStr("c2"))),
                  Page(JArr([JNum(4)]), JObj(map["has_next" := JBool(false)]))];
    PageFields(JArr([JNum(1), JNum(2)]), Paging(JStr("c1")));
    PageFields(JArr([JNum(3)]), Paging(JStr("c2")));
    PageFields(JArr([JNum(4)]), JObj(map["has_next" := JBool(false)]));
    PagingGoesOn(JStr("c1"));
    PagingGoesOn(JStr("c2"));
    assert PageStep(pages[0]) == ([JNum(1), JNum(2)], Next(JStr("c1")));
    assert PageStep(pages[1]) == ([JNum(3)], Next(JStr("c2")));
    assert PageStep(pages[2]) == ([JNum(4)], Stop(Finished));
    assert q[CursorKey := JStr("c1")][CursorKey := JStr("c2")] == q[CursorKey := JStr("c2")];
  }
}
