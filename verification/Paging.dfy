/** Cursor paging: the server's page (backend/src/pagination.ts, getOrders) and the client's loop over
    pages (lib/core/network/pagination.dart, _getAllOrders). */
module Paging {
  import opened Outcomes
  import Paths
  import Text

  datatype Record<T> = Record(id: string, content: T)

  datatype Page<T> = Page(data: seq<Record<T>>, next: Option<string>)

  /** The limit parameter after Number(): absent, an integer, or anything else. */
  datatype Limit = Absent | Whole(n: int) | Unparsable

  function PageSize(limit: Limit): Result<nat> {
    match limit
    case Absent => Ok(50)
    case Whole(n) => if n < 1 || n > 100 then Fail(BadRequest) else Ok(n)
    case Unparsable => Fail(BadRequest)
  }

  /** getOrders clamps instead of refusing. */
  function ClampedSize(limit: Option<int>): (size: nat)
    ensures 1 <= size <= 100
    ensures limit.None? ==> size == 30
    ensures limit.Some? && 1 <= limit.value <= 100 ==> size == limit.value
    ensures limit.Some? && limit.value < 1 ==> size == 1
    ensures limit.Some? && limit.value > 100 ==> size == 100
  {
    var n := limit.GetOr(30);
    if n < 1 then 1 else if n > 100 then 100 else n
  }

  function IndexOf<T(==)>(list: seq<Record<T>>, id: string): (k: nat)
    ensures k <= |list|
    ensures k < |list| ==> list[k].id == id
    ensures forall i :: 0 <= i < k ==> list[i].id != id
  {
    if list == [] || list[0].id == id then 0 else 1 + IndexOf(list[1..], id)
  }

  /** findMany with take, and with skip 1 from a cursor row; an unknown cursor row yields nothing. An
      empty cursor is no cursor. */
  function FindMany<T(==)>(list: seq<Record<T>>, cursor: Option<string>, take: nat): seq<Record<T>> {
    var k := if cursor.None? || cursor.value == "" then 0 else IndexOf(list, cursor.value) + 1;
    var start := if k > |list| then |list| else k;
    var end := if start + take > |list| then |list| else start + take;
    list[start..end]
  }

  /** What a query returns: the first rows without a cursor, the rows after the cursor row with one, and none
      when there is no such row. */
  lemma RowsFollowTheCursor<T>(list: seq<Record<T>>, cursor: Option<string>, take: nat, k: nat)
    requires DistinctIds(list) && k <= |list|
    requires if cursor.None? || cursor.value == "" then k == 0 else k > 0 && list[k - 1].id == cursor.value
    ensures FindMany(list, cursor, take) == if k + take <= |list| then list[k..k + take] else list[k..]
  {
    if k > 0 {
      DistinctIndex(list, k - 1);
    }
  }

  lemma UnknownCursorFindsNothing<T>(list: seq<Record<T>>, cursor: string, take: nat)
    requires cursor != "" && forall i :: 0 <= i < |list| ==> list[i].id != cursor
    ensures FindMany(list, Some(cursor), take) == []
  {
  }

  /** pageResult: one row more than the size was asked for, and is popped. */
  method PageResult<T>(found: seq<Record<T>>, size: nat) returns (page: Page<T>)
    requires 1 <= size
    ensures page.data == if |found| > size then found[..|found| - 1] else found
    ensures page.next == if |found| > size then Some(found[|found| - 2].id) else None
  {
    var rows := found;
    var hasNext := |rows| > size;
    if hasNext {
      rows := rows[..|rows| - 1];
    }
    page := Page(rows, if hasNext then Some(rows[|rows| - 1].id) else None);
  }

  method ServePage<T(==)>(list: seq<Record<T>>, size: nat, cursor: Option<string>) returns (page: Page<T>)
    requires 1 <= size
    ensures var found := FindMany(list, cursor, size + 1);
      && page.data == (if |found| > size then found[..|found| - 1] else found)
      && page.next == (if |found| > size then Some(found[|found| - 2].id) else None)
  {
    var rows := FindMany(list, cursor, size + 1);
    page := PageResult(rows, size);
  }

  /** The statuses a query asks for: comma-separated, trimmed, blanks dropped. */
  function Statuses(query: Option<string>): seq<string> {
    if query.None? || Text.Trim(query.value) == "" then [] else NonBlank(Paths.Split(query.value, ','))
  }

  function NonBlank(parts: seq<string>): seq<string> {
    if parts == [] then
      []
    else
      (if Text.Trim(parts[0]) == "" then [] else [Text.Trim(parts[0])]) + NonBlank(parts[1..])
  }

  /** The rows in one of the statuses, or all rows when none is asked for. */
  function WithStatus<T>(list: seq<Record<T>>, statuses: seq<string>, statusOf: T -> string): seq<Record<T>> {
    if list == [] || statuses == [] then
      list
    else
      (if statusOf(list[0].content) in statuses then [list[0]] else []) + WithStatus(list[1..], statuses, statusOf)
  }

  function Joined(statuses: seq<string>): string {
    if |statuses| == 0 then "" else if |statuses| == 1 then statuses[0] else statuses[0] + [','] + Joined(statuses[1..])
  }

  lemma {:induction false} SplitJoined(parts: seq<string>)
    requires parts != [] && forall i :: 0 <= i < |parts| ==> ',' !in parts[i]
    ensures Paths.Split(Joined(parts), ',') == parts
  {
    if |parts| == 1 {
      Paths.SplitWithoutSeparator(parts[0], ',');
    } else {
      Paths.SplitAtSeparator(parts[0], Joined(parts[1..]), ',');
      SplitJoined(parts[1..]);
    }
  }

  lemma {:induction false} NonBlankMembers(parts: seq<string>, status: string)
    ensures status in NonBlank(parts) <==> status != "" && exists i :: 0 <= i < |parts| && Text.Trim(parts[i]) == status
  {
    if parts != [] {
      NonBlankMembers(parts[1..], status);
      if i :| 0 <= i < |parts[1..]| && Text.Trim(parts[1..][i]) == status {
        assert Text.Trim(parts[i + 1]) == status;
      }
      if i :| 0 < i < |parts| && Text.Trim(parts[i]) == status {
        assert Text.Trim(parts[1..][i - 1]) == status;
      }
    }
  }

  lemma BlankIsAllSpaces(s: string, c: char)
    requires Text.Trim(s) == "" && c in s
    ensures c in {' ', '\t', '\n', '\r'}
  {
    var before, after := Text.TrimIsExact(s);
    assert s == before + after;
  }

  /** A query asks exactly for what stands between its commas, without the spaces around it, unless that
      is nothing. */
  lemma StatusesAreRead(parts: seq<string>, status: string)
    requires parts != [] && forall i :: 0 <= i < |parts| ==> ',' !in parts[i]
    ensures status in Statuses(Some(Joined(parts))) <==>
            status != "" && exists i :: 0 <= i < |parts| && Text.Trim(parts[i]) == status
  {
    var s := Joined(parts);
    SplitJoined(parts);
    NonBlankMembers(parts, status);
    if |parts| > 1 && Text.Trim(s) == "" {
      assert s[|parts[0]|] == ',' && ',' in s;
      BlankIsAllSpaces(s, ',');
    }
  }

  /** The page is what follows the cursor, or a full page of it with more to come, named by its last row. */
  predicate IsPageOf<T(==)>(page: Page<T>, rest: seq<Record<T>>, size: nat) {
    if |rest| <= size then
      page == Page(rest, None)
    else
      size > 0 && page == Page(rest[..size], Some(rest[size - 1].id))
  }

  lemma ServedIsPage<T>(list: seq<Record<T>>, size: nat, cursor: Option<string>, page: Page<T>)
    requires 1 <= size
    requires var found := FindMany(list, cursor, size + 1);
      && page.data == (if |found| > size then found[..|found| - 1] else found)
      && page.next == (if |found| > size then Some(found[|found| - 2].id) else None)
    ensures IsPageOf(page, FindMany(list, cursor, |list|), size)
  {
    var rest, found := FindMany(list, cursor, |list|), FindMany(list, cursor, size + 1);
    if |rest| <= size {
      assert found == rest;
    } else {
      assert found == rest[..size + 1] && found[..size] == rest[..size];
    }
  }

  /** getOrders: the limit is clamped, and one row more than that is fetched and popped. */
  method GetOrders<T(==)>(list: seq<Record<T>>, statusOf: T -> string, status: Option<string>, limit: Option<int>,
                          cursor: Option<string>) returns (page: Page<T>)
    ensures var rows := WithStatus(list, Statuses(status), statusOf);
      IsPageOf(page, FindMany(rows, cursor, |rows|), ClampedSize(limit))
  {
    var rows, take := WithStatus(list, Statuses(status), statusOf), ClampedSize(limit);
    page := ServePage(rows, take, cursor);
    ServedIsPage(rows, take, cursor, page);
  }

  /** The filter keeps exactly the rows in one of the statuses asked for, in their order. */
  lemma {:induction false} FilterIsExact<T>(list: seq<Record<T>>, statuses: seq<string>, statusOf: T -> string,
      r: Record<T>)
    ensures r in WithStatus(list, statuses, statusOf) <==>
            r in list && (statuses == [] || statusOf(r.content) in statuses)
  {
    if list != [] && statuses != [] {
      FilterIsExact(list[1..], statuses, statusOf, r);
      assert list == [list[0]] + list[1..];
    }
  }

  /** A list endpoint: pageArgs refuses exactly the limits that are not integers from 1 to 100. */
  method ListPage<T(==)>(list: seq<Record<T>>, limit: Limit, cursor: Option<string>) returns (r: Result<Page<T>>)
    ensures r.Ok? <==> limit.Absent? || (limit.Whole? && 1 <= limit.n <= 100)
    ensures r.Fail? ==> r.error == BadRequest
    ensures r.Ok? ==> IsPageOf(r.value, FindMany(list, cursor, |list|), if limit.Whole? then limit.n else 50)
  {
    var size := PageSize(limit);
    if size.Fail? {
      return Fail(size.error);
    }
    var page := ServePage(list, size.value, cursor);
    ServedIsPage(list, size.value, cursor, page);
    return Ok(page);
  }

  predicate DistinctIds<T>(list: seq<Record<T>>) {
    && (forall i :: 0 <= i < |list| ==> list[i].id != "")
    && (forall i, j :: 0 <= i < j < |list| ==> list[i].id != list[j].id)
  }

  predicate IsSuffix<T(==)>(a: seq<T>, b: seq<T>) {
    |a| <= |b| && b[|b| - |a|..] == a
  }

  /** The list may gain rows at its front between requests, as new orders do; it loses none. */
  ghost predicate OnlyGrowsInFront<T(!new)>(lists: nat -> seq<Record<T>>) {
    && (forall r: nat :: DistinctIds(lists(r)))
    && (forall r: nat :: IsSuffix(lists(r), lists(r + 1)))
  }

  lemma {:induction false} GrownInFront<T(!new)>(lists: nat -> seq<Record<T>>, r: nat)
    requires OnlyGrowsInFront(lists)
    ensures IsSuffix(lists(0), lists(r))
  {
    if r > 0 {
      GrownInFront(lists, r - 1);
      var a, b, c := lists(0), lists(r - 1), lists(r - 1 + 1);
      assert IsSuffix(b, c);
      assert c[|c| - |a|..] == c[|c| - |b|..][|b| - |a|..];
    }
  }

  lemma DistinctIndex<T>(list: seq<Record<T>>, k: nat)
    requires DistinctIds(list) && k < |list|
    ensures IndexOf(list, list[k].id) == k
  {
  }

  /** A page after row `pos - 1` of the first list is the next stretch of the first list, whatever was
      added in front since. */
  lemma PageAfter<T(!new)>(lists: nat -> seq<Record<T>>, r: nat, pos: nat, size: nat)
    requires OnlyGrowsInFront(lists) && 1 <= size && 1 <= pos <= |lists(0)|
    ensures var all := lists(0);
      FindMany(lists(r), Some(all[pos - 1].id), size + 1) ==
          all[pos..if pos + size + 1 > |all| then |all| else pos + size + 1]
  {
    var all, now := lists(0), lists(r);
    GrownInFront(lists, r);
    var k := |now| - |all| + pos - 1;
    assert now[k] == now[|now| - |all|..][pos - 1];
    DistinctIndex(now, k);
    var end := if pos + size + 1 > |all| then |all| else pos + size + 1;
    assert now[k + 1..|now| - |all| + end] == now[|now| - |all|..][pos..end];
  }

  /** What one request adds: the next stretch of the first list, and whether more is to come. */
  lemma NextPage<T(!new)>(lists: nat -> seq<Record<T>>, r: nat, pos: nat, size: nat, cursor: Option<string>,
      page: Page<T>)
    requires OnlyGrowsInFront(lists) && 1 <= size && pos <= |lists(0)|
    requires if pos == 0 then r == 0 && cursor == None else cursor == Some(lists(0)[pos - 1].id)
    requires var found := FindMany(lists(r), cursor, size + 1);
      && page.data == (if |found| > size then found[..|found| - 1] else found)
      && page.next == (if |found| > size then Some(found[|found| - 2].id) else None)
    ensures var all := lists(0);
      if pos + size < |all| then
        all[..pos] + page.data == all[..pos + size] && page.next == Some(all[pos + size - 1].id)
      else
        all[..pos] + page.data == all && page.next == None
  {
    var all := lists(0);
    var found := FindMany(lists(r), cursor, size + 1);
    if pos > 0 {
      PageAfter(lists, r, pos, size);
    }
    assert found == all[pos..Least(pos + size + 1, |all|)];
    if pos + size < |all| {
      assert found[..size] == all[pos..pos + size];
      assert all[..pos] + all[pos..pos + size] == all[..pos + size];
    }
  }

  lemma ProductGrows(a: int, b: int, d: int)
    requires a <= b && d > 0
    ensures a * d <= b * d
  {
    assert (b - a) * d >= 0;
  }

  lemma QuotientOf(x: int, d: int, q: int)
    requires d > 0 && q * d <= x < q * d + d
    ensures x / d == q
  {
    var p := x / d;
    assert p * d <= x < p * d + d;
    if p > q {
      ProductGrows(q + 1, p, d);
    } else if p < q {
      ProductGrows(p + 1, q, d);
    }
  }

  function Requests(n: nat, size: nat): nat
    requires 1 <= size
  {
    if n == 0 then 1 else (n + size - 1) / size
  }

  lemma RequestsAre(n: nat, size: nat, full: nat)
    requires 1 <= size && full * size <= n <= full * size + size && (full > 0 ==> full * size < n)
    ensures Requests(n, size) == full + 1
  {
    if n > 0 {
      QuotientOf(n + size - 1, size, full + 1);
    }
  }

  /** getAllPages and _getAllOrders: the pages add up to the list as it was at the first request, with
      no gap and no duplicate, in max(1, n/size rounded up) requests. */
  method GetAllPages<T(==, !new)>(lists: nat -> seq<Record<T>>, size: nat)
    returns (items: seq<Record<T>>, requests: nat)
    requires OnlyGrowsInFront(lists) && 1 <= size
    ensures items == lists(0)
    ensures requests == Requests(|lists(0)|, size)
  {
    hide FindMany, OnlyGrowsInFront, Requests;
    items, requests := [], 0;
    ghost var all, pos: nat := lists(0), 0;
    var cursor: Option<string>, more := None, true;
    while more
      invariant more ==> pos == requests * size && pos <= |all| && items == all[..pos]
      invariant more && requests > 0 ==> 0 < pos < |all|
      invariant more ==> cursor == if requests == 0 then None else Some(all[pos - 1].id)
      invariant !more ==> items == all && requests == Requests(|all|, size)
      decreases more, |all| - pos
    {
      var page := ServePage(lists(requests), size, cursor);
      NextPage(lists, requests, pos, size, cursor, page);
      items := items + page.data;
      cursor := page.next;
      more := cursor.Some?;
      if more {
        pos := pos + size;
      } else {
        RequestsAre(|all|, size, requests);
      }
      requests := requests + 1;
    }
  }
}
