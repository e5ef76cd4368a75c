/**
 * `MerchantService.searchMerchants`: keyset pagination over the merchants
 * table. One page is fetched in id order after the cursor, one row more
 * than the limit to learn whether more follow; the page is then sorted as
 * asked, optionally cut to a radius, and answered with the cursor for the
 * next page.
 *
 * The user's coordinates, the haversine distance and its text form are
 * handed in; floating point is real arithmetic here.
 */
module MerchantSearch {
  import opened Common
  import opened Sorting

  /** A `merchants` row with its category and brand already fetched. */
  datatype Merchant = Merchant(
    id: int,
    name: Option<string>,
    brandId: Option<int>,
    brandName: Option<string>,
    categoryId: Option<int>,
    categoryName: Option<string>,
    address: Option<string>,
    lat: Option<real>,
    lng: Option<real>,
    kakaoPlaceId: Option<string>)

  /** `MerchantSearchRequest`. */
  datatype SearchRequest = SearchRequest(
    keyword: Option<string>,
    categoryId: Option<int>,
    lastId: Option<int>,
    limit: Option<Int32>,
    sortBy: Option<string>,
    maxDistanceKm: Option<real>)

  /** `MerchantSearchResponse.MerchantInfo`. */
  datatype MerchantInfo = MerchantInfo(
    id: int,
    name: Option<string>,
    brandId: Option<int>,
    categoryId: Option<int>,
    categoryName: Option<string>,
    address: Option<string>,
    lat: Option<real>,
    lng: Option<real>,
    kakaoPlaceId: Option<string>,
    distanceMeters: Option<real>,
    distanceText: Option<string>)

  datatype SearchResponse = SearchResponse(merchants: seq<MerchantInfo>, hasMore: bool, lastId: Option<int>)

  /** What is handed in for distances: the user's position, the haversine metres and their text. */
  datatype Geo = Geo(userLat: Option<real>, userLng: Option<real>, haversine: (real, real, real, real) -> real, format: real -> string)

  const DEFAULT_LIMIT: int := 20

  // ---------------------------------------------------------------------------
  // Parameter normalisation
  // ---------------------------------------------------------------------------

  /** `sanitizeKeyword`: trimmed, and null when nothing is left. */
  function SanitizeKeyword(keyword: Option<string>): (r: Option<string>)
    ensures r.None? <==> keyword.None? || Trim(keyword.value) == []
    ensures r.Some? ==> r.value == Trim(keyword.value) && r.value[0] > ' ' && r.value[|r.value| - 1] > ' '
  {
    if keyword.None? then None
    else
      var t := Trim(keyword.value);
      if t == [] then None else Some(t)
  }

  /** Text without surrounding blanks is its own trim. */
  lemma TrimFixed(s: string)
    requires s != [] && s[0] > ' ' && s[|s| - 1] > ' '
    ensures Trim(s) == s
  {
    assert TrimStartIndex(s) == 0;
    assert TrimEndIndex(s, 0) == |s|;
  }

  /** A sanitized keyword sanitizes to itself. */
  lemma SanitizeIdempotent(keyword: Option<string>)
    ensures SanitizeKeyword(SanitizeKeyword(keyword)) == SanitizeKeyword(keyword)
  {
    var r := SanitizeKeyword(keyword);
    if r.Some? {
      TrimFixed(r.value);
    }
  }

  /** A null or non-positive cursor means the first page. */
  function EffectiveLastId(lastId: Option<int>): (r: Option<int>)
    ensures r.Some? <==> lastId.Some? && lastId.value > 0
    ensures r.Some? ==> r == lastId
  {
    if lastId.Some? && lastId.value > 0 then lastId else None
  }

  /** A null or non-positive limit means 20. */
  function EffectiveLimit(limit: Option<Int32>): (r: int)
    ensures r > 0
    ensures limit.Some? && limit.value > 0 ==> r == limit.value
    ensures limit.None? || limit.value <= 0 ==> r == DEFAULT_LIMIT
  {
    if limit.Some? && limit.value > 0 then limit.value else DEFAULT_LIMIT
  }

  // ---------------------------------------------------------------------------
  // The repository query
  // ---------------------------------------------------------------------------

  datatype Query = Query(keyword: Option<string>, categoryId: Option<int>, lastId: Option<int>)

  /** `LOWER(field) LIKE LOWER('%' || keyword || '%')`; a null field never matches. */
  predicate LikeIgnoreCase(field: Option<string>, keyword: string)
  {
    field.Some? && ContainsSubstring(Lower(field.value), Lower(keyword))
  }

  /** The `WHERE` clause of `findMerchants`. */
  predicate Matches(m: Merchant, q: Query)
  {
    && (q.keyword.None? || LikeIgnoreCase(m.name, q.keyword.value) || LikeIgnoreCase(m.brandName, q.keyword.value))
    && (q.categoryId.None? || m.categoryId == q.categoryId)
    && (q.lastId.None? || m.id > q.lastId.value)
  }

  /** The merchants table in id order: ids are positive and strictly increasing. */
  predicate IdOrdered(table: seq<Merchant>)
  {
    && (forall i :: 0 <= i < |table| ==> table[i].id > 0)
    && (forall i, j :: 0 <= i < j < |table| ==> table[i].id < table[j].id)
  }

  /** Every row matching the query, in id order. */
  function Matching(table: seq<Merchant>, q: Query): (r: seq<Merchant>)
    ensures |r| <= |table|
  {
    if table == [] then []
    else (if Matches(table[0], q) then [table[0]] else []) + Matching(table[1..], q)
  }

  /** `findMerchants(..., PageRequest.of(0, size))`: the first `size` matching rows. */
  function FindMerchants(table: seq<Merchant>, q: Query, size: nat): (r: seq<Merchant>)
    ensures |r| == Min(size, |Matching(table, q)|)
    ensures r == Matching(table, q)[..|r|]
  {
    Matching(table, q)[..Min(size, |Matching(table, q)|)]
  }

  function Min(a: int, b: int): int
  {
    if a <= b then a else b
  }

  /** Every match is a row of the table that passes the clause. */
  lemma {:induction false} MatchingSound(table: seq<Merchant>, q: Query, m: Merchant)
    requires m in Matching(table, q)
    ensures m in table && Matches(m, q)
    decreases |table|
  {
    if m != table[0] || !Matches(table[0], q) {
      MatchingSound(table[1..], q, m);
    }
  }

  /** Every row of the table that passes the clause is among the matches. */
  lemma {:induction false} MatchingComplete(table: seq<Merchant>, q: Query, m: Merchant)
    requires m in table && Matches(m, q)
    ensures m in Matching(table, q)
    decreases |table|
  {
    if m != table[0] {
      MatchingComplete(table[1..], q, m);
    }
  }

  lemma {:induction false} IdOrderedTail(table: seq<Merchant>)
    requires table != [] && IdOrdered(table)
    ensures IdOrdered(table[1..])
    ensures forall k :: 0 <= k < |table[1..]| ==> table[0].id < table[1..][k].id
  {
    forall i, j | 0 <= i < j < |table[1..]| ensures table[1..][i].id < table[1..][j].id {
      assert table[1..][i] == table[i + 1] && table[1..][j] == table[j + 1];
    }
    forall k | 0 <= k < |table[1..]| ensures 0 < table[1..][k].id && table[0].id < table[1..][k].id {
      assert table[1..][k] == table[k + 1];
    }
  }

  /** The matches keep the table's id order. */
  lemma {:induction false} MatchingOrdered(table: seq<Merchant>, q: Query)
    requires IdOrdered(table)
    ensures IdOrdered(Matching(table, q))
    decreases |table|
  {
    if table != [] {
      IdOrderedTail(table);
      MatchingOrdered(table[1..], q);
      var rest := Matching(table[1..], q);
      if Matches(table[0], q) {
        var r := [table[0]] + rest;
        assert Matching(table, q) == r;
        forall k | 0 <= k < |rest| ensures table[0].id < rest[k].id {
          assert rest[k] in rest;
          MatchingSound(table[1..], q, rest[k]);
          var j :| 0 <= j < |table[1..]| && table[1..][j] == rest[k];
        }
        forall i | 0 <= i < |r| ensures r[i].id > 0 {
          if i > 0 {
            assert r[i] == rest[i - 1];
          }
        }
        forall i, j | 0 <= i < j < |r| ensures r[i].id < r[j].id {
          if i == 0 {
            assert r[j] == rest[j - 1];
          } else {
            assert r[i] == rest[i - 1] && r[j] == rest[j - 1];
          }
        }
      }
    }
  }

  // ---------------------------------------------------------------------------
  // Building and ordering the answer
  // ---------------------------------------------------------------------------

  predicate CanComputeDistance(geo: Geo)
  {
    geo.userLat.Some? && geo.userLng.Some?
  }

  /** One row of the answer; the distance is filled when both ends have coordinates. */
  function Info(m: Merchant, geo: Geo): (r: MerchantInfo)
    ensures r.id == m.id && r.name == m.name
    ensures r.distanceMeters.Some? <==> CanComputeDistance(geo) && m.lat.Some? && m.lng.Some?
    ensures r.distanceText.Some? <==> r.distanceMeters.Some?
  {
    var d := if CanComputeDistance(geo) && m.lat.Some? && m.lng.Some?
             then Some(geo.haversine(geo.userLat.value, geo.userLng.value, m.lat.value, m.lng.value))
             else None;
    MerchantInfo(m.id, m.name, m.brandId, m.categoryId, m.categoryName, m.address, m.lat, m.lng, m.kakaoPlaceId,
                 d, if d.Some? then Some(geo.format(d.value)) else None)
  }

  function Infos(rows: seq<Merchant>, geo: Geo): (r: seq<MerchantInfo>)
    ensures |r| == |rows| && forall k :: 0 <= k < |rows| ==> r[k] == Info(rows[k], geo)
  {
    seq(|rows|, k requires 0 <= k < |rows| => Info(rows[k], geo))
  }

  /** `Comparator.comparing(MerchantInfo::getId)`. */
  predicate ById(a: MerchantInfo, b: MerchantInfo)
  {
    a.id <= b.id
  }

  /** `nullsLast(String::compareToIgnoreCase)` on the names, with ASCII case folding. */
  predicate ByName(a: MerchantInfo, b: MerchantInfo)
  {
    if a.name.None? then b.name.None?
    else b.name.None? || StringLe(Lower(a.name.value), Lower(b.name.value))
  }

  /** `nullsLast(Double::compareTo)` on the distances. */
  predicate ByDistance(a: MerchantInfo, b: MerchantInfo)
  {
    if a.distanceMeters.None? then b.distanceMeters.None?
    else b.distanceMeters.None? || a.distanceMeters.value <= b.distanceMeters.value
  }

  lemma OrdersArePreorders()
    ensures IsTotalPreorder(ById) && IsTotalPreorder(ByName) && IsTotalPreorder(ByDistance)
  {
    forall a: MerchantInfo, b: MerchantInfo ensures ByName(a, b) || ByName(b, a) {
      if a.name.Some? && b.name.Some? {
        StringLeTotal(Lower(a.name.value), Lower(b.name.value));
      }
    }
    forall a: MerchantInfo, b: MerchantInfo, c: MerchantInfo | ByName(a, b) && ByName(b, c) ensures ByName(a, c) {
      if a.name.Some? && b.name.Some? && c.name.Some? {
        StringLeTransitive(Lower(a.name.value), Lower(b.name.value), Lower(c.name.value));
      }
    }
  }

  datatype SortOrder = IdOrder | NameOrder | DistanceOrder

  /** `sortBy`, default "id", matched ignoring case; "distance" without the user's position sorts by name. */
  function OrderOf(sortBy: Option<string>, geo: Geo): (r: SortOrder)
    ensures r == DistanceOrder <==> EqualsIgnoreCase(sortBy.GetOr("id"), "distance") && CanComputeDistance(geo)
    ensures r == IdOrder <==> !EqualsIgnoreCase(sortBy.GetOr("id"), "distance") && !EqualsIgnoreCase(sortBy.GetOr("id"), "name")
  {
    var s := sortBy.GetOr("id");
    if EqualsIgnoreCase(s, "distance") then (if CanComputeDistance(geo) then DistanceOrder else NameOrder)
    else if EqualsIgnoreCase(s, "name") then NameOrder
    else IdOrder
  }

  function LeOf(order: SortOrder): (MerchantInfo, MerchantInfo) -> bool
  {
    match order
    case IdOrder => ById
    case NameOrder => ByName
    case DistanceOrder => ByDistance
  }

  /** The radius filter: kept when the distance is known and within `maxDistanceKm` kilometres. */
  function WithinRadius(infos: seq<MerchantInfo>, maxMeters: real): (r: seq<MerchantInfo>)
    ensures forall i :: i in r <==> i in infos && i.distanceMeters.Some? && i.distanceMeters.value <= maxMeters
    ensures |r| <= |infos|
  {
    if infos == [] then []
    else
      assert forall i :: i in infos <==> i == infos[0] || i in infos[1..];
      (if infos[0].distanceMeters.Some? && infos[0].distanceMeters.value <= maxMeters then [infos[0]] else [])
      + WithinRadius(infos[1..], maxMeters)
  }

  function QueryOf(req: SearchRequest): Query
  {
    Query(SanitizeKeyword(req.keyword), req.categoryId, EffectiveLastId(req.lastId))
  }

  /** The rows a page keeps, in id order, and whether more follow. */
  datatype Fetched = Fetched(kept: seq<Merchant>, hasMore: bool)

  /**
   * Why the service throws instead of answering a page: `PageRequest.of`
   * refuses a page size below one with an `IllegalArgumentException`.
   */
  datatype SearchFailure = PageSizeRefused

  /**
   * `PageRequest.of(0, limit + 1)`: the `int` sum wraps for a limit of
   * 2147483647, and a page size below one is refused.
   */
  function PageSize(req: SearchRequest): (r: Result<int, SearchFailure>)
    ensures r.Err? <==> EffectiveLimit(req.limit) == INT_MAX
    ensures r.Ok? ==> r.value == EffectiveLimit(req.limit) + 1
  {
    var size := Wrap32(EffectiveLimit(req.limit) + 1);
    if size < 1 then Err(PageSizeRefused) else Ok(size)
  }

  /** One row more than the limit is fetched; more follow when it came back, and it is dropped. */
  function Fetch(table: seq<Merchant>, req: SearchRequest): (f: Fetched)
    requires PageSize(req).Ok?
    ensures f.hasMore <==> |Matching(table, QueryOf(req))| > EffectiveLimit(req.limit)
    ensures |f.kept| == Min(EffectiveLimit(req.limit), |Matching(table, QueryOf(req))|)
    ensures f.kept == Matching(table, QueryOf(req))[..|f.kept|]
  {
    var limit := EffectiveLimit(req.limit);
    var rows := FindMerchants(table, QueryOf(req), limit + 1);
    var hasMore := |rows| > limit;
    Fetched(if hasMore then rows[..limit] else rows, hasMore)
  }

  /** The kept rows as answered: sorted as asked, then cut to the radius when one applies. */
  function Shown(kept: seq<Merchant>, req: SearchRequest, geo: Geo): seq<MerchantInfo>
  {
    var sorted := Sort(Infos(kept, geo), LeOf(OrderOf(req.sortBy, geo)));
    if req.maxDistanceKm.Some? && CanComputeDistance(geo) then WithinRadius(sorted, req.maxDistanceKm.value * 1000.0)
    else sorted
  }

  /** The last element's id, or null for an empty list. */
  function LastIdOf(infos: seq<MerchantInfo>): (r: Option<int>)
    ensures r.None? <==> infos == []
    ensures r.Some? ==> r.value == infos[|infos| - 1].id
  {
    if infos == [] then None else Some(infos[|infos| - 1].id)
  }

  /** `searchMerchants` as written: the cursor is the id of the last merchant of the sorted, filtered answer. */
  function SearchAsWritten(table: seq<Merchant>, req: SearchRequest, geo: Geo): (r: Result<SearchResponse, SearchFailure>)
    ensures r.Err? <==> PageSize(req).Err?
    ensures r.Ok? ==> var f := Fetch(table, req);
      r.value.merchants == Shown(f.kept, req, geo) && r.value.hasMore == f.hasMore && r.value.lastId == LastIdOf(r.value.merchants)
  {
    match PageSize(req)
    case Err(failure) => Err(failure)
    case Ok(_) =>
      var f := Fetch(table, req);
      var shown := Shown(f.kept, req, geo);
      Ok(SearchResponse(shown, f.hasMore, LastIdOf(shown)))
  }

  /** The cursor the query needs: the id of the last row kept, which is the largest id fetched for the page. */
  function NextCursor(f: Fetched): (r: Option<int>)
    ensures r.None? <==> f.kept == []
    ensures r.Some? ==> r.value == f.kept[|f.kept| - 1].id
  {
    if f.kept == [] then None else Some(f.kept[|f.kept| - 1].id)
  }

  /** `searchMerchants` with the corrected cursor. */
  function Search(table: seq<Merchant>, req: SearchRequest, geo: Geo): (r: Result<SearchResponse, SearchFailure>)
    ensures r.Err? <==> PageSize(req).Err?
    ensures r.Ok? ==> var f := Fetch(table, req);
      r.value.merchants == Shown(f.kept, req, geo) && r.value.hasMore == f.hasMore && r.value.lastId == NextCursor(f)
  {
    match PageSize(req)
    case Err(failure) => Err(failure)
    case Ok(_) =>
      var f := Fetch(table, req);
      Ok(SearchResponse(Shown(f.kept, req, geo), f.hasMore, NextCursor(f)))
  }

  /** Only the largest `int` limit makes the service throw; every other request gets a page of at most its limit. */
  lemma LargestLimitRefused(table: seq<Merchant>, req: SearchRequest, geo: Geo)
    ensures req.limit == Some(INT_MAX) ==>
      Search(table, req, geo) == Err(PageSizeRefused) && SearchAsWritten(table, req, geo) == Err(PageSizeRefused)
    ensures req.limit != Some(INT_MAX) ==>
      && Search(table, req, geo).Ok? && SearchAsWritten(table, req, geo).Ok?
      && |Search(table, req, geo).value.merchants| <= EffectiveLimit(req.limit)
  {
    if req.limit != Some(INT_MAX) {
      PageShape(table, req, geo);
    }
  }

  // ---------------------------------------------------------------------------
  // What a page promises
  // ---------------------------------------------------------------------------

  /**
   * The answer is made of the kept rows only: sorted as asked and holding
   * each of them once when no radius applies; with a radius and a known
   * position, only rows within it.
   */
  lemma ShownShape(kept: seq<Merchant>, req: SearchRequest, geo: Geo)
    ensures var shown := Shown(kept, req, geo);
      && |shown| <= |kept|
      && (forall i :: i in shown ==> exists k :: 0 <= k < |kept| && i == Info(kept[k], geo))
      && (req.maxDistanceKm.None? || !CanComputeDistance(geo) ==>
            && multiset(shown) == multiset(Infos(kept, geo))
            && Sorted(shown, LeOf(OrderOf(req.sortBy, geo))))
      && (req.maxDistanceKm.Some? && CanComputeDistance(geo) ==>
            forall i :: i in shown ==> i.distanceMeters.Some? && i.distanceMeters.value <= req.maxDistanceKm.value * 1000.0)
  {
    var infos := Infos(kept, geo);
    var le := LeOf(OrderOf(req.sortBy, geo));
    var sorted := Sort(infos, le);
    OrdersArePreorders();
    SortSorted(infos, le);
    forall i | i in sorted ensures exists k :: 0 <= k < |kept| && i == Info(kept[k], geo) {
      assert i in multiset(sorted);
      assert i in multiset(infos);
      var k :| 0 <= k < |infos| && infos[k] == i;
    }
  }

  /** Every merchant answered is a match of the query, and there are at most `limit` of them. */
  lemma PageShape(table: seq<Merchant>, req: SearchRequest, geo: Geo)
    requires PageSize(req).Ok?
    ensures var shown := Shown(Fetch(table, req).kept, req, geo);
      && |shown| <= EffectiveLimit(req.limit)
      && forall i :: i in shown ==> exists m :: m in table && Matches(m, QueryOf(req)) && i == Info(m, geo)
  {
    var kept := Fetch(table, req).kept;
    var shown := Shown(kept, req, geo);
    ShownShape(kept, req, geo);
    forall i | i in shown ensures exists m :: m in table && Matches(m, QueryOf(req)) && i == Info(m, geo) {
      var k :| 0 <= k < |kept| && i == Info(kept[k], geo);
      KeptMatch(table, req, k);
    }
  }

  lemma KeptMatch(table: seq<Merchant>, req: SearchRequest, k: nat)
    requires PageSize(req).Ok?
    requires k < |Fetch(table, req).kept|
    ensures Fetch(table, req).kept[k] in table && Matches(Fetch(table, req).kept[k], QueryOf(req))
  {
    var kept, all := Fetch(table, req).kept, Matching(table, QueryOf(req));
    assert kept[k] == all[k];
    MatchingSound(table, QueryOf(req), all[k]);
  }

  /**
   * With the corrected cursor the pages tile the matches: this page's rows
   * followed by every match the next request (same filters, the returned
   * cursor) can fetch are all the matches, so nothing repeats and nothing
   * is skipped.
   */
  lemma PagesTile(table: seq<Merchant>, req: SearchRequest)
    requires PageSize(req).Ok?
    requires IdOrdered(table)
    requires NextCursor(Fetch(table, req)).Some?
    ensures var next := req.(lastId := NextCursor(Fetch(table, req)));
      Matching(table, QueryOf(req)) == Fetch(table, req).kept + Matching(table, QueryOf(next))
  {
    var q := QueryOf(req);
    var all := Matching(table, q);
    var kept := Fetch(table, req).kept;
    var c := kept[|kept| - 1].id;
    LastKept(table, req);
    assert QueryOf(req.(lastId := Some(c))) == q.(lastId := Some(c));
    MatchingAbove(table, q, c);
    TileAt(all, kept);
  }

  /** In id order, a prefix followed by the rows above its last id is the whole list. */
  lemma TileAt(all: seq<Merchant>, kept: seq<Merchant>)
    requires IdOrdered(all) && kept != [] && |kept| <= |all| && kept == all[..|kept|]
    ensures all == kept + Above(all, kept[|kept| - 1].id)
  {
    assert kept[|kept| - 1] == all[|kept| - 1];
    AboveSuffix(all, |kept| - 1);
    assert all == all[..|kept|] + all[|kept|..];
  }

  /** The last row kept lies above the request's cursor and is itself a usable cursor. */
  lemma LastKept(table: seq<Merchant>, req: SearchRequest)
    requires PageSize(req).Ok?
    requires IdOrdered(table) && Fetch(table, req).kept != []
    ensures var q, kept := QueryOf(req), Fetch(table, req).kept;
      && IdOrdered(Matching(table, q))
      && kept[|kept| - 1] == Matching(table, q)[|kept| - 1]
      && kept[|kept| - 1].id > 0
      && (q.lastId.Some? ==> q.lastId.value < kept[|kept| - 1].id)
  {
    var q := QueryOf(req);
    var all := Matching(table, q);
    var kept := Fetch(table, req).kept;
    MatchingOrdered(table, q);
    assert all[|kept| - 1] == kept[|kept| - 1];
    assert all[|kept| - 1] in all;
    MatchingSound(table, q, all[|kept| - 1]);
  }

  /** The rows of `s` with an id above `c`. */
  function Above(s: seq<Merchant>, c: int): seq<Merchant>
  {
    if s == [] then [] else (if s[0].id > c then [s[0]] else []) + Above(s[1..], c)
  }

  /** Moving the cursor up to `c` keeps, of the matches, those above `c`. */
  lemma {:induction false} MatchingAbove(table: seq<Merchant>, q: Query, c: int)
    requires q.lastId.None? || q.lastId.value <= c
    ensures Matching(table, q.(lastId := Some(c))) == Above(Matching(table, q), c)
    decreases |table|
  {
    if table != [] {
      MatchingAbove(table[1..], q, c);
      var rest := Matching(table[1..], q);
      var q' := q.(lastId := Some(c));
      assert Matches(table[0], q') <==> Matches(table[0], q) && table[0].id > c;
      assert Matching(table, q') == (if Matches(table[0], q') then [table[0]] else []) + Matching(table[1..], q');
      if Matches(table[0], q) {
        var r := [table[0]] + rest;
        assert Matching(table, q) == r;
        assert r[0] == table[0] && r[1..] == rest;
        assert Above(r, c) == (if table[0].id > c then [table[0]] else []) + Above(rest, c);
      } else {
        assert Matching(table, q) == rest;
        assert Matching(table, q') == Matching(table[1..], q');
      }
    }
  }

  /** In id order, the rows above the `k`-th row's id are the rows after it. */
  lemma {:induction false} AboveSuffix(s: seq<Merchant>, k: nat)
    requires IdOrdered(s) && k < |s|
    ensures Above(s, s[k].id) == s[k + 1..]
    decreases |s|
  {
    var tail := s[1..];
    IdOrderedTail(s);
    if k == 0 {
      AllAbove(tail, s[0].id);
    } else {
      AboveSuffix(tail, k - 1);
      assert tail[k - 1] == s[k];
      assert tail[k..] == s[k + 1..];
    }
  }

  lemma {:induction false} AllAbove(s: seq<Merchant>, c: int)
    requires forall i :: 0 <= i < |s| ==> s[i].id > c
    ensures Above(s, c) == s
    decreases |s|
  {
    if s != [] {
      assert forall i :: 0 <= i < |s[1..]| ==> s[1..][i] == s[i + 1];
      AllAbove(s[1..], c);
      assert [s[0]] + s[1..] == s;
    }
  }

  // ---------------------------------------------------------------------------
  // The cursor as written
  // ---------------------------------------------------------------------------

  function Plain(id: int, name: string): Merchant
  {
    Merchant(id, Some(name), None, None, None, None, None, None, None, None)
  }

  function Sample(): seq<Merchant>
  {
    [Plain(1, "b"), Plain(2, "a"), Plain(3, "c")]
  }

  function SampleRequest(lastId: Option<int>): SearchRequest
  {
    SearchRequest(None, None, lastId, Some(2), Some("name"), None)
  }

  /** Without keyword and category the matches are the rows above the cursor. */
  lemma {:induction false} MatchingUnfiltered(table: seq<Merchant>, c: int)
    ensures Matching(table, Query(None, None, Some(c))) == Above(table, c)
    decreases |table|
  {
    if table != [] {
      MatchingUnfiltered(table[1..], c);
    }
  }

  lemma SampleFetched(lastId: Option<int>, rows: seq<Merchant>)
    requires lastId == None || lastId == Some(1) || lastId == Some(2)
    requires rows == Above(Sample(), lastId.GetOr(0))
    ensures Fetch(Sample(), SampleRequest(lastId)).kept == if |rows| > 2 then rows[..2] else rows
    ensures Fetch(Sample(), SampleRequest(lastId)).hasMore <==> |rows| > 2
  {
    var q := QueryOf(SampleRequest(lastId));
    MatchingUnfiltered(Sample(), lastId.GetOr(0));
    if lastId == None {
      MatchingUnfiltered(Sample(), 0);
      MatchingAbove(Sample(), q, 0);
    } else {
      assert q == Query(None, None, lastId);
    }
  }

  lemma SampleAbove()
    ensures Above(Sample(), 0) == Sample()
    ensures Above(Sample(), 1) == Sample()[1..]
    ensures Above(Sample(), 2) == [Plain(3, "c")]
  {
    var table := Sample();
    var tail := [Plain(2, "a"), Plain(3, "c")];
    var last := [Plain(3, "c")];
    assert table[1..] == tail && tail[1..] == last && last[1..] == [];
    assert Above(last, 0) == last && Above(last, 1) == last && Above(last, 2) == last;
    assert Above(tail, 0) == tail && Above(tail, 1) == tail && Above(tail, 2) == last;
  }

  lemma SampleFirstPage()
    ensures Fetch(Sample(), SampleRequest(None)) == Fetched([Plain(1, "b"), Plain(2, "a")], true)
  {
    SampleAbove();
    SampleFetched(None, Sample());
    assert Sample()[..2] == [Plain(1, "b"), Plain(2, "a")];
  }

  lemma SampleNextPages()
    ensures Fetch(Sample(), SampleRequest(Some(1))).kept == [Plain(2, "a"), Plain(3, "c")]
    ensures Fetch(Sample(), SampleRequest(Some(2))).kept == [Plain(3, "c")]
  {
    SampleAbove();
    SampleFetched(Some(1), Sample()[1..]);
    SampleFetched(Some(2), [Plain(3, "c")]);
  }

  /** Two rows out of order under `le` are swapped by the sort. */
  lemma SortSwapsPair<T>(a: T, b: T, le: (T, T) -> bool)
    requires !le(a, b)
    ensures Sort([a, b], le) == [b, a]
  {
    assert [a, b][1..] == [b];
    assert Sort([b], le) == [b];
  }

  lemma SampleShown(geo: Geo)
    ensures var shown := Shown([Plain(1, "b"), Plain(2, "a")], SampleRequest(None), geo);
      |shown| == 2 && shown[0].id == 2 && shown[1].id == 1
  {
    assert OrderOf(Some("name"), geo) == NameOrder by {
      assert !EqualsIgnoreCase("name", "distance");
      assert EqualsIgnoreCase("name", "name");
    }
    var a, b := Info(Plain(1, "b"), geo), Info(Plain(2, "a"), geo);
    assert Infos([Plain(1, "b"), Plain(2, "a")], geo) == [a, b];
    assert Lower("a") == "a" && Lower("b") == "b";
    assert !ByName(a, b);
    SortSwapsPair(a, b, ByName);
  }

  /**
   * Sorted by name, the last merchant answered need not be the last one
   * fetched. Rows 1 "b", 2 "a", 3 "c" with a limit of 2: the page answers
   * 2 then 1 and, as written, the cursor 1, so the next page starts again
   * at 2; the corrected cursor 2 makes the next page start at 3.
   */
  lemma NameOrderCursorRepeats(geo: Geo)
    ensures SearchAsWritten(Sample(), SampleRequest(None), geo).Ok? && Search(Sample(), SampleRequest(None), geo).Ok?
    ensures var page := SearchAsWritten(Sample(), SampleRequest(None), geo).value;
      && |page.merchants| == 2 && page.merchants[0].id == 2 && page.merchants[1].id == 1
      && page.hasMore && page.lastId == Some(1)
      && Fetch(Sample(), SampleRequest(page.lastId)).kept[0] == Plain(2, "a")
      && Search(Sample(), SampleRequest(None), geo).value.lastId == Some(2)
      && Fetch(Sample(), SampleRequest(Search(Sample(), SampleRequest(None), geo).value.lastId)).kept == [Plain(3, "c")]
  {
    SampleFirstPage();
    SampleNextPages();
    SampleShown(geo);
  }
}
