/** What `paginate_records` promises: the page plan covers the record range
    exactly once, every request carries the caller's criteria, the assembly
    keeps page order and drops only failed pages, and against a server that
    answers honestly from a fixed dataset the whole dataset comes back. */
module PaginationProperties {
  import opened Json
  import opened Api
  import opened Client

  /** `body["paging"]`, or `Null` when the request has none. */
  function PagingOf(q: Request): Value {
    if q.Post? && "paging" in q.body then q.body["paging"] else Null
  }

  lemma SameExceptPagingTrans(a: Params, b: Params, c: Params)
    requires SameExceptPaging(a, b) && SameExceptPaging(b, c)
    ensures SameExceptPaging(a, c)
  {
  }

  lemma PageParamsKeepCriteria(prep: Prepared, g: Geometry, page: int)
    ensures SameExceptPaging(PageParams(prep, g, page), prep.params)
  {
  }

  /** Every request `paginate_records` sends is a POST to the route it was given,
      and carries every one of the caller's params except `paging` unchanged. */
  lemma {:induction false} RequestsKeepCriteria(api: Transport, route: Route, params: Params)
    ensures forall q :: q in Paginate(api, route, params).sent ==>
              q.Post? && q.route == route && SameExceptPaging(q.body, params)
  {
    match PrepareParams(params)
    case Err(_) =>
    case Ok(prep) =>
      var probe := ProbePayload(prep.params);
      SameExceptPagingTrans(probe, prep.params, params);
      var count := GetRecordsCount(api, route, prep.params);
      if count.result.Ok? && PageGeometry(count.result.value, prep.size).Ok? {
        var g := PageGeometry(count.result.value, prep.size).value;
        var pages := PageRequests(route, prep, g);
        forall i | 0 <= i < |pages|
          ensures pages[i].Post? && pages[i].route == route && SameExceptPaging(pages[i].body, params)
        {
          PageParamsKeepCriteria(prep, g, i);
          SameExceptPagingTrans(PageParams(prep, g, i), prep.params, params);
        }
        assert Paginate(api, route, params).sent == [Post(route, probe)] + pages;
      }
  }

  /** Once the params, the count and the page size are settled,
      `paginate_records` sends the probe and then the planned pages, and
      assembles the pages' responses. */
  lemma PaginateUnfold(api: Transport, route: Route, params: Params, prep: Prepared, total: Value, g: Geometry)
    requires PrepareParams(params) == Ok(prep)
    requires GetRecordsCount(api, route, prep.params).result == Ok(total)
    requires PageGeometry(total, prep.size) == Ok(g)
    ensures Paginate(api, route, params)
         == Run(Assemble(Gather(api, PageRequests(route, prep, g))),
                [Post(route, ProbePayload(prep.params))] + PageRequests(route, prep, g))
  {
  }

  /** The request plan: first the probe with paging `{top: 0}`, then, once the
      count and page size are numbers, exactly `ceil(total / page_sz)` pages
      (none when that is negative), page `i` asking for `top = page_sz` records
      from `skip = i * page_sz`. */
  lemma PlanOfRequests(api: Transport, route: Route, params: Params, prep: Prepared, total: Value, g: Geometry)
    requires PrepareParams(params) == Ok(prep)
    requires GetRecordsCount(api, route, prep.params).result == Ok(total)
    requires PageGeometry(total, prep.size) == Ok(g)
    ensures var sent := Paginate(api, route, params).sent;
            && |sent| == 1 + g.pages
            && PagingOf(sent[0]) == Obj(map["top" := Int(0)])
            && forall i :: 0 <= i < g.pages ==>
                 PagingOf(sent[1 + i]) == Obj(map["top" := prep.size, "skip" := Int(SkipOf(i, g.size))])
  {
    PaginateUnfold(api, route, params, prep, total, g);
    PlanPaging(route, prep, g);
  }

  /** The paging of the probe and of each planned page. */
  lemma PlanPaging(route: Route, prep: Prepared, g: Geometry)
    ensures var sent := [Post(route, ProbePayload(prep.params))] + PageRequests(route, prep, g);
            && |sent| == 1 + g.pages
            && PagingOf(sent[0]) == Obj(map["top" := Int(0)])
            && forall i :: 0 <= i < g.pages ==>
                 PagingOf(sent[1 + i]) == Obj(map["top" := prep.size, "skip" := Int(SkipOf(i, g.size))])
  {
  }

  /** The page offsets start at 0 and strictly increase, by one page size each. */
  lemma {:induction false} SkipsIncrease(size: int, i: int, j: int)
    requires size > 0 && 0 <= i < j
    ensures SkipOf(0, size) == 0
    ensures SkipOf(i, size) + size <= SkipOf(j, size)
  {
    assert SkipOf(j, size) - SkipOf(i, size) == (j - i) * size;
    assert (j - i) * size >= size by {
      assert (j - i - 1) * size >= 0;
      assert (j - i) * size == (j - i - 1) * size + size;
    }
  }

  /** Record `k` lies in the window of page `k / page_sz`, and that page is
      one of the pages planned for a total above `k`. */
  lemma {:induction false} IndexHasPage(total: int, g: Geometry, k: int)
    requires g.size > 0 && g.pages as int == Max(0, CeilDiv(total, g.size))
    requires 0 <= k < total
    ensures 0 <= k / g.size < g.pages
    ensures SkipOf(k / g.size, g.size) <= k < SkipOf(k / g.size, g.size) + g.size
  {
    var n, q := g.size, k / g.size;
    assert k == q * n + k % n;
    assert SkipOf(g.pages, n) >= total;
    if g.pages as int < q {
      SkipsIncrease(n, g.pages, q);
    }
    assert q != g.pages as int;
  }

  /** No record index lies in the windows of two different pages. */
  lemma {:induction false} PageOfIndexUnique(size: int, k: int, i: int, j: int)
    requires size > 0 && 0 <= i && 0 <= j
    requires SkipOf(i, size) <= k < SkipOf(i, size) + size
    requires SkipOf(j, size) <= k < SkipOf(j, size) + size
    ensures i == j
  {
    if i < j {
      SkipsIncrease(size, i, j);
    } else if j < i {
      SkipsIncrease(size, j, i);
    }
  }

  /** Every record index below the total falls in the window of exactly one
      planned page, page `k / page_sz`. */
  lemma WindowsPartition(total: int, g: Geometry, k: int)
    requires g.size > 0 && g.pages as int == Max(0, CeilDiv(total, g.size))
    requires 0 <= k < total
    ensures k / g.size < g.pages
    ensures SkipOf(k / g.size, g.size) <= k < SkipOf(k / g.size, g.size) + g.size
    ensures forall i :: 0 <= i < g.pages && SkipOf(i, g.size) <= k < SkipOf(i, g.size) + g.size ==>
              i == k / g.size
  {
    IndexHasPage(total, g, k);
    forall i | 0 <= i < g.pages && SkipOf(i, g.size) <= k < SkipOf(i, g.size) + g.size
      ensures i == k / g.size
    {
      PageOfIndexUnique(g.size, k, i, k / g.size);
    }
  }

  /** A caller-supplied `top` of 0 is not rejected up front: the probe is sent,
      then the page count divides by zero. */
  lemma ZeroTopDividesByZero(api: Transport, route: Route, params: Params, prep: Prepared, total: Value)
    requires PrepareParams(params) == Ok(prep) && Number(prep.size) == Some(0)
    requires GetRecordsCount(api, route, prep.params).result == Ok(total) && Number(total).Some?
    ensures Paginate(api, route, params) == Run(Err(ZeroDivision), [Post(route, ProbePayload(prep.params))])
  {
  }

  /** A total of 0 means no page request at all and an empty record list. */
  lemma EmptyTotalSendsOnlyTheProbe(api: Transport, route: Route, params: Params, prep: Prepared, total: Value)
    requires PrepareParams(params) == Ok(prep) && Number(prep.size).Some? && Number(prep.size).value != 0
    requires GetRecordsCount(api, route, prep.params).result == Ok(total) && Number(total) == Some(0)
    ensures Paginate(api, route, params) == Run(Ok([]), [Post(route, ProbePayload(prep.params))])
  {
    var g := PageGeometry(total, prep.size).value;
    assert g.pages == 0;
    assert PageRequests(route, prep, g) == [];
  }

  /** The default pages: page `i` is exactly `{paging: {top: 50, skip: 50 * i}}`. */
  lemma NoParamsPages(route: Route, prep: Prepared, g: Geometry)
    requires prep == Prepared(map["paging" := Obj(map["top" := Int(MAX_TOP_COUNT), "skip" := Int(0)])],
                              Int(MAX_TOP_COUNT))
    requires g.size == MAX_TOP_COUNT
    ensures forall i :: 0 <= i < g.pages ==>
              PageRequests(route, prep, g)[i]
              == Post(route, map["paging" := Obj(map["top" := Int(MAX_TOP_COUNT), "skip" := Int(i * MAX_TOP_COUNT)])])
  {
  }

  /** With no params at all the probe body is `{paging: {top: 0}}` and page `i`
      is `{paging: {top: 50, skip: 50 * i}}`. */
  lemma NoParamsPlan(api: Transport, route: Route, total: Value)
    requires GetRecordsCount(api, route, map["paging" := Obj(map["top" := Int(MAX_TOP_COUNT), "skip" := Int(0)])]).result
             == Ok(total)
    requires Number(total).Some?
    ensures var sent := Paginate(api, route, map[]).sent;
            && |sent| == 1 + Max(0, CeilDiv(Number(total).value, MAX_TOP_COUNT))
            && sent[0] == Post(route, map["paging" := Obj(map["top" := Int(0)])])
            && forall i :: 0 < i < |sent| ==>
                 sent[i] == Post(route, map["paging" := Obj(map["top" := Int(MAX_TOP_COUNT),
                                                               "skip" := Int((i - 1) * MAX_TOP_COUNT)])])
  {
    var defaults := map["paging" := Obj(map["top" := Int(MAX_TOP_COUNT), "skip" := Int(0)])];
    var prep := Prepared(defaults, Int(MAX_TOP_COUNT));
    assert PrepareParams(map[]) == Ok(prep);
    var g := Geometry(MAX_TOP_COUNT, Max(0, CeilDiv(Number(total).value, MAX_TOP_COUNT)));
    assert PageGeometry(total, prep.size) == Ok(g);
    PaginateUnfold(api, route, map[], prep, total, g);
    NoParamsPages(route, prep, g);
    assert ProbePayload(defaults) == map["paging" := Obj(map["top" := Int(0)])];
  }

  /** 120 records at the default page size: three pages, at skips 0, 50 and
      100, each asking for 50 records (the last page's `top` is not shortened). */
  lemma Example120Records(route: Route, prep: Prepared)
    requires prep.size == Int(MAX_TOP_COUNT)
    ensures PageGeometry(Int(120), prep.size) == Ok(Geometry(50, 3))
    ensures var pages := PageRequests(route, prep, Geometry(50, 3));
            && |pages| == 3
            && PagingOf(pages[0]) == Obj(map["top" := Int(50), "skip" := Int(0)])
            && PagingOf(pages[1]) == Obj(map["top" := Int(50), "skip" := Int(50)])
            && PagingOf(pages[2]) == Obj(map["top" := Int(50), "skip" := Int(100)])
  {
  }

  // ---------------------------------------------------------------------------
  // Assembly

  /** The first failure of two results, or their concatenation. */
  function Join(a: Result<seq<Value>>, b: Result<seq<Value>>): Result<seq<Value>> {
    match a
    case Err(e) => Err(e)
    case Ok(x) =>
      match b
      case Err(e) => Err(e)
      case Ok(y) => Ok(x + y)
  }

  /** Assembly distributes over splitting the pages: the records of earlier
      pages come first, whatever order the responses arrived in. */
  lemma {:induction false} AssembleAppend(a: seq<Response>, b: seq<Response>)
    ensures Assemble(a + b) == Join(Assemble(a), Assemble(b))
  {
    if a == [] {
      assert a + b == b;
      assert Assemble(b).Ok? ==> [] + Assemble(b).value == Assemble(b).value;
    } else {
      assert (a + b)[0] == a[0];
      assert (a + b)[1..] == a[1..] + b;
      AssembleAppend(a[1..], b);
      if !a[0].isError && RecordsOf(a[0].body).Ok? {
        var page := RecordsOf(a[0].body).value;
        if Assemble(a[1..]).Ok? && Assemble(b).Ok? {
          var x, y := Assemble(a[1..]).value, Assemble(b).value;
          assert page + (x + y) == (page + x) + y;
        }
      }
    }
  }

  /** Every response is either an error or carries a records list. */
  predicate WellFormedPages(rs: seq<Response>) {
    forall i :: 0 <= i < |rs| ==> rs[i].isError || RecordsOf(rs[i].body).Ok?
  }

  /** The number of records a response contributes. */
  function PageLength(r: Response): nat {
    if !r.isError && RecordsOf(r.body).Ok? then |RecordsOf(r.body).value| else 0
  }

  function TotalLength(rs: seq<Response>): nat {
    if rs == [] then 0 else PageLength(rs[0]) + TotalLength(rs[1..])
  }

  /** Well-formed pages always assemble, and the result holds exactly the records
      of the successful pages; with no failed page that is the sum of the page
      lengths. */
  lemma {:induction false} AssembleLength(rs: seq<Response>)
    requires WellFormedPages(rs)
    ensures Assemble(rs).Ok? && |Assemble(rs).value| == TotalLength(rs)
  {
    if rs != [] {
      assert WellFormedPages(rs[1..]) by {
        forall i | 0 <= i < |rs[1..]| ensures rs[1..][i].isError || RecordsOf(rs[1..][i].body).Ok? {
          assert rs[1..][i] == rs[i + 1];
        }
      }
      AssembleLength(rs[1..]);
    }
  }

  /** The assembly raises exactly when some page that is not an error lacks a
      records list: no successful page is skipped silently. */
  lemma {:induction false} AssembleOkIffWellFormed(rs: seq<Response>)
    ensures Assemble(rs).Ok? <==> WellFormedPages(rs)
  {
    if rs != [] {
      AssembleOkIffWellFormed(rs[1..]);
      assert forall i :: 0 <= i < |rs[1..]| ==> rs[1..][i] == rs[i + 1];
      assert WellFormedPages(rs) <==>
               (rs[0].isError || RecordsOf(rs[0].body).Ok?) && WellFormedPages(rs[1..]) by {
        if (rs[0].isError || RecordsOf(rs[0].body).Ok?) && WellFormedPages(rs[1..]) {
          forall i | 0 <= i < |rs| ensures rs[i].isError || RecordsOf(rs[i].body).Ok? {
            if i > 0 { assert rs[i] == rs[1..][i - 1]; }
          }
        }
      }
    }
  }

  /** A failed page contributes nothing and leaves the other pages' records, and
      their order, as they were: the result loses exactly that page's records. */
  lemma FailedPageDropsOnlyItsRecords(rs: seq<Response>, k: int, failed: Response)
    requires WellFormedPages(rs) && 0 <= k < |rs| && failed.isError
    ensures WellFormedPages(rs[k := failed])
    ensures Assemble(rs).Ok? && Assemble(rs[k := failed]).Ok?
    ensures Assemble(rs[k := failed]) == Join(Assemble(rs[..k]), Assemble(rs[k + 1..]))
    ensures Assemble(rs) == Join(Join(Assemble(rs[..k]), Assemble([rs[k]])), Assemble(rs[k + 1..]))
    ensures |Assemble(rs[k := failed]).value| == |Assemble(rs).value| - PageLength(rs[k])
  {
    var before, after := rs[..k], rs[k + 1..];
    assert rs == before + [rs[k]] + after;
    assert rs[k := failed] == before + [failed] + after;
    AssembleAppend(before + [rs[k]], after);
    AssembleAppend(before, [rs[k]]);
    AssembleAppend(before + [failed], after);
    AssembleAppend(before, [failed]);
    assert [failed][1..] == [];
    assert Assemble([failed]) == Ok([]);
    assert WellFormedPages(before) && WellFormedPages(after);
    AssembleLength(before);
    assert Assemble(before).value + [] == Assemble(before).value;
    assert Assemble(before + [failed]) == Assemble(before);
    AssembleLength(after);
  }

  // ---------------------------------------------------------------------------
  // An honest server

  function Clamp(x: int, lo: int, hi: int): int
    requires lo <= hi
  {
    if x < lo then lo else if x > hi then hi else x
  }

  /** The slice of `data` a request with this skip and top gets. */
  function Window(data: seq<Value>, skip: int, top: int): seq<Value> {
    var lo := Clamp(skip, 0, |data|);
    data[lo..Clamp(skip + top, lo, |data|)]
  }

  /** The body of a page response. */
  function PageBody(total: int, records: seq<Value>): Value {
    Obj(map["data" := Obj(map["metadata" := Obj(map["totalRecordCount" := Int(total)]),
                               "records" := Arr(records)])])
  }

  /** A server holding `data` as the records that match every filter sent to
      it: each POST gets the total and the window its paging asks for, of at
      most `MAX_TOP_COUNT` records, the most the API serves in one page. */
  function Serve(data: seq<Value>, q: Request): Response {
    var paging := PagingOf(q);
    var top, skip := Field(paging, "top"), Field(paging, "skip");
    if top.Some? && Number(top.value).Some? && (skip.None? || skip.value.Int?) then
      var offset := if skip.Some? then skip.value.i else 0;
      var n := Number(top.value).value;
      Response(false, PageBody(|data|, Window(data, offset, if n > MAX_TOP_COUNT then MAX_TOP_COUNT else n)))
    else Response(true, Null)
  }

  /** The windows of pages `start` to `stop - 1`, concatenated. */
  function Windows(data: seq<Value>, size: int, start: int, stop: int): seq<Value>
    decreases stop - start
  {
    if start >= stop then [] else Window(data, SkipOf(start, size), size) + Windows(data, size, start + 1, stop)
  }

  /** Consecutive windows tile the data: pages `start..stop` cover exactly the
      records from `start * size` to `stop * size`. */
  lemma {:induction false} WindowsAreSlice(data: seq<Value>, size: int, start: int, stop: int)
    requires size > 0 && 0 <= start <= stop
    ensures Windows(data, size, start, stop)
            == data[Clamp(SkipOf(start, size), 0, |data|)..Clamp(SkipOf(stop, size), 0, |data|)]
    decreases stop - start
  {
    if start < stop {
      SkipsIncrease(size, start, stop);
      assert SkipOf(start + 1, size) == SkipOf(start, size) + size;
      SkipsIncrease(size, start, start + 1);
      WindowsAreSlice(data, size, start + 1, stop);
      var a := Clamp(SkipOf(start, size), 0, |data|);
      var b := Clamp(SkipOf(start + 1, size), 0, |data|);
      var c := Clamp(SkipOf(stop, size), 0, |data|);
      assert Window(data, SkipOf(start, size), size) == data[a..b];
      assert data[a..b] + data[b..c] == data[a..c];
    }
  }

  /** Responses that are the honest answers for pages `start..stop` assemble into
      those pages' windows. */
  lemma {:induction false} AssembleHonestPages(data: seq<Value>, size: int, start: int, rs: seq<Response>)
    requires forall j :: 0 <= j < |rs| ==>
               rs[j] == Response(false, PageBody(|data|, Window(data, SkipOf(start + j, size), size)))
    ensures Assemble(rs) == Ok(Windows(data, size, start, start + |rs|))
    decreases |rs|
  {
    if rs != [] {
      assert forall j :: 0 <= j < |rs[1..]| ==> rs[1..][j] == rs[j + 1] && start + 1 + j == start + (j + 1);
      AssembleHonestPages(data, size, start + 1, rs[1..]);
      var page := Window(data, SkipOf(start, size), size);
      PageBodyRecords(|data|, page);
      AssembleSuccessfulHead(rs, page);
      assert start + 1 + |rs[1..]| == start + |rs|;
      assert Windows(data, size, start, start + |rs|) == page + Windows(data, size, start + 1, start + |rs|);
    }
  }

  /** A page body's records are the records it was built with. */
  lemma PageBodyRecords(total: int, records: seq<Value>)
    ensures RecordsOf(PageBody(total, records)) == Ok(records)
  {
  }

  /** A successful first page puts its records before the rest's. */
  lemma AssembleSuccessfulHead(rs: seq<Response>, page: seq<Value>)
    requires rs != [] && !rs[0].isError && RecordsOf(rs[0].body) == Ok(page)
    requires Assemble(rs[1..]).Ok?
    ensures Assemble(rs) == Ok(page + Assemble(rs[1..]).value)
  {
  }

  /** The honest server answers the probe with the size of its dataset. */
  lemma HonestCount(data: seq<Value>, api: Transport, route: Route, params: Params)
    requires forall q :: api(q) == Serve(data, q)
    ensures GetRecordsCount(api, route, params).result == Ok(Int(|data|))
  {
    var probe := Post(route, ProbePayload(params));
    assert PagingOf(probe) == Obj(map["top" := Int(0)]);
    assert api(probe) == Response(false, PageBody(|data|, Window(data, 0, 0)));
  }

  /** The honest server answers page `j` with the window at `j * page_sz`. */
  lemma HonestPages(data: seq<Value>, api: Transport, route: Route, prep: Prepared, g: Geometry)
    requires forall q :: api(q) == Serve(data, q)
    requires Number(prep.size) == Some(g.size) && g.size <= MAX_TOP_COUNT
    ensures var rs := Gather(api, PageRequests(route, prep, g));
            forall j :: 0 <= j < |rs| ==>
              rs[j] == Response(false, PageBody(|data|, Window(data, SkipOf(0 + j, g.size), g.size)))
  {
    var pages := PageRequests(route, prep, g);
    forall j | 0 <= j < |pages|
      ensures api(pages[j]) == Response(false, PageBody(|data|, Window(data, SkipOf(0 + j, g.size), g.size)))
    {
      assert PagingOf(pages[j]) == Obj(map["top" := prep.size, "skip" := Int(SkipOf(j, g.size))]);
    }
  }

  /** The honest server's answers to the planned pages assemble into the
      pages' windows, in page order. */
  lemma HonestAssembly(data: seq<Value>, api: Transport, route: Route, prep: Prepared, g: Geometry)
    requires forall q :: api(q) == Serve(data, q)
    requires Number(prep.size) == Some(g.size) && g.size <= MAX_TOP_COUNT
    ensures Assemble(Gather(api, PageRequests(route, prep, g))) == Ok(Windows(data, g.size, 0, g.pages))
  {
    HonestPages(data, api, route, prep, g);
    AssembleHonestPages(data, g.size, 0, Gather(api, PageRequests(route, prep, g)));
  }

  /** Against an honest server and a page size from 1 to `MAX_TOP_COUNT`, `paginate_records`
      returns the whole dataset, in order, with one probe and
      `ceil(total / page_sz)` page requests. */
  lemma HonestServerYieldsDataset(data: seq<Value>, api: Transport, route: Route, params: Params, prep: Prepared)
    requires forall q :: api(q) == Serve(data, q)
    requires PrepareParams(params) == Ok(prep)
    requires Number(prep.size).Some? && 0 < Number(prep.size).value <= MAX_TOP_COUNT
    ensures Paginate(api, route, params).result == Ok(data)
    ensures |Paginate(api, route, params).sent| == 1 + CeilDiv(|data|, Number(prep.size).value)
  {
    var n := Number(prep.size).value;
    HonestCount(data, api, route, prep.params);
    var g := Geometry(n, Max(0, CeilDiv(|data|, n)));
    PaginateUnfold(api, route, params, prep, Int(|data|), g);
    HonestAssembly(data, api, route, prep, g);
    WindowsAreSlice(data, n, 0, g.pages);
    assert SkipOf(g.pages, n) >= |data| && SkipOf(0, n) == 0;
    assert Windows(data, n, 0, g.pages) == data[0..|data|] == data;
    var sent := [Post(route, ProbePayload(prep.params))] + PageRequests(route, prep, g);
    assert Paginate(api, route, params).sent == sent;
    assert |sent| == 1 + CeilDiv(|data|, n);
  }

  /** The honest server's answer to a request whose paging is `{top, skip}`. */
  lemma ServeWindow(data: seq<Value>, q: Request, top: int, skip: int)
    requires PagingOf(q) == Obj(map["top" := Int(top), "skip" := Int(skip)])
    ensures Serve(data, q)
         == Response(false, PageBody(|data|, Window(data, skip, if top > MAX_TOP_COUNT then MAX_TOP_COUNT else top)))
  {
  }

  /** Two successful pages assemble into their records, in order. */
  lemma AssembleTwoPages(total: int, x: seq<Value>, y: seq<Value>)
    ensures Assemble([Response(false, PageBody(total, x)), Response(false, PageBody(total, y))]) == Ok(x + y)
  {
    var rs := [Response(false, PageBody(total, x)), Response(false, PageBody(total, y))];
    assert rs[1..] == [rs[1]] && rs[1..][1..] == [];
    assert Assemble(rs[1..]) == Ok(y + []);
    assert y + [] == y;
  }

  /** With `top = 100` against 150 honest records, the probe answers 150 and the
      plan is two pages of size 100. */
  lemma OversizedPlan(data: seq<Value>, api: Transport, route: Route, params: Params)
    requires forall q :: api(q) == Serve(data, q)
    requires |data| == 150 && params == map["paging" := Obj(map["top" := Int(100)])]
    ensures PrepareParams(params) == Ok(Prepared(params, Int(100)))
    ensures GetRecordsCount(api, route, params).result == Ok(Int(150))
    ensures PageGeometry(Int(150), Int(100)) == Ok(Geometry(100, 2))
  {
    HonestCount(data, api, route, params);
  }

  /** The two pages of size 100 are answered with records 0-49 and 100-149. */
  lemma OversizedAnswers(data: seq<Value>, api: Transport, route: Route, prep: Prepared)
    requires forall q :: api(q) == Serve(data, q)
    requires |data| == 150 && prep.size == Int(100)
    ensures Assemble(Gather(api, PageRequests(route, prep, Geometry(100, 2)))) == Ok(data[..50] + data[100..])
  {
    var pages := PageRequests(route, prep, Geometry(100, 2));
    ServeWindow(data, pages[0], 100, 0);
    ServeWindow(data, pages[1], 100, 100);
    var rs := Gather(api, pages);
    assert rs == [Response(false, PageBody(150, data[0..50])), Response(false, PageBody(150, data[100..150]))];
    AssembleTwoPages(150, data[0..50], data[100..150]);
    assert data[..50] + data[100..] == data[0..50] + data[100..150];
  }

  /** The page size is not clamped, so a caller's `top` above `MAX_TOP_COUNT`
      loses records: with `top = 100` and 150 records the server answers the
      two pages with records 0-49 and 100-149, and records 50-99 never come
      back. */
  lemma OversizedPagesLoseRecords(data: seq<Value>, api: Transport, route: Route)
    requires forall q :: api(q) == Serve(data, q)
    requires |data| == 150
    ensures var run := Paginate(api, route, map["paging" := Obj(map["top" := Int(100)])]);
            && run.result == Ok(data[..50] + data[100..])
            && |run.sent| == 3
            && run.result.value != data
  {
    var params := map["paging" := Obj(map["top" := Int(100)])];
    var prep := Prepared(params, Int(100));
    OversizedPlan(data, api, route, params);
    OversizedAnswers(data, api, route, prep);
    PaginateUnfold(api, route, params, prep, Int(150), Geometry(100, 2));
    assert |data[..50] + data[100..]| == 100;
  }
}
