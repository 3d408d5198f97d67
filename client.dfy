/** The offset/limit pagination engine of `ZayoClient`: the record-count probe
    (`get_records_count`) and `paginate_records`, over an abstract transport. */
module Client {
  import opened Json
  import opened Api

  /** The largest `top` the API serves in one page. */
  const MAX_TOP_COUNT: int := 50

  /** `a` and `b` agree on every key other than "paging". */
  predicate SameExceptPaging(a: Params, b: Params) {
    && a.Keys - {"paging"} == b.Keys - {"paging"}
    && forall k :: k in a && k != "paging" ==> k in b && a[k] == b[k]
  }

  /** `params["paging"]["top"]`, when there is one. */
  function TopOf(params: Params): Option<Value> {
    if "paging" in params then Field(params["paging"], "top") else None
  }

  /** The params after `paginate_records` has filled in its paging defaults,
      and the page size (`paging.top`) it read from them. */
  datatype Prepared = Prepared(params: Params, size: Value)

  /** The defaults `paginate_records` applies before probing: with no params at
      all the paging is `{top: 50, skip: 0}`; otherwise `setdefault` adds an
      empty `paging` and then `top = 50` where they are missing. The page size is
      the caller's `top` taken as it is: nothing clamps it to the maximum. */
  function PrepareParams(params: Params): (r: Result<Prepared>)
    ensures r.Ok? <==> "paging" !in params || params["paging"].Obj?
    ensures r.Err? ==> r.error == PagingNotObject
    ensures r.Ok? ==> r.value.size == if TopOf(params).Some? then TopOf(params).value
                                      else Int(MAX_TOP_COUNT)
    ensures r.Ok? ==> TopOf(r.value.params) == Some(r.value.size)
    ensures r.Ok? ==> "paging" in r.value.params && SameExceptPaging(r.value.params, params)
    ensures params == map[] ==>
              r == Ok(Prepared(map["paging" := Obj(map["top" := Int(MAX_TOP_COUNT), "skip" := Int(0)])],
                               Int(MAX_TOP_COUNT)))
  {
    if params == map[] then
      Ok(Prepared(map["paging" := Obj(map["top" := Int(MAX_TOP_COUNT), "skip" := Int(0)])],
                  Int(MAX_TOP_COUNT)))
    else
      var paging := if "paging" in params then params["paging"] else Obj(map[]);
      if !paging.Obj? then Err(PagingNotObject)
      else if "top" in paging.fields then Ok(Prepared(params, paging.fields["top"]))
      else Ok(Prepared(params["paging" := Obj(paging.fields["top" := Int(MAX_TOP_COUNT)])],
                       Int(MAX_TOP_COUNT)))
  }

  /** The count probe's body: a copy of the params whose paging asks for no rows. */
  function ProbePayload(params: Params): (p: Params)
    ensures "paging" in p && p["paging"] == Obj(map["top" := Int(0)])
    ensures SameExceptPaging(p, params)
  {
    params["paging" := Obj(map["top" := Int(0)])]
  }

  /** `body["data"]["metadata"]["totalRecordCount"]`. */
  function TotalOf(body: Value): Option<Value> {
    match Field(body, "data")
    case None => None
    case Some(data) =>
      match Field(data, "metadata")
      case None => None
      case Some(meta) => Field(meta, "totalRecordCount")
  }

  /** `body["data"]["records"]`, as the list `chain.from_iterable` walks. */
  function RecordsOf(body: Value): (r: Result<seq<Value>>)
    ensures r.Err? ==> r.error == Malformed
    ensures r.Ok? <==> body.Obj? && "data" in body.fields && body.fields["data"].Obj? &&
                       "records" in body.fields["data"].fields &&
                       body.fields["data"].fields["records"].Arr?
    ensures r.Ok? ==> r.value == body.fields["data"].fields["records"].items
  {
    match Field(body, "data")
    case None => Err(Malformed)
    case Some(data) =>
      match Field(data, "records")
      case Some(Arr(records)) => Ok(records)
      case _ => Err(Malformed)
  }

  /** `get_records_count`: one POST of the probe payload; an error status raises,
      otherwise the result is the response's total record count. */
  function GetRecordsCount(api: Transport, route: Route, params: Params): (r: Run<Value>)
    ensures r.sent == [Post(route, ProbePayload(params))]
    ensures var res := api(Post(route, ProbePayload(params)));
            && (res.isError ==> r.result == Err(HttpError))
            && (!res.isError ==> r.result == if TotalOf(res.body).Some? then Ok(TotalOf(res.body).value)
                                             else Err(Malformed))
  {
    var probe := Post(route, ProbePayload(params));
    var res := api(probe);
    if res.isError then Run(Err(HttpError), [probe])
    else match TotalOf(res.body)
      case None => Run(Err(Malformed), [probe])
      case Some(total) => Run(Ok(total), [probe])
  }

  /** `math.ceil(a / b)`, computed exactly (Python goes through a float). */
  function CeilDiv(a: int, b: int): (q: int)
    requires b != 0
    ensures b > 0 ==> (q - 1) * b < a <= q * b
    ensures b < 0 ==> q * b <= a < (q - 1) * b
    ensures b > 0 && a >= 0 ==> q >= 0
  {
    var c := if b > 0 then b else -b;
    var x := if b > 0 then a else -a;
    var q := (x + c - 1) / c;
    assert x + c - 1 == q * c + (x + c - 1) % c;
    assert (q - 1) * c < x <= q * c;
    assert b < 0 ==> q * b == -(q * c) && (q - 1) * b == -((q - 1) * c);
    q
  }

  /** The page size as a number, and the number of pages `range` walks. */
  datatype Geometry = Geometry(size: int, pages: nat)

  /** `total_pages = math.ceil(total / page_sz)`: a value that is not a number
      raises a TypeError, a zero page size a ZeroDivisionError; a negative page
      count gives an empty `range`. */
  function PageGeometry(total: Value, size: Value): (r: Result<Geometry>)
    ensures r.Ok? <==> Number(total).Some? && Number(size).Some? && Number(size).value != 0
    ensures Number(total).None? || Number(size).None? ==> r == Err(NotANumber)
    ensures Number(total).Some? && Number(size) == Some(0) ==> r == Err(ZeroDivision)
    ensures r.Ok? ==> r.value.size == Number(size).value
    ensures r.Ok? ==> r.value.pages as int == Max(0, CeilDiv(Number(total).value, r.value.size))
  {
    match (Number(total), Number(size))
    case (Some(t), Some(n)) =>
      if n == 0 then Err(ZeroDivision) else Ok(Geometry(n, Max(0, CeilDiv(t, n))))
    case _ => Err(NotANumber)
  }

  function Max(a: int, b: int): int { if a < b then b else a }

  /** The offset of page `page`. */
  function SkipOf(page: int, size: int): int { page * size }

  /** The body of page `page`: the prepared params with their paging replaced
      by `{top: page_sz, skip: page * page_sz}`. */
  function PageParams(prep: Prepared, g: Geometry, page: int): Params {
    prep.params["paging" := Obj(map["top" := prep.size, "skip" := Int(SkipOf(page, g.size))])]
  }

  /** The page requests, one per page, in page order. */
  function PageRequests(route: Route, prep: Prepared, g: Geometry): seq<Request> {
    seq(g.pages, i requires 0 <= i < g.pages => Post(route, PageParams(prep, g, i)))
  }

  /** `asyncio.gather`: every request's response, in request order. */
  function Gather(api: Transport, requests: seq<Request>): (rs: seq<Response>)
    ensures |rs| == |requests|
    ensures forall i :: 0 <= i < |rs| ==> rs[i] == api(requests[i])
  {
    seq(|requests|, i requires 0 <= i < |requests| => api(requests[i]))
  }

  /** The assembly step: the records of every response that is not an error,
      concatenated in response order; a page whose body lacks a records list
      raises. */
  function Assemble(responses: seq<Response>): (r: Result<seq<Value>>)
    ensures r.Err? ==> r.error == Malformed
    ensures (forall i :: 0 <= i < |responses| ==> responses[i].isError) ==> r == Ok([])
  {
    if responses == [] then Ok([])
    else if responses[0].isError then Assemble(responses[1..])
    else match RecordsOf(responses[0].body)
      case Err(e) => Err(e)
      case Ok(page) =>
        match Assemble(responses[1..])
        case Err(e) => Err(e)
        case Ok(rest) => Ok(page + rest)
  }

  /** `paginate_records`, as a function of the transport: prepare the params,
      probe the count, plan the pages, send them all, assemble the records. */
  function Paginate(api: Transport, route: Route, params: Params): (r: Run<seq<Value>>)
    ensures r.sent == [] <==> PrepareParams(params).Err?
    ensures PrepareParams(params).Err? ==> r.result == Err(PagingNotObject)
    ensures PrepareParams(params).Ok? ==> r.sent[0] == Post(route, ProbePayload(PrepareParams(params).value.params))
    ensures PrepareParams(params).Ok? && GetRecordsCount(api, route, PrepareParams(params).value.params).result.Err? ==>
              r == Run(Err(GetRecordsCount(api, route, PrepareParams(params).value.params).result.error),
                       [Post(route, ProbePayload(PrepareParams(params).value.params))])
    ensures var prep := PrepareParams(params);
            var count := if prep.Ok? then GetRecordsCount(api, route, prep.value.params).result else Err(Malformed);
            prep.Ok? && count.Ok? && PageGeometry(count.value, prep.value.size).Err? ==>
              r == Run(Err(PageGeometry(count.value, prep.value.size).error),
                       [Post(route, ProbePayload(prep.value.params))])
  {
    match PrepareParams(params)
    case Err(e) => Run(Err(e), [])
    case Ok(prep) =>
      var count := GetRecordsCount(api, route, prep.params);
      match count.result
      case Err(e) => Run(Err(e), count.sent)
      case Ok(total) =>
        match PageGeometry(total, prep.size)
        case Err(e) => Run(Err(e), count.sent)
        case Ok(g) =>
          var pages := PageRequests(route, prep, g);
          Run(Assemble(Gather(api, pages)), count.sent + pages)
  }

  /** A fetcher's call `self.paginate_records(url=<route>, **params)`: a `url` or
      `self` among the params is a second value for an argument that
      `paginate_records` already binds, so Python raises a TypeError before
      anything is sent. */
  function CallPaginate(api: Transport, route: Route, params: Params): (r: Run<seq<Value>>)
    ensures "url" in params || "self" in params ==> r == Run(Err(DuplicateArgument), [])
    ensures "url" !in params && "self" !in params ==> r == Paginate(api, route, params)
  {
    if "url" in params || "self" in params then Run(Err(DuplicateArgument), [])
    else Paginate(api, route, params)
  }

  /** The `setdefault` steps of `paginate_records`, updating a copy of the
      params in place. */
  method ApplyPagingDefaults(params: Params) returns (r: Result<Prepared>)
    ensures r == PrepareParams(params)
  {
    var p := params;
    var pageSize: Value;
    if p != map[] {
      if "paging" !in p {
        p := p["paging" := Obj(map[])];
      }
      var paging := p["paging"];
      if !paging.Obj? {
        return Err(PagingNotObject);
      }
      if "top" !in paging.fields {
        paging := Obj(paging.fields["top" := Int(MAX_TOP_COUNT)]);
        p := p["paging" := paging];
        assert p == params["paging" := paging];
      } else {
        assert p == params;
      }
      pageSize := paging.fields["top"];
    } else {
      pageSize := Int(MAX_TOP_COUNT);
      p := map["paging" := Obj(map["top" := pageSize, "skip" := Int(0)])];
    }
    r := Ok(Prepared(p, pageSize));
  }

  /** The `for page in range(total_pages)` loop: one task per page, each a copy
      of the params with its own paging window, appended in page order. */
  method PlanPages(route: Route, prep: Prepared, g: Geometry) returns (tasks: seq<Request>)
    ensures tasks == PageRequests(route, prep, g)
  {
    tasks := [];
    var page := 0;
    while page < g.pages
      invariant page <= g.pages
      invariant |tasks| == page
      invariant forall i :: 0 <= i < page ==> tasks[i] == Post(route, PageParams(prep, g, i))
    {
      var taskParams := prep.params["paging" := Obj(map["top" := prep.size, "skip" := Int(page * g.size)])];
      tasks := tasks + [Post(route, taskParams)];
      page := page + 1;
    }
  }

  /** `paginate_records` as the source runs it: defaults, probe, page plan,
      dispatch of every task together, assembly. */
  method PaginateRecords(api: Transport, route: Route, params: Params) returns (run: Run<seq<Value>>)
    ensures run == Paginate(api, route, params)
  {
    var prepared := ApplyPagingDefaults(params);
    if prepared.Err? {
      return Run(Err(prepared.error), []);
    }
    var prep := prepared.value;
    var count := GetRecordsCount(api, route, prep.params);
    if count.result.Err? {
      return Run(Err(count.result.error), count.sent);
    }
    var geometry := PageGeometry(count.result.value, prep.size);
    if geometry.Err? {
      return Run(Err(geometry.error), count.sent);
    }
    var tasks := PlanPages(route, prep, geometry.value);
    var responses := Gather(api, tasks);
    run := Run(Assemble(responses), count.sent + tasks);
  }
}
