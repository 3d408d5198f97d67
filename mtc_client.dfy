/** The maintenance-case fetchers of `ZayoMtcClient`: cases and impacts through
    `paginate_records`, notifications through two GET endpoints, and the
    composed case-details lookup. */
module MtcClient {
  import opened Json
  import opened Api
  import opened Client
  import opened PaginationProperties

  /** `get_cases`: the caller's params go to `paginate_records` as they are,
      beside its `url`. */
  function GetCases(api: Transport, params: Params): Run<seq<Value>> {
    CallPaginate(api, MaintenanceCases, params)
  }

  /** The params `get_case` paginates with. */
  function CaseFilter(caseNum: string): Params {
    map["filter" := Obj(map["caseNumber" := Str(caseNum)])]
  }

  /** `get_case`: `first()` of the cases matching the case number. */
  function GetCase(api: Transport, caseNum: string): (r: Run<Option<Value>>)
    ensures r.sent == Paginate(api, MaintenanceCases, CaseFilter(caseNum)).sent
    ensures r.result.Ok? && r.result.value.Some? ==> Truthy(r.result.value.value)
  {
    var run := Paginate(api, MaintenanceCases, CaseFilter(caseNum));
    match run.result
    case Err(e) => Run(Err(e), run.sent)
    case Ok(records) => Run(Ok(First(records)), run.sent)
  }

  /** The filter `get_impacts` computes: a truthy case number wins over a truthy
      circuit id; with neither the filter is empty. */
  function ImpactFilter(byCircuitId: Value, byCaseNum: Value): Value {
    if Truthy(byCaseNum) then Obj(map["caseNumber" := byCaseNum])
    else if Truthy(byCircuitId) then Obj(map["circuitId" := byCircuitId])
    else Obj(map[])
  }

  /** `{"filter": req_filter, **params}`: a `filter` among the caller's params
      replaces the computed one. */
  function ImpactParams(filter: Value, params: Params): Params {
    map["filter" := filter] + params
  }

  /** `get_impacts`: the computed filter and the caller's params go to
      `paginate_records` beside its `url`. */
  function GetImpacts(api: Transport, byCircuitId: Value, byCaseNum: Value, params: Params): Run<seq<Value>> {
    CallPaginate(api, MaintenanceImpacts, ImpactParams(ImpactFilter(byCircuitId, byCaseNum), params))
  }

  /** One GET: an error status raises, otherwise the result is `body["data"]`. */
  function FetchData(api: Transport, route: Route): (r: Run<Value>)
    ensures r.sent == [Get(route)]
    ensures r.result.Ok? <==> !api(Get(route)).isError && Field(api(Get(route)).body, "data").Some?
    ensures r.result.Ok? ==> r.result.value == api(Get(route)).body.fields["data"]
    ensures api(Get(route)).isError ==> r.result == Err(HttpError)
    ensures !api(Get(route)).isError && Field(api(Get(route)).body, "data").None? ==> r.result == Err(Malformed)
  {
    var res := api(Get(route));
    if res.isError then Run(Err(HttpError), [Get(route)])
    else match Field(res.body, "data")
      case None => Run(Err(Malformed), [Get(route)])
      case Some(data) => Run(Ok(data), [Get(route)])
  }

  /** `get_notifications`: the notification headers of a case. */
  function GetNotifications(api: Transport, caseNum: string): Run<Value> {
    FetchData(api, NotificationsByCase(caseNum))
  }

  /** `get_notification_details`: one notification, by name. */
  function GetNotificationDetails(api: Transport, name: Value): Run<Value> {
    FetchData(api, NotificationByName(name))
  }

  /** The items a Python `for` loop visits in a value. A list gives its
      elements; an empty dict or string gives nothing; a non-empty dict or
      string gives strings, on which the loop's `notif["name"]` raises; any
      other value is not iterable. */
  function Iterate(v: Value): (r: Result<seq<Value>>)
    ensures v.Arr? ==> r == Ok(v.items)
    ensures r.Ok? <==> v.Arr? || v == Obj(map[]) || v == Str("")
    ensures r.Ok? && !v.Arr? ==> r.value == []
    ensures r.Err? ==> r.error == Malformed
  {
    match v
    case Arr(items) => Ok(items)
    case Obj(fields) => if fields == map[] then Ok([]) else Err(Malformed)
    case Str(s) => if s == "" then Ok([]) else Err(Malformed)
    case _ => Err(Malformed)
  }

  /** `notif["name"]`. */
  function NameOf(notif: Value): Result<Value> {
    match Field(notif, "name")
    case None => Err(Malformed)
    case Some(name) => Ok(name)
  }

  /** The list comprehension of `get_case_details`: one detail fetch per header,
      in header order, stopping at the first one that raises. */
  function FetchDetails(api: Transport, headers: seq<Value>): (r: Run<seq<Value>>)
    ensures |r.sent| <= |headers|
    ensures forall i :: 0 <= i < |r.sent| ==>
              NameOf(headers[i]).Ok? && r.sent[i] == Get(NotificationByName(NameOf(headers[i]).value))
    ensures r.result.Ok? ==> |r.result.value| == |headers| == |r.sent|
    ensures r.result.Ok? ==> forall i :: 0 <= i < |headers| ==>
              GetNotificationDetails(api, NameOf(headers[i]).value).result == Ok(r.result.value[i])
  {
    if headers == [] then Run(Ok([]), [])
    else match NameOf(headers[0])
      case Err(e) => Run(Err(e), [])
      case Ok(name) =>
        var first := GetNotificationDetails(api, name);
        match first.result
        case Err(e) => Run(Err(e), first.sent)
        case Ok(detail) =>
          var rest := FetchDetails(api, headers[1..]);
          var result := if rest.result.Ok? then Ok([detail] + rest.result.value) else Err(rest.result.error);
          Run(result, first.sent + rest.sent)
  }

  /** The `(case, impacts, notif_details)` triple, or `(None, None, None)`. */
  datatype CaseDetails = NotFound | Found(record: Value, impacts: seq<Value>, details: seq<Value>)

  /** `get_case_details`: the case, then its impacts, then one detail per
      notification header; a missing case short-circuits. */
  function GetCaseDetails(api: Transport, caseNum: string): (r: Run<CaseDetails>)
    ensures GetCase(api, caseNum).sent <= r.sent
    ensures GetCase(api, caseNum).result.Err? ==> r.result == Err(GetCase(api, caseNum).result.error)
    ensures r.result.Ok? && r.result.value.Found? ==> Truthy(r.result.value.record)
  {
    var c := GetCase(api, caseNum);
    match c.result
    case Err(e) => Run(Err(e), c.sent)
    case Ok(found) =>
      if found.None? || !Truthy(found.value) then Run(Ok(NotFound), c.sent)
      else
        var rest := CaseFollowUp(api, caseNum, found.value);
        Run(rest.result, c.sent + rest.sent)
  }

  /** What `get_case_details` does once the case `rec` is found: its impacts,
      then its notification headers, then one detail per header. */
  function CaseFollowUp(api: Transport, caseNum: string, rec: Value): (r: Run<CaseDetails>)
    ensures r.result.Ok? ==> r.result.value.Found? && r.result.value.record == rec
  {
    var imp := GetImpacts(api, Null, Str(caseNum), map[]);
    match imp.result
    case Err(e) => Run(Err(e), imp.sent)
    case Ok(impacts) =>
      var notifs := GetNotifications(api, caseNum);
      var sent := imp.sent + notifs.sent;
      match notifs.result
      case Err(e) => Run(Err(e), sent)
      case Ok(listing) =>
        match Iterate(listing)
        case Err(e) => Run(Err(e), sent)
        case Ok(headers) =>
          var ds := FetchDetails(api, headers);
          match ds.result
          case Err(e) => Run(Err(e), sent + ds.sent)
          case Ok(details) => Run(Ok(Found(rec, impacts, details)), sent + ds.sent)
  }

  // ---------------------------------------------------------------------------
  // Properties

  /** `get_cases` sends every one of its requests to the cases route, each
      carrying all of the caller's params except `paging`. */
  lemma GetCasesPassesParams(api: Transport, params: Params)
    ensures forall q :: q in GetCases(api, params).sent ==>
              q.Post? && q.route == MaintenanceCases && SameExceptPaging(q.body, params)
  {
    RequestsKeepCriteria(api, MaintenanceCases, params);
  }

  /** `get_case` asks the cases route, at the default page size, for the records
      whose `caseNumber` is the one given, and returns the first truthy one of
      them, or None when there is none. */
  lemma GetCaseSelectsFirstMatch(api: Transport, caseNum: string)
    ensures PrepareParams(CaseFilter(caseNum)).Ok?
    ensures PrepareParams(CaseFilter(caseNum)).value.size == Int(MAX_TOP_COUNT)
    ensures forall q :: q in GetCase(api, caseNum).sent ==>
              q.Post? && q.route == MaintenanceCases &&
              "filter" in q.body && q.body["filter"] == Obj(map["caseNumber" := Str(caseNum)])
    ensures var records := Paginate(api, MaintenanceCases, CaseFilter(caseNum)).result;
            && (records.Err? ==> GetCase(api, caseNum).result == Err(records.error))
            && (records.Ok? ==>
                  && (GetCase(api, caseNum).result == Ok(None) <==>
                        forall i :: 0 <= i < |records.value| ==> !Truthy(records.value[i]))
                  && (GetCase(api, caseNum).result.Ok? && GetCase(api, caseNum).result.value.Some? ==>
                        exists i :: 0 <= i < |records.value| &&
                          records.value[i] == GetCase(api, caseNum).result.value.value &&
                          forall j :: 0 <= j < i ==> !Truthy(records.value[j])))
  {
    RequestsKeepCriteria(api, MaintenanceCases, CaseFilter(caseNum));
  }

  /** What a request body that differs from the params `get_impacts` paginates
      with only in `paging` carries: the caller's params, and the filter chosen by
      precedence. */
  lemma ImpactBody(body: Params, byCircuitId: Value, byCaseNum: Value, params: Params)
    requires SameExceptPaging(body, ImpactParams(ImpactFilter(byCircuitId, byCaseNum), params))
    ensures forall k :: k in params && k != "paging" ==> k in body && body[k] == params[k]
    ensures "filter" in body
    ensures body["filter"] == if "filter" in params then params["filter"]
                              else if Truthy(byCaseNum) then Obj(map["caseNumber" := byCaseNum])
                              else if Truthy(byCircuitId) then Obj(map["circuitId" := byCircuitId])
                              else Obj(map[])
  {
    var p := ImpactParams(ImpactFilter(byCircuitId, byCaseNum), params);
    assert "filter" in p.Keys - {"paging"};
    assert forall k :: k in params && k != "paging" ==> k in p.Keys - {"paging"} && p[k] == params[k];
  }

  /** Every request `get_impacts` sends goes to the impacts route with the
      caller's params except `paging` unchanged, and with the filter chosen by
      precedence: the caller's own `filter` param, else the case number when it
      is truthy, else the circuit id when it is truthy, else `{}`. */
  lemma ImpactsFilterPrecedence(api: Transport, byCircuitId: Value, byCaseNum: Value, params: Params)
    ensures forall q :: q in GetImpacts(api, byCircuitId, byCaseNum, params).sent ==>
              && q.Post? && q.route == MaintenanceImpacts
              && (forall k :: k in params && k != "paging" ==> k in q.body && q.body[k] == params[k])
              && "filter" in q.body
              && q.body["filter"] == if "filter" in params then params["filter"]
                                     else if Truthy(byCaseNum) then Obj(map["caseNumber" := byCaseNum])
                                     else if Truthy(byCircuitId) then Obj(map["circuitId" := byCircuitId])
                                     else Obj(map[])
  {
    var p := ImpactParams(ImpactFilter(byCircuitId, byCaseNum), params);
    RequestsKeepCriteria(api, MaintenanceImpacts, p);
    forall q | q in GetImpacts(api, byCircuitId, byCaseNum, params).sent
      ensures q.Post? && q.route == MaintenanceImpacts
      ensures forall k :: k in params && k != "paging" ==> k in q.body && q.body[k] == params[k]
      ensures "filter" in q.body
      ensures q.body["filter"] == if "filter" in params then params["filter"]
                                  else if Truthy(byCaseNum) then Obj(map["caseNumber" := byCaseNum])
                                  else if Truthy(byCircuitId) then Obj(map["circuitId" := byCircuitId])
                                  else Obj(map[])
    {
      ImpactBody(q.body, byCircuitId, byCaseNum, params);
    }
  }

  /** `get_case_details` finds nothing exactly when `get_case` finds nothing, and
      then it has sent only the case lookup's requests: no impact and no
      notification fetch. */
  lemma CaseDetailsShortCircuit(api: Transport, caseNum: string)
    ensures GetCaseDetails(api, caseNum).result == Ok(NotFound) <==> GetCase(api, caseNum).result == Ok(None)
    ensures GetCase(api, caseNum).result == Ok(None) ==>
              GetCaseDetails(api, caseNum).sent == GetCase(api, caseNum).sent
  {
  }

  /** A found case comes with the impacts of its case number and with one
      detail per notification header, in header order, each the data of the
      GET for that header's name. */
  lemma CaseDetailsFound(api: Transport, caseNum: string)
    requires GetCaseDetails(api, caseNum).result.Ok? && GetCaseDetails(api, caseNum).result.value.Found?
    ensures var d := GetCaseDetails(api, caseNum).result.value;
            && GetCase(api, caseNum).result == Ok(Some(d.record))
            && GetImpacts(api, Null, Str(caseNum), map[]).result == Ok(d.impacts)
            && GetNotifications(api, caseNum).result.Ok?
            && Iterate(GetNotifications(api, caseNum).result.value).Ok?
            && var headers := Iterate(GetNotifications(api, caseNum).result.value).value;
               && |d.details| == |headers|
               && forall i :: 0 <= i < |headers| ==>
                    NameOf(headers[i]).Ok? &&
                    GetNotificationDetails(api, NameOf(headers[i]).value).result == Ok(d.details[i])
  {
    var c := GetCase(api, caseNum);
    assert c.result.Ok? && c.result.value.Some? && Truthy(c.result.value.value);
    var imp := GetImpacts(api, Null, Str(caseNum), map[]);
    assert imp.result.Ok?;
    var notifs := GetNotifications(api, caseNum);
    assert notifs.result.Ok? && Iterate(notifs.result.value).Ok?;
    var ds := FetchDetails(api, Iterate(notifs.result.value).value);
    assert ds.result.Ok?;
    assert GetCaseDetails(api, caseNum).result
        == Ok(Found(c.result.value.value, imp.result.value, ds.result.value));
  }

  /** Header `h` has a name and the detail fetch for that name succeeds. */
  predicate DetailFetched(api: Transport, h: Value) {
    NameOf(h).Ok? && GetNotificationDetails(api, NameOf(h).value).result.Ok?
  }

  /** What a header whose detail cannot be had raises: the missing name, or
      the failed fetch's error. */
  function DetailError(api: Transport, h: Value): Error
    requires !DetailFetched(api, h)
  {
    if NameOf(h).Err? then NameOf(h).error else GetNotificationDetails(api, NameOf(h).value).result.error
  }

  /** The GET a header contributes: none when it has no name. */
  function DetailRequests(h: Value): nat {
    if NameOf(h).Err? then 0 else 1
  }

  /** When every header has a name and every detail fetch succeeds, the
      comprehension succeeds with one GET per header, in header order. */
  lemma {:induction false} FetchDetailsSucceed(api: Transport, headers: seq<Value>)
    requires forall i :: 0 <= i < |headers| ==> DetailFetched(api, headers[i])
    ensures FetchDetails(api, headers).result.Ok?
    ensures FetchDetails(api, headers).sent
            == seq(|headers|, i requires 0 <= i < |headers| => Get(NotificationByName(NameOf(headers[i]).value)))
    decreases |headers|
  {
    if headers != [] {
      assert forall i :: 0 <= i < |headers| - 1 ==> headers[1..][i] == headers[i + 1];
      FetchDetailsSucceed(api, headers[1..]);
    }
  }

  /** The comprehension stopped at header `k`: every header before it was
      fetched, header `k`'s detail cannot be had and its error is the result,
      and nothing after it was sent. */
  predicate FailsAt(api: Transport, headers: seq<Value>, k: int) {
    && 0 <= k < |headers|
    && (forall i :: 0 <= i < k ==> DetailFetched(api, headers[i]))
    && !DetailFetched(api, headers[k])
    && FetchDetails(api, headers).result.Err?
    && FetchDetails(api, headers).result.error == DetailError(api, headers[k])
    && |FetchDetails(api, headers).sent| == k + DetailRequests(headers[k])
  }

  /** The comprehension fails exactly at the first header whose detail cannot
      be had: every header before it was fetched, that header's error is the
      result, and nothing after it is sent. */
  lemma {:induction false} FetchDetailsFails(api: Transport, headers: seq<Value>)
    requires FetchDetails(api, headers).result.Err?
    ensures exists k :: FailsAt(api, headers, k)
    decreases |headers|
  {
    var r := FetchDetails(api, headers);
    if DetailFetched(api, headers[0]) {
      var tail := headers[1..];
      FetchDetailsFails(api, tail);
      var k :| FailsAt(api, tail, k);
      assert forall i :: 0 <= i < |tail| ==> tail[i] == headers[i + 1];
      assert |r.sent| == 1 + |FetchDetails(api, tail).sent|;
      assert r.result.error == FetchDetails(api, tail).result.error;
      assert FailsAt(api, headers, k + 1);
    } else {
      assert FailsAt(api, headers, 0);
    }
  }

  /** Requests sent in four stages, grouped either way. */
  lemma Regroup(a: seq<Request>, b: seq<Request>, c: seq<Request>, d: seq<Request>)
    ensures a + (b + c + d) == a + b + c + d
    ensures a + (b + c) == a + b + c
  {
  }

  /** Once the case is found, the details are its follow-up's, after the case
      lookup's requests. */
  lemma CaseFoundFollowsUp(api: Transport, caseNum: string, rec: Value)
    requires GetCase(api, caseNum).result == Ok(Some(rec)) && Truthy(rec)
    ensures GetCaseDetails(api, caseNum)
            == Run(CaseFollowUp(api, caseNum, rec).result, GetCase(api, caseNum).sent + CaseFollowUp(api, caseNum, rec).sent)
  {
  }

  /** The follow-up when the impacts, the headers and every detail are had. */
  lemma FollowUpSucceeds(api: Transport, caseNum: string, rec: Value)
    requires GetImpacts(api, Null, Str(caseNum), map[]).result.Ok?
    requires GetNotifications(api, caseNum).result.Ok?
    requires Iterate(GetNotifications(api, caseNum).result.value).Ok?
    requires FetchDetails(api, Iterate(GetNotifications(api, caseNum).result.value).value).result.Ok?
    ensures var imp := GetImpacts(api, Null, Str(caseNum), map[]);
            var n := GetNotifications(api, caseNum);
            var ds := FetchDetails(api, Iterate(n.result.value).value);
            CaseFollowUp(api, caseNum, rec) == Run(Ok(Found(rec, imp.result.value, ds.result.value)), imp.sent + n.sent + ds.sent)
  {
  }

  /** When the case is found and every later step succeeds, the details are the
      case, its impacts and the fetched details, and exactly the requests of
      the case lookup, the impacts, the notification headers and the detail
      fetches are sent, in that order. */
  lemma CaseDetailsSucceed(api: Transport, caseNum: string, rec: Value)
    requires GetCase(api, caseNum).result == Ok(Some(rec)) && Truthy(rec)
    requires GetImpacts(api, Null, Str(caseNum), map[]).result.Ok?
    requires GetNotifications(api, caseNum).result.Ok?
    requires Iterate(GetNotifications(api, caseNum).result.value).Ok?
    requires FetchDetails(api, Iterate(GetNotifications(api, caseNum).result.value).value).result.Ok?
    ensures var imp := GetImpacts(api, Null, Str(caseNum), map[]);
            var n := GetNotifications(api, caseNum);
            var ds := FetchDetails(api, Iterate(n.result.value).value);
            GetCaseDetails(api, caseNum)
            == Run(Ok(Found(rec, imp.result.value, ds.result.value)), GetCase(api, caseNum).sent + imp.sent + n.sent + ds.sent)
  {
    var imp := GetImpacts(api, Null, Str(caseNum), map[]);
    var n := GetNotifications(api, caseNum);
    var ds := FetchDetails(api, Iterate(n.result.value).value);
    CaseFoundFollowsUp(api, caseNum, rec);
    FollowUpSucceeds(api, caseNum, rec);
    Regroup(GetCase(api, caseNum).sent, imp.sent, n.sent, ds.sent);
  }

  /** After a found case, an impacts error, a notifications error, a
      notification listing that cannot be iterated or a failed detail fetch is
      the result, and nothing after the failing step is sent. */
  lemma CaseDetailsPassesErrors(api: Transport, caseNum: string, rec: Value)
    requires GetCase(api, caseNum).result == Ok(Some(rec)) && Truthy(rec)
    ensures var c := GetCase(api, caseNum);
            var imp := GetImpacts(api, Null, Str(caseNum), map[]);
            imp.result.Err? ==> GetCaseDetails(api, caseNum) == Run(Err(imp.result.error), c.sent + imp.sent)
    ensures var c := GetCase(api, caseNum);
            var imp := GetImpacts(api, Null, Str(caseNum), map[]);
            var n := GetNotifications(api, caseNum);
            imp.result.Ok? && n.result.Err? ==>
              GetCaseDetails(api, caseNum) == Run(Err(n.result.error), c.sent + imp.sent + n.sent)
    ensures var c := GetCase(api, caseNum);
            var imp := GetImpacts(api, Null, Str(caseNum), map[]);
            var n := GetNotifications(api, caseNum);
            imp.result.Ok? && n.result.Ok? && Iterate(n.result.value).Err? ==>
              GetCaseDetails(api, caseNum) == Run(Err(Malformed), c.sent + imp.sent + n.sent)
    ensures var c := GetCase(api, caseNum);
            var imp := GetImpacts(api, Null, Str(caseNum), map[]);
            var n := GetNotifications(api, caseNum);
            imp.result.Ok? && n.result.Ok? && Iterate(n.result.value).Ok? &&
            FetchDetails(api, Iterate(n.result.value).value).result.Err? ==>
              var ds := FetchDetails(api, Iterate(n.result.value).value);
              GetCaseDetails(api, caseNum) == Run(Err(ds.result.error), c.sent + imp.sent + n.sent + ds.sent)
  {
    var imp := GetImpacts(api, Null, Str(caseNum), map[]);
    var n := GetNotifications(api, caseNum);
    CaseFoundFollowsUp(api, caseNum, rec);
    Regroup(GetCase(api, caseNum).sent, imp.sent, n.sent, []);
    if imp.result.Ok? && n.result.Ok? && Iterate(n.result.value).Ok? {
      var ds := FetchDetails(api, Iterate(n.result.value).value);
      Regroup(GetCase(api, caseNum).sent, imp.sent, n.sent, ds.sent);
    }
  }
}
