/** The service-inventory fetchers of `ZayoServiceInventoryMixin`: all services
    through `paginate_records`, and the lookup of one service by the circuit id
    of its first component. */
module ServiceInventory {
  import opened Json
  import opened Api
  import opened Client
  import opened PaginationProperties

  /** `get_services`: the caller's params go to `paginate_records` as they are,
      beside its `url`. */
  function GetServices(api: Transport, params: Params): Run<seq<Value>> {
    CallPaginate(api, Services, params)
  }

  /** `rec["components"][0]["circuitId"]`: a record that is not an object with a
      non-empty `components` list whose first element is an object holding a
      `circuitId` makes that subscript raise. */
  function CircuitOf(rec: Value): (r: Result<Value>)
    ensures r.Err? ==> r.error == Malformed
    ensures r.Ok? <==> match Field(rec, "components")
                       case Some(Arr(cs)) => cs != [] && Field(cs[0], "circuitId").Some?
                       case _ => false
    ensures r.Ok? ==> r.value == rec.fields["components"].items[0].fields["circuitId"]
    ensures r.Ok? ==> Truthy(rec)
  {
    match Field(rec, "components")
    case Some(Arr(cs)) =>
      if cs == [] then Err(Malformed)
      else (match Field(cs[0], "circuitId")
        case None => Err(Malformed)
        case Some(id) => Ok(id))
    case _ => Err(Malformed)
  }

  /** `rec` is well formed and its first component carries that circuit id. */
  predicate Matches(rec: Value, circuitId: string) {
    CircuitOf(rec) == Ok(Str(circuitId))
  }

  /** `rec` is well formed and its first component carries another circuit id. */
  predicate Passes(rec: Value, circuitId: string) {
    CircuitOf(rec).Ok? && CircuitOf(rec).value != Str(circuitId)
  }

  /** `first(rec for rec in records if <circuit id matches>)`: the generator is
      consumed lazily, so the scan stops at the first match, and a malformed
      record raises only when it is reached before one. */
  function FindByCircuit(recs: seq<Value>, circuitId: string): (r: Result<Option<Value>>)
    ensures r == Ok(None) <==> forall i :: 0 <= i < |recs| ==> Passes(recs[i], circuitId)
    ensures r.Ok? && r.value.Some? ==>
              Truthy(r.value.value) &&
              exists i :: 0 <= i < |recs| && recs[i] == r.value.value && Matches(recs[i], circuitId) &&
                forall j :: 0 <= j < i ==> Passes(recs[j], circuitId)
    ensures r.Err? ==>
              r.error == Malformed &&
              exists i :: 0 <= i < |recs| && CircuitOf(recs[i]).Err? &&
                forall j :: 0 <= j < i ==> Passes(recs[j], circuitId)
  {
    if recs == [] then Ok(None)
    else match CircuitOf(recs[0])
      case Err(e) => Err(e)
      case Ok(id) =>
        if id == Str(circuitId) then Ok(Some(recs[0]))
        else
          var rest := FindByCircuit(recs[1..], circuitId);
          assert forall i :: 1 <= i < |recs| ==> recs[i] == recs[1..][i - 1];
          rest
  }

  /** `get_service_by_circuit_id`: the first-match scan of the records
      `get_services` returns; a pagination error passes through. */
  function GetServiceByCircuitId(api: Transport, circuitId: string, params: Params): (r: Run<Option<Value>>)
    ensures r.sent == GetServices(api, params).sent
    ensures GetServices(api, params).result.Err? ==> r.result == Err(GetServices(api, params).result.error)
    ensures GetServices(api, params).result.Ok? ==>
              r.result == FindByCircuit(GetServices(api, params).result.value, circuitId)
  {
    var run := CallPaginate(api, Services, params);
    match run.result
    case Err(e) => Run(Err(e), run.sent)
    case Ok(records) => Run(FindByCircuit(records, circuitId), run.sent)
  }

  // ---------------------------------------------------------------------------
  // Properties

  /** `get_services` and `get_service_by_circuit_id` send every one of their
      requests to the services route, each carrying all of the caller's params
      except `paging`. */
  lemma ServiceRequestsKeepCriteria(api: Transport, circuitId: string, params: Params)
    ensures forall q :: q in GetServiceByCircuitId(api, circuitId, params).sent ==>
              q.Post? && q.route == Services && SameExceptPaging(q.body, params)
  {
    RequestsKeepCriteria(api, Services, params);
  }

  /** Against a server that serves `data` honestly, the lookup scans exactly the
      whole inventory: its answer is the scan of `data`. A `url` or `self`
      among the params fails both calls before anything is sent. */
  lemma HonestLookupScansInventory(data: seq<Value>, api: Transport, circuitId: string,
                                   params: Params, prep: Prepared)
    requires forall q :: api(q) == Serve(data, q)
    requires PrepareParams(params) == Ok(prep)
    requires Number(prep.size).Some? && 0 < Number(prep.size).value <= MAX_TOP_COUNT
    ensures "url" !in params && "self" !in params ==> GetServices(api, params).result == Ok(data)
    ensures "url" !in params && "self" !in params ==>
              GetServiceByCircuitId(api, circuitId, params).result == FindByCircuit(data, circuitId)
    ensures "url" in params || "self" in params ==>
              GetServiceByCircuitId(api, circuitId, params) == Run(Err(DuplicateArgument), [])
  {
    HonestServerYieldsDataset(data, api, Services, params, prep);
  }

  /** Only the first component is compared: a circuit id carried by a later
      component does not make the record match. */
  lemma {:induction false} OnlyFirstComponentCounts(rec: Value, first: Value, later: seq<Value>, circuitId: string)
    requires rec == Obj(map["components" := Arr([first] + later)])
    requires Field(first, "circuitId").Some? && Field(first, "circuitId").value != Str(circuitId)
    ensures FindByCircuit([rec], circuitId) == Ok(None)
  {
    assert ([first] + later)[0] == first;
    assert CircuitOf(rec) == Ok(Field(first, "circuitId").value);
    assert FindByCircuit([rec][1..], circuitId) == Ok(None);
  }

  /** A malformed record after the first match is never reached. */
  lemma {:induction false} MatchHidesLaterMalformed(before: seq<Value>, hit: Value, after: seq<Value>, circuitId: string)
    requires forall i :: 0 <= i < |before| ==> Passes(before[i], circuitId)
    requires Matches(hit, circuitId)
    ensures FindByCircuit(before + [hit] + after, circuitId) == Ok(Some(hit))
    decreases |before|
  {
    var recs := before + [hit] + after;
    if before == [] {
      assert recs[0] == hit;
    } else {
      assert recs[0] == before[0];
      assert recs[1..] == before[1..] + [hit] + after;
      MatchHidesLaterMalformed(before[1..], hit, after, circuitId);
    }
  }
}
