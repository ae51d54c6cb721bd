/** The `/api/plan` handler of the backend: validate the request, choose at most
    one call to the mapping provider, and shape its answer into `{kind, data}`.
    The handler is split at the provider call: `Decide` says which call (if any)
    is made, and `Shape` turns the call's outcome into the reply. */
module PlanEndpoint {
  import opened Wrappers
  import opened Text
  import opened Provider

  const MissingFields := "origin and destination are required"
  const UnknownMode := "unknown transportMode"
  const ServerError := "Server error"
  const AgencyQueryPrefix := "travel agency in "
  /** At most this many agencies are returned. */
  const AgencyLimit := 6

  /** The JSON body `{origin, destination, transportMode}`. */
  datatype PlanRequest = PlanRequest(
    origin: Option<string>,
    destination: Option<string>,
    transportMode: Option<string>)

  /** The `mode` query parameter of a directions call. */
  datatype TravelMode = DrivingMode | TransitMode {
    function Param(): string {
      if DrivingMode? then "driving" else "transit"
    }
  }

  /** What the handler does before it answers: reject the request outright,
      or make one directions or one places text-search call. */
  datatype Decision =
    | Reject(status: nat, message: string)
    | CallDirections(origin: string, destination: string, mode: TravelMode, alternatives: bool)
    | CallPlaces(query: string)

  /** One entry of the agency list; a field the provider left out stays out. */
  datatype AgencyEntry = AgencyEntry(
    name: Option<string>,
    address: Option<string>,
    rating: Option<real>,
    placeId: Option<string>)

  /** The reply: an error status with `{error}`, or 200 with `{kind, data}`. */
  datatype PlanResponse =
    | ErrorReply(status: nat, error: string)
    | DrivingReply(data: MapsData)
    | TransitReply(data: MapsData)
    | AgenciesReply(agencies: seq<AgencyEntry>)
  {
    function Status(): nat {
      if ErrorReply? then status else 200
    }

    /** The `kind` field of a successful reply. */
    function Kind(): Option<string> {
      match this
      case ErrorReply(_, _) => None
      case DrivingReply(_) => Some("driving")
      case TransitReply(_) => Some("transit")
      case AgenciesReply(_) => Some("agencies")
    }
  }

  predicate HasEndpoints(req: PlanRequest) {
    Truthy(req.origin) && Truthy(req.destination)
  }

  predicate KnownMode(mode: Option<string>) {
    mode == Some("own") || mode == Some("public") || mode == Some("agency")
  }

  /** Validation and dispatch on `transportMode`. */
  function Decide(req: PlanRequest): (d: Decision)
    ensures !HasEndpoints(req) ==> d == Reject(400, MissingFields)
    ensures HasEndpoints(req) && req.transportMode == Some("own") ==>
      d == CallDirections(req.origin.value, req.destination.value, DrivingMode, true)
    ensures HasEndpoints(req) && req.transportMode == Some("public") ==>
      d == CallDirections(req.origin.value, req.destination.value, TransitMode, true)
    ensures HasEndpoints(req) && req.transportMode == Some("agency") ==>
      d == CallPlaces(AgencyQueryPrefix + req.destination.value)
    ensures HasEndpoints(req) && !KnownMode(req.transportMode) ==> d == Reject(400, UnknownMode)
    ensures d.Reject? <==> !(HasEndpoints(req) && KnownMode(req.transportMode))
  {
    if !Truthy(req.origin) || !Truthy(req.destination) then
      Reject(400, MissingFields)
    else if req.transportMode == Some("own") then
      CallDirections(req.origin.value, req.destination.value, DrivingMode, true)
    else if req.transportMode == Some("public") then
      CallDirections(req.origin.value, req.destination.value, TransitMode, true)
    else if req.transportMode == Some("agency") then
      CallPlaces(AgencyQueryPrefix + req.destination.value)
    else
      Reject(400, UnknownMode)
  }

  function Min(a: nat, b: nat): nat {
    if a <= b then a else b
  }

  function ProjectPlace(p: Place): AgencyEntry {
    AgencyEntry(p.name, p.formattedAddress, p.rating, p.placeId)
  }

  /** `(results || []).slice(0, 6).map(...)`: the first six places, in order,
      each reduced to name, address, rating and place id. */
  function TopAgencies(results: Option<seq<Place>>): (r: seq<AgencyEntry>)
    ensures results.None? ==> r == []
    ensures |r| == Min(|results.GetOr([])|, AgencyLimit)
    ensures forall i :: 0 <= i < |r| ==>
      var p := results.value[i];
      r[i].name == p.name && r[i].address == p.formattedAddress &&
      r[i].rating == p.rating && r[i].placeId == p.placeId
  {
    var ps := results.GetOr([]);
    var top := ps[..Min(|ps|, AgencyLimit)];
    seq(|top|, i requires 0 <= i < |top| => ProjectPlace(top[i]))
  }

  /** The reply for a decision, given the outcome of the provider call when
      one was decided; a rejection ignores the outcome, a failed call becomes
      a fixed 500. */
  function Shape(d: Decision, upstream: Result<MapsData, UpstreamError>): (r: PlanResponse)
    ensures d.Reject? ==> r == ErrorReply(d.status, d.message)
    ensures !d.Reject? && upstream.Err? ==> r == ErrorReply(500, ServerError)
    ensures d.CallDirections? && upstream.Ok? ==>
      r.Kind() == Some(d.mode.Param()) && r.Status() == 200 &&
      (r.DrivingReply? || r.TransitReply?) && r.data == upstream.value
    ensures d.CallPlaces? && upstream.Ok? ==>
      r.Kind() == Some("agencies") && r.Status() == 200 &&
      r == AgenciesReply(TopAgencies(upstream.value.results))
  {
    match d
    case Reject(status, message) => ErrorReply(status, message)
    case CallDirections(_, _, mode, _) =>
      (match upstream
       case Err(_) => ErrorReply(500, ServerError)
       case Ok(data) => if mode == DrivingMode then DrivingReply(data) else TransitReply(data))
    case CallPlaces(_) =>
      (match upstream
       case Err(_) => ErrorReply(500, ServerError)
       case Ok(data) => AgenciesReply(TopAgencies(data.results)))
  }

  /** The whole handler: `upstream` is the outcome of the call `Decide` chose,
      and is not looked at when it chose none. */
  function HandlePlan(req: PlanRequest, upstream: Result<MapsData, UpstreamError>): (r: PlanResponse)
    ensures r.Status() == 400 <==> !(HasEndpoints(req) && KnownMode(req.transportMode))
    ensures r.Status() == 500 <==> HasEndpoints(req) && KnownMode(req.transportMode) && upstream.Err?
    ensures r.ErrorReply? ==> r.error == MissingFields || r.error == UnknownMode || r.error == ServerError
    ensures r.DrivingReply? ==> req.transportMode == Some("own") && r.data == upstream.value
    ensures r.TransitReply? ==> req.transportMode == Some("public") && r.data == upstream.value
    ensures r.AgenciesReply? ==> req.transportMode == Some("agency") && r.agencies == TopAgencies(upstream.value.results)
  {
    Shape(Decide(req), upstream)
  }

  /** A request without a (non-empty) origin or destination is refused with
      400 before anything else, whatever its transportMode and whatever the
      provider would have answered. */
  lemma MissingEndpointsRejected(req: PlanRequest, u1: Result<MapsData, UpstreamError>, u2: Result<MapsData, UpstreamError>)
    requires !HasEndpoints(req)
    ensures HandlePlan(req, u1) == HandlePlan(req, u2) == ErrorReply(400, MissingFields)
  {
  }

  /** transportMode "own": a driving directions call with alternatives, and
      the provider's body is returned unmodified under kind "driving". */
  lemma OwnModeDrives(req: PlanRequest, data: MapsData)
    requires HasEndpoints(req) && req.transportMode == Some("own")
    ensures Decide(req).CallDirections? && Decide(req).mode.Param() == "driving" && Decide(req).alternatives
    ensures HandlePlan(req, Ok(data)) == DrivingReply(data)
    ensures HandlePlan(req, Ok(data)).Kind() == Some("driving")
  {
  }

  /** transportMode "public": a transit directions call with alternatives, and
      the provider's body is returned unmodified under kind "transit". */
  lemma PublicModeUsesTransit(req: PlanRequest, data: MapsData)
    requires HasEndpoints(req) && req.transportMode == Some("public")
    ensures Decide(req).CallDirections? && Decide(req).mode.Param() == "transit" && Decide(req).alternatives
    ensures HandlePlan(req, Ok(data)) == TransitReply(data)
    ensures HandlePlan(req, Ok(data)).Kind() == Some("transit")
  {
  }

  /** transportMode "agency": the places query names the destination, and the
      reply lists at most six agencies, the i-th taken from the i-th result. */
  lemma AgencyModeSearchesPlaces(req: PlanRequest, data: MapsData)
    requires HasEndpoints(req) && req.transportMode == Some("agency")
    ensures Decide(req) == CallPlaces("travel agency in " + req.destination.value)
    ensures var r := HandlePlan(req, Ok(data));
      r.AgenciesReply? && |r.agencies| <= 6 &&
      |r.agencies| == Min(|data.results.GetOr([])|, 6) &&
      forall i :: 0 <= i < |r.agencies| ==> r.agencies[i] == ProjectPlace(data.results.value[i])
  {
  }

  /** Truncation keeps a prefix: the agencies for a longer result list start
      with the agencies for any of its prefixes of at most six places. */
  lemma {:induction false} TopAgenciesPrefix(ps: seq<Place>, n: nat)
    requires n <= |ps|
    ensures TopAgencies(Some(ps[..n])) == TopAgencies(Some(ps))[..Min(n, AgencyLimit)]
  {
    var a := TopAgencies(Some(ps[..n]));
    var b := TopAgencies(Some(ps))[..Min(n, AgencyLimit)];
    assert |a| == |b|;
    forall i | 0 <= i < |a| ensures a[i] == b[i] {
      assert ps[..n][i] == ps[i];
    }
  }

  /** Failures never echo the provider: every error reply is 400 or 500 with
      one of three fixed messages, and two failed calls give the same reply
      whatever the provider's error said. */
  lemma ErrorsAreFixed(req: PlanRequest, u: Result<MapsData, UpstreamError>, e1: UpstreamError, e2: UpstreamError)
    ensures var r := HandlePlan(req, u);
      r.ErrorReply? ==>
        (r.status == 400 && (r.error == MissingFields || r.error == UnknownMode)) ||
        (r.status == 500 && r.error == ServerError)
    ensures HandlePlan(req, Err(e1)) == HandlePlan(req, Err(e2))
  {
  }

  /** Together with the 400 and 500 cases of `HandlePlan`, the status
      classifies the request: 200 exactly when a decided call succeeded. */
  lemma StatusClassifies(req: PlanRequest, u: Result<MapsData, UpstreamError>)
    ensures HandlePlan(req, u).Status() == 200 <==> HasEndpoints(req) && KnownMode(req.transportMode) && u.Ok?
  {
  }
}
