/** The browser side: the transit list built from a `/api/plan` reply, and the
    fallbacks applied to the agency list and to the itinerary text. The replies
    are the backend's own reply datatypes; rendering them as HTML is not part
    of the model. */
module ClientApp {
  import opened Wrappers
  import opened Text
  import opened Provider
  import opened PlanEndpoint
  import opened AiEndpoint

  const Unnamed := "Unnamed"
  const AgencySeparator := ", "
  const NoItinerary := "No itinerary"

  /** One collected transit step: `{line, vehicle, agency}`. */
  datatype TransitEntry = TransitEntry(line: string, vehicle: Option<string>, agency: string)

  /** `json?.data?.routes || []`: only a directions reply carries routes. */
  function RoutesOf(resp: PlanResponse): (routes: seq<Route>)
    ensures (resp.DrivingReply? || resp.TransitReply?) && resp.data.routes.Some? ==>
      routes == resp.data.routes.value
    ensures (resp.DrivingReply? || resp.TransitReply?) && resp.data.routes.None? ==> routes == []
    ensures !(resp.DrivingReply? || resp.TransitReply?) ==> routes == []
  {
    match resp
    case DrivingReply(data) => data.routes.GetOr([])
    case TransitReply(data) => data.routes.GetOr([])
    case _ => []
  }

  /** `td.line?.short_name || td.line?.name || 'Unnamed'`. */
  function LineLabel(line: Option<Line>): (r: string)
    ensures r != ""
    ensures line.Some? && Truthy(line.value.shortName) ==> r == line.value.shortName.value
    ensures line.Some? && !Truthy(line.value.shortName) && Truthy(line.value.name) ==>
      r == line.value.name.value
    ensures line.None? || (!Truthy(line.value.shortName) && !Truthy(line.value.name)) ==> r == Unnamed
  {
    if line.Some? && Truthy(line.value.shortName) then line.value.shortName.value
    else if line.Some? && Truthy(line.value.name) then line.value.name.value
    else Unnamed
  }

  /** `td.agencies || td.line?.agencies || []`: a present list is truthy even
      when it is empty, so it never falls through to the line's list. */
  function AgencyRefs(td: TransitDetails): (refs: seq<AgencyRef>)
    ensures td.agencies.Some? ==> refs == td.agencies.value
    ensures td.agencies.None? && td.line.Some? && td.line.value.agencies.Some? ==>
      refs == td.line.value.agencies.value
    ensures td.agencies.None? && (td.line.None? || td.line.value.agencies.None?) ==> refs == []
  {
    if td.agencies.Some? then td.agencies.value
    else if td.line.Some? && td.line.value.agencies.Some? then td.line.value.agencies.value
    else []
  }

  /** `.map(a => a.name)`; `join` writes a missing name as "". */
  function AgencyNames(refs: seq<AgencyRef>): (names: seq<string>)
    ensures |names| == |refs|
    ensures forall i :: 0 <= i < |refs| ==> names[i] == refs[i].name.GetOr("")
  {
    seq(|refs|, i requires 0 <= i < |refs| => refs[i].name.GetOr(""))
  }

  /** The `agency` field: the names joined with ", ". */
  function AgencyText(td: TransitDetails): (r: string)
    ensures td.agencies == Some([]) ==> r == ""
    ensures td.agencies.None? && (td.line.None? || td.line.value.agencies.None?) ==> r == ""
    ensures |AgencyRefs(td)| == 1 ==> r == AgencyRefs(td)[0].name.GetOr("")
  {
    Join(AgencyNames(AgencyRefs(td)), AgencySeparator)
  }

  /** For any number of operators the agency text is their names in order
      with ", " between neighbours: it is as long as the names and the
      separators together, name i stands after the names before it and i
      separators, and a separator stands just before it. */
  lemma AgencyTextProperties(td: TransitDetails)
    ensures var names := AgencyNames(AgencyRefs(td));
      |AgencyText(td)| == TotalLength(names) + (if names == [] then 0 else (|names| - 1) * 2)
    ensures var names := AgencyNames(AgencyRefs(td));
      forall i :: 0 <= i < |names| ==>
        StandsAt(AgencyText(td), names[i], JoinOffset(names, AgencySeparator, i)) &&
        (i > 0 ==> StandsAt(AgencyText(td), AgencySeparator, JoinOffset(names, AgencySeparator, i) - |AgencySeparator|))
  {
    var names := AgencyNames(AgencyRefs(td));
    JoinLength(names, AgencySeparator);
    JoinItems(names, AgencySeparator);
  }

  /** The `{line, vehicle, agency}` record of one transit step; `vehicle` is
      `td.line?.vehicle?.type`, absent when the line or its vehicle is. */
  function EntryOf(td: TransitDetails): (e: TransitEntry)
    ensures e.line == LineLabel(td.line) && e.line != ""
    ensures td.line.Some? && td.line.value.vehicle.Some? ==> e.vehicle == td.line.value.vehicle.value.kind
    ensures td.line.None? || td.line.value.vehicle.None? ==> e.vehicle.None?
    ensures e.agency == AgencyText(td)
  {
    TransitEntry(
      LineLabel(td.line),
      if td.line.Some? && td.line.value.vehicle.Some? then td.line.value.vehicle.value.kind else None,
      AgencyText(td))
  }

  /** `step.travel_mode === 'TRANSIT' && step.transit_details`. */
  predicate Collected(s: Step) {
    s.travelMode == Some("TRANSIT") && s.transitDetails.Some?
  }

  /** What one step contributes to the list. */
  function StepEntries(s: Step): seq<TransitEntry> {
    if Collected(s) then [EntryOf(s.transitDetails.value)] else []
  }

  /** The entries of a sequence of steps, in order. */
  function Collect(steps: seq<Step>): seq<TransitEntry> {
    if steps == [] then []
    else Collect(steps[..|steps| - 1]) + StepEntries(steps[|steps| - 1])
  }

  /** The steps of the first `n` legs, leg after leg; `leg.steps?.forEach`
      skips a leg without steps. */
  function LegStepsUpTo(legs: seq<Leg>, n: nat): seq<Step>
    requires n <= |legs|
  {
    if n == 0 then [] else LegStepsUpTo(legs, n - 1) + legs[n - 1].steps.GetOr([])
  }

  function LegSteps(legs: seq<Leg>): seq<Step> {
    LegStepsUpTo(legs, |legs|)
  }

  /** The steps of the first `n` routes, route after route;
      `route.legs?.forEach` skips a route without legs. */
  function RouteStepsUpTo(routes: seq<Route>, n: nat): seq<Step>
    requires n <= |routes|
  {
    if n == 0 then [] else RouteStepsUpTo(routes, n - 1) + LegSteps(routes[n - 1].legs.GetOr([]))
  }

  function RouteSteps(routes: seq<Route>): seq<Step> {
    RouteStepsUpTo(routes, |routes|)
  }

  /** The transit list the browser builds from a plan reply. */
  function TransitInfo(resp: PlanResponse): seq<TransitEntry> {
    Collect(RouteSteps(RoutesOf(resp)))
  }

  lemma {:induction false} CollectAppend(a: seq<Step>, b: seq<Step>)
    ensures Collect(a + b) == Collect(a) + Collect(b)
    decreases |b|
  {
    if b != [] {
      var b' := b[..|b| - 1];
      assert (a + b)[..|a + b| - 1] == a + b';
      CollectAppend(a, b');
    } else {
      assert a + b == a;
    }
  }

  /** The steps of the first `n` routes depend only on those routes. */
  lemma {:induction false} RouteStepsUpToPrefix(rs: seq<Route>, ts: seq<Route>, n: nat)
    requires n <= |rs| && n <= |ts| && rs[..n] == ts[..n]
    ensures RouteStepsUpTo(rs, n) == RouteStepsUpTo(ts, n)
  {
    if n > 0 {
      assert rs[n - 1] == rs[..n][n - 1] == ts[..n][n - 1] == ts[n - 1];
      assert rs[..n - 1] == rs[..n][..n - 1] == ts[..n][..n - 1] == ts[..n - 1];
      RouteStepsUpToPrefix(rs, ts, n - 1);
    }
  }

  lemma {:induction false} RouteStepsUpToAppend(a: seq<Route>, b: seq<Route>, k: nat)
    requires k <= |b|
    ensures RouteStepsUpTo(a + b, |a| + k) == RouteSteps(a) + RouteStepsUpTo(b, k)
  {
    if k == 0 {
      assert (a + b)[..|a|] == a[..|a|];
      RouteStepsUpToPrefix(a + b, a, |a|);
    } else {
      RouteStepsUpToAppend(a, b, k - 1);
      var last := LegSteps(b[k - 1].legs.GetOr([]));
      assert (a + b)[|a| + k - 1] == b[k - 1];
      assert RouteStepsUpTo(a + b, |a| + k) == RouteStepsUpTo(a + b, |a| + k - 1) + last;
      assert RouteStepsUpTo(b, k) == RouteStepsUpTo(b, k - 1) + last;
    }
  }

  /** The steps of two lists of routes are the steps of the first followed
      by the steps of the second. */
  lemma RouteStepsAppend(a: seq<Route>, b: seq<Route>)
    ensures RouteSteps(a + b) == RouteSteps(a) + RouteSteps(b)
  {
    RouteStepsUpToAppend(a, b, |b|);
  }

  /** An entry is in the list exactly when some collected step produced it:
      no other step contributes. */
  lemma {:induction false} CollectMembers(steps: seq<Step>, e: TransitEntry)
    ensures e in Collect(steps) <==>
      exists i :: 0 <= i < |steps| && Collected(steps[i]) && EntryOf(steps[i].transitDetails.value) == e
  {
    if steps != [] {
      var init := steps[..|steps| - 1];
      CollectMembers(init, e);
      assert Collect(steps) == Collect(init) + StepEntries(steps[|steps| - 1]);
      assert forall i :: 0 <= i < |init| ==> init[i] == steps[i];
    }
  }

  /** The list is empty exactly when no step is a transit step with details,
      and never longer than the steps. */
  lemma {:induction false} CollectEmptyIff(steps: seq<Step>)
    ensures Collect(steps) == [] <==> forall i :: 0 <= i < |steps| ==> !Collected(steps[i])
    ensures |Collect(steps)| <= |steps|
  {
    if steps != [] {
      var init := steps[..|steps| - 1];
      CollectEmptyIff(init);
      assert forall i :: 0 <= i < |init| ==> init[i] == steps[i];
    }
  }

  /** Routes without legs and legs without steps are passed over: removing
      such a route does not change the transit list. */
  lemma SkipsRouteWithoutSteps(before: seq<Route>, r: Route, after: seq<Route>)
    requires r.legs.None? || LegSteps(r.legs.value) == []
    ensures Collect(RouteSteps(before + [r] + after)) == Collect(RouteSteps(before + after))
  {
    RouteStepsAppend(before + [r], after);
    RouteStepsAppend(before, [r]);
    RouteStepsAppend(before, after);
    assert LegSteps(r.legs.GetOr([])) == [];
    assert RouteSteps([r]) == RouteStepsUpTo([r], 0) + LegSteps(r.legs.GetOr([])) == [];
    assert RouteSteps(before + [r]) == RouteSteps(before);
  }

  /** One more leg adds the entries of its steps at the end. */
  lemma CollectNextLeg(legs: seq<Leg>, j: nat)
    requires j < |legs|
    ensures Collect(LegStepsUpTo(legs, j + 1)) ==
      Collect(LegStepsUpTo(legs, j)) + Collect(legs[j].steps.GetOr([]))
  {
    CollectAppend(LegStepsUpTo(legs, j), legs[j].steps.GetOr([]));
  }

  /** One more route adds the entries of its legs at the end. */
  lemma CollectNextRoute(routes: seq<Route>, i: nat)
    requires i < |routes|
    ensures Collect(RouteStepsUpTo(routes, i + 1)) ==
      Collect(RouteStepsUpTo(routes, i)) + Collect(LegSteps(routes[i].legs.GetOr([])))
  {
    CollectAppend(RouteStepsUpTo(routes, i), LegSteps(routes[i].legs.GetOr([])));
  }

  /** One more step adds that step's entries at the end. */
  lemma CollectNextStep(steps: seq<Step>, k: nat)
    requires k < |steps|
    ensures Collect(steps[..k + 1]) == Collect(steps[..k]) + StepEntries(steps[k])
  {
    assert steps[..k + 1][..k] == steps[..k];
  }

  /** The innermost `leg.steps.forEach`: append the entry of every TRANSIT
      step that has details, in step order. */
  method AppendStepEntries(info: seq<TransitEntry>, steps: seq<Step>) returns (out: seq<TransitEntry>)
    ensures out == info + Collect(steps)
  {
    out := info;
    var k := 0;
    while k < |steps|
      invariant 0 <= k <= |steps|
      invariant out == info + Collect(steps[..k])
    {
      var step := steps[k];
      if step.travelMode == Some("TRANSIT") && step.transitDetails.Some? {
        out := out + [EntryOf(step.transitDetails.value)];
      }
      CollectNextStep(steps, k);
      k := k + 1;
    }
    assert steps[..k] == steps;
  }

  /** The middle `route.legs.forEach`: the entries of one route, its legs in
      order and each leg's steps in order. */
  method CollectLegEntries(legs: seq<Leg>) returns (out: seq<TransitEntry>)
    ensures out == Collect(LegSteps(legs))
  {
    out := [];
    var j := 0;
    while j < |legs|
      invariant 0 <= j <= |legs|
      invariant out == Collect(LegStepsUpTo(legs, j))
    {
      out := AppendStepEntries(out, legs[j].steps.GetOr([]));
      CollectNextLeg(legs, j);
      j := j + 1;
    }
  }

  /** The transit list as the browser builds it: routes, then legs, then
      steps, in order, appending the entry of every TRANSIT step that has
      details. */
  method ExtractTransitInfo(resp: PlanResponse) returns (info: seq<TransitEntry>)
    ensures info == TransitInfo(resp)
  {
    var routes := RoutesOf(resp);
    info := [];
    var i := 0;
    while i < |routes|
      invariant 0 <= i <= |routes|
      invariant info == Collect(RouteStepsUpTo(routes, i))
    {
      var entries := CollectLegEntries(routes[i].legs.GetOr([]));
      info := info + entries;
      CollectNextRoute(routes, i);
      i := i + 1;
    }
  }

  /** What the agency list shows. */
  datatype AgencyView = NoAgenciesFound | AgencyList(entries: seq<AgencyEntry>)

  /** `json?.data || []` followed by `!agencies.length`: anything but a
      non-empty agency list shows the "No agencies found." message. */
  function ShownAgencies(resp: PlanResponse): (v: AgencyView)
    ensures v.AgencyList? <==> resp.AgenciesReply? && resp.agencies != []
    ensures v.AgencyList? ==> v.entries == resp.agencies
  {
    if resp.AgenciesReply? && |resp.agencies| > 0 then AgencyList(resp.agencies) else NoAgenciesFound
  }

  /** `json?.itinerary || 'No itinerary'`. */
  function ShownItinerary(resp: AiResponse): (s: string)
    ensures s != ""
    ensures resp.ItineraryReply? && resp.itinerary != "" ==> s == resp.itinerary
    ensures resp.AiErrorReply? || resp.itinerary == "" ==> s == NoItinerary
  {
    if resp.ItineraryReply? && resp.itinerary != "" then resp.itinerary else NoItinerary
  }

  /** For a "public" request the browser lists exactly the transit steps of
      the provider's routes; a failed or refused request lists nothing. */
  lemma PublicTransitList(req: PlanRequest, u: Result<MapsData, UpstreamError>)
    requires req.transportMode == Some("public")
    ensures HasEndpoints(req) && u.Ok? ==>
      TransitInfo(HandlePlan(req, u)) == Collect(RouteSteps(u.value.routes.GetOr([])))
    ensures !HasEndpoints(req) || u.Err? ==> TransitInfo(HandlePlan(req, u)) == []
  {
  }

  /** An agency request shows the agency list exactly when the provider
      found at least one place; a failed or refused request shows the
      "No agencies found." message. */
  lemma AgencyListShown(req: PlanRequest, u: Result<MapsData, UpstreamError>)
    requires req.transportMode == Some("agency")
    ensures ShownAgencies(HandlePlan(req, u)).AgencyList? <==>
      HasEndpoints(req) && u.Ok? && u.value.results.Some? && u.value.results.value != []
  {
  }

  /** The two itinerary fallbacks together: an empty completion text is a
      success on the server but shows "No itinerary"; a completion without
      text shows the server's "No response"; a failed call shows "No itinerary". */
  lemma ItineraryFallbacks(c: ChatCompletion, e: UpstreamError)
    ensures FirstContent(c) == Some("") ==> ShownItinerary(ShapeAi(Ok(c))) == "No itinerary"
    ensures FirstContent(c).None? ==> ShownItinerary(ShapeAi(Ok(c))) == "No response"
    ensures Truthy(FirstContent(c)) ==> ShownItinerary(ShapeAi(Ok(c))) == FirstContent(c).value
    ensures ShownItinerary(ShapeAi(Err(e))) == "No itinerary"
  {
  }
}
