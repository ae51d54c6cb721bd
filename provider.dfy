/** The JSON the two upstream providers answer with, reduced to the fields the
    backend and the browser read. Every field a provider may leave out is an
    `Option`; the providers themselves are not modelled, only their answers. */
module Provider {
  import opened Wrappers

  /** `vehicle` of a transit line; `type` is e.g. "BUS" or "SUBWAY". */
  datatype Vehicle = Vehicle(kind: Option<string>)

  /** An operator of a transit line; only its `name` is read. */
  datatype AgencyRef = AgencyRef(name: Option<string>)

  /** `transit_details.line`. */
  datatype Line = Line(
    shortName: Option<string>,
    name: Option<string>,
    vehicle: Option<Vehicle>,
    agencies: Option<seq<AgencyRef>>)

  /** `step.transit_details`. */
  datatype TransitDetails = TransitDetails(line: Option<Line>, agencies: Option<seq<AgencyRef>>)

  /** One step of a leg: `travel_mode` is "WALKING", "TRANSIT", "DRIVING", ... */
  datatype Step = Step(travelMode: Option<string>, transitDetails: Option<TransitDetails>)

  datatype Leg = Leg(steps: Option<seq<Step>>)

  datatype Route = Route(legs: Option<seq<Leg>>)

  /** One result of a places text search. `rating` is a number in the
      provider's JSON and is only ever copied. */
  datatype Place = Place(
    name: Option<string>,
    formattedAddress: Option<string>,
    rating: Option<real>,
    placeId: Option<string>)

  /** The body of a mapping-provider answer: directions answers carry
      `routes`, places answers carry `results`; both carry `status`. */
  datatype MapsData = MapsData(
    status: Option<string>,
    routes: Option<seq<Route>>,
    results: Option<seq<Place>>)

  /** A chat-completion answer: `choices[i].message.content`. */
  datatype Message = Message(content: Option<string>)

  datatype Choice = Choice(message: Option<Message>)

  datatype ChatCompletion = ChatCompletion(choices: Option<seq<Choice>>)

  /** A failed upstream call: a transport error or a non-2xx answer, with the
      provider's status and error body when there is one. */
  datatype UpstreamError = UpstreamError(status: Option<nat>, body: Option<string>)
}
