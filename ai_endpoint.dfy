/** The `/api/ai` handler of the backend: build one prompt from the request,
    make one chat-completion call, and answer with the first choice's text. */
module AiEndpoint {
  import opened Wrappers
  import opened Text
  import opened Provider

  const DefaultDays := 2
  const MaxTokens := 400
  const NoResponse := "No response"
  const AiError := "AI error"

  const PromptLead := "Create a concise "
  const PromptDayWord := "-day "
  const PromptForWord := " itinerary for "
  const PromptTail := ". \nInclude 3 activities per day, travel time hints, and one recommended local eatery per day. Keep it short and bulletized."

  /** The JSON body `{destination, tripType, days}`; `days` may be left out,
      and when given is an integer that a JavaScript number holds exactly. */
  datatype ItineraryRequest = ItineraryRequest(
    destination: Option<string>,
    tripType: Option<string>,
    days: Option<SafeInteger>)

  /** The chat-completion call: one user message and a token limit. */
  datatype CompletionCall = CompletionCall(prompt: string, maxTokens: nat)

  /** The reply: 200 with `{itinerary}`, or an error status with `{error}`. */
  datatype AiResponse =
    | ItineraryReply(itinerary: string)
    | AiErrorReply(status: nat, error: string)

  /** `days` falls back to 2 only when the request leaves it out. */
  function Days(req: ItineraryRequest): (d: SafeInteger)
    ensures req.days.None? ==> d == DefaultDays
    ensures req.days.Some? ==> d == req.days.value
  {
    req.days.GetOr(DefaultDays)
  }

  /** How a template literal writes a field that may be left out. */
  function Interpolated(o: Option<string>): string {
    o.GetOr("undefined")
  }

  /** The prompt of the template at backend/server.js:22-23: the fixed lead,
      the days, trip type and destination between fixed words, and the fixed
      instructions. */
  function Prompt(req: ItineraryRequest): (p: string)
    ensures |p| == |PromptLead| + |IntToString(Days(req))| + |PromptDayWord| + |Interpolated(req.tripType)|
                   + |PromptForWord| + |Interpolated(req.destination)| + |PromptTail|
  {
    PromptLead + (IntToString(Days(req)) + (PromptDayWord + (Interpolated(req.tripType)
      + (PromptForWord + (Interpolated(req.destination) + PromptTail)))))
  }

  function BuildCall(req: ItineraryRequest): (c: CompletionCall)
    ensures c.maxTokens == MaxTokens && c.prompt == Prompt(req)
  {
    CompletionCall(Prompt(req), MaxTokens)
  }

  /** Reads the number of days back out of a prompt. */
  function PromptDays(p: string): Option<int> {
    if |p| >= |PromptLead| && p[..|PromptLead|] == PromptLead then ReadInt(p[|PromptLead|..]) else None
  }

  /** A number written after a fixed lead is read back after that lead. */
  lemma ReadAfterLead(lead: string, i: int, rest: string)
    requires rest == [] || !IsDigit(rest[0])
    ensures (lead + (IntToString(i) + rest))[..|lead|] == lead
    ensures ReadInt((lead + (IntToString(i) + rest))[|lead|..]) == Some(i)
  {
    assert (lead + (IntToString(i) + rest))[|lead|..] == IntToString(i) + rest;
    IntRoundTrip(i, rest);
  }

  /** The number of days can be read back out of the prompt. */
  lemma PromptEmbedsDays(req: ItineraryRequest)
    ensures PromptDays(Prompt(req)) == Some(Days(req))
  {
    var n := IntToString(Days(req));
    var rest := PromptDayWord + (Interpolated(req.tripType) + (PromptForWord + (Interpolated(req.destination) + PromptTail)));
    assert Prompt(req) == PromptLead + (n + rest);
    assert rest[0] == '-';
    ReadAfterLead(PromptLead, Days(req), rest);
  }

  /** The layout of a seven-part template, for any parts. */
  lemma TemplateLayout(lead: string, n: string, dw: string, t: string, fw: string, dest: string, tail: string)
    ensures var p := lead + (n + (dw + (t + (fw + (dest + tail)))));
      var k := |lead| + |n| + |dw|;
      var m := k + |t| + |fw|;
      |p| == m + |dest| + |tail| &&
      StandsAt(p, lead, 0) && StandsAt(p, n, |lead|) && StandsAt(p, dw, |lead| + |n|) &&
      StandsAt(p, t, k) && StandsAt(p, fw, k + |t|) &&
      StandsAt(p, dest, m) && StandsAt(p, tail, m + |dest|)
  {
    var p := lead + (n + (dw + (t + (fw + (dest + tail)))));
    var rest := t + (fw + (dest + tail));
    assert p[0..] == lead + (n + (dw + rest));
    StandsAtSuffix3(p, 0, lead, n, dw, rest);
    var k := |lead| + |n| + |dw|;
    StandsAtSuffix3(p, k, t, fw, dest, tail);
    StandsAtOwnSuffix(p, k + |t| + |fw| + |dest|, tail);
  }

  /** Every part of the prompt stands where the template puts it: the fixed
      lead, the days, "-day ", the trip type, " itinerary for ", the
      destination and the fixed instructions, one after the other, and
      nothing else. */
  lemma PromptEmbedsFields(req: ItineraryRequest)
    ensures var p := Prompt(req);
      var n := IntToString(Days(req));
      var t := Interpolated(req.tripType);
      var dest := Interpolated(req.destination);
      var k := |PromptLead| + |n| + |PromptDayWord|;
      var m := k + |t| + |PromptForWord|;
      |p| == m + |dest| + |PromptTail| &&
      StandsAt(p, PromptLead, 0) &&
      StandsAt(p, n, |PromptLead|) &&
      StandsAt(p, PromptDayWord, |PromptLead| + |n|) &&
      StandsAt(p, t, k) &&
      StandsAt(p, PromptForWord, k + |t|) &&
      StandsAt(p, dest, m) &&
      StandsAt(p, PromptTail, m + |dest|)
  {
    TemplateLayout(PromptLead, IntToString(Days(req)), PromptDayWord, Interpolated(req.tripType),
      PromptForWord, Interpolated(req.destination), PromptTail);
  }

  /** `response.choices?.[0]?.message?.content`: null when any link is missing. */
  function FirstContent(c: ChatCompletion): (r: Option<string>)
    ensures r.Some? <==>
      c.choices.Some? && |c.choices.value| > 0 && c.choices.value[0].message.Some? &&
      c.choices.value[0].message.value.content.Some?
    ensures r.Some? ==> r.value == c.choices.value[0].message.value.content.value
  {
    if c.choices.Some? && |c.choices.value| > 0 && c.choices.value[0].message.Some? then
      c.choices.value[0].message.value.content
    else None
  }

  /** The reply for the outcome of the completion call. Any failure is a
      fixed 500; an answer without text is still a success, and since the
      fallback is `??` an empty text is kept as it is. */
  function ShapeAi(upstream: Result<ChatCompletion, UpstreamError>): (r: AiResponse)
    ensures upstream.Err? <==> r == AiErrorReply(500, AiError)
    ensures upstream.Ok? && upstream.value.choices.Some? && |upstream.value.choices.value| > 0
            && upstream.value.choices.value[0].message.Some?
            && upstream.value.choices.value[0].message.value.content.Some? ==>
      r == ItineraryReply(upstream.value.choices.value[0].message.value.content.value)
    ensures upstream.Ok? && FirstContent(upstream.value).None? ==> r == ItineraryReply(NoResponse)
  {
    match upstream
    case Err(_) => AiErrorReply(500, AiError)
    case Ok(c) => ItineraryReply(FirstContent(c).GetOr(NoResponse))
  }

  /** The reply never depends on what the provider's error said. */
  lemma AiErrorsAreFixed(e1: UpstreamError, e2: UpstreamError)
    ensures ShapeAi(Err(e1)) == ShapeAi(Err(e2)) == AiErrorReply(500, "AI error")
  {
  }

  /** An empty completion text is a successful empty itinerary, not the
      "No response" fallback. */
  lemma EmptyContentKept(c: ChatCompletion)
    requires FirstContent(c) == Some("")
    ensures ShapeAi(Ok(c)) == ItineraryReply("")
  {
  }
}
