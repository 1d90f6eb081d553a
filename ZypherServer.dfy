/** The Deno server (zypher-server.ts): `planTrip` drains the agent's events,
    cleans and parses the final text and backfills missing ids; the request
    handler validates the body and wraps the outcome in an HTTP response. The
    agent run itself is outside the model: its event stream is an input. */
module ZypherServer {
  import opened Wrappers
  import opened JsText
  import opened JsonValue
  import opened AgentEvents
  import opened FenceCleaning
  import opened Http

  /** What `planTrip` returns: `{success: true, data}` or `{success: false, error}`. */
  datatype PlanOutcome = Planned(plan: Json) | Failed(error: string)

  const NoResultError := "No result from agent"
  const DefaultPlanError := "An error occurred while planning your trip"

  // Messages of the TypeErrors the JavaScript engine throws on malformed plans.
  const NullIdRead := "Cannot read properties of null (reading 'id')"
  const UndefinedMapRead := "Cannot read properties of undefined (reading 'map')"
  const NullMapRead := "Cannot read properties of null (reading 'map')"
  const MapNotFunction := "tripPlan.destinations.map is not a function"

  /** Strict-mode assignment of `id` to a primitive value. */
  function PrimitiveIdWrite(plan: Json): string
  {
    match plan
    case JBool(b) => "Cannot create property 'id' on boolean '" + (if b then "true" else "false") + "'"
    case JNum(t) => "Cannot create property 'id' on number '" + t + "'"
    case JStr(s) => "Cannot create property 'id' on string '" + s + "'"
    case _ => "Cannot create property 'id'"
  }

  /** `trip-${Date.now()}` */
  function TripId(now: nat): string
  {
    "trip-" + Decimal(now)
  }

  /** `dest-${Date.now()}-${index}` */
  function DestinationId(now: nat, index: nat): string
  {
    "dest-" + Decimal(now) + "-" + Decimal(index)
  }

  /** Synthesized destination ids at different positions never collide, whatever
      the clock read at each of them. */
  lemma DestinationIdsDistinct(a: nat, i: nat, b: nat, j: nat)
    requires i != j
    ensures DestinationId(a, i) != DestinationId(b, j)
  {
    var s, t := DestinationId(a, i), DestinationId(b, j);
    assert s[5..] == Decimal(a) + "-" + Decimal(i);
    assert t[5..] == Decimal(b) + "-" + Decimal(j);
    AfterFirstDashOfDigits(Decimal(a), Decimal(i));
    AfterFirstDashOfDigits(Decimal(b), Decimal(j));
    DecimalInjective(i, j);
  }

  /** The text after the first '-' (all of it when there is none). */
  function AfterFirstDash(s: string): string
  {
    if s == [] then [] else if s[0] == '-' then s[1..] else AfterFirstDash(s[1..])
  }

  lemma {:induction false} AfterFirstDashOfDigits(digits: string, rest: string)
    requires IsDigits(digits)
    ensures AfterFirstDash(digits + "-" + rest) == rest
  {
    if digits != [] {
      assert (digits + "-" + rest)[1..] == digits[1..] + "-" + rest;
      AfterFirstDashOfDigits(digits[1..], rest);
    }
  }

  /** The destination after backfill holds the original id if it was truthy,
      else the synthesized one. */
  predicate IdKeptOrFilled(before: Json, after: Json, synthesized: string)
  {
    after.JObj? && "id" in after.fields
    && if TruthyProp(before, "id") then after.fields["id"] == before.fields["id"]
       else after.fields["id"] == JStr(synthesized)
  }

  /** Every property other than `id` is copied as object spread copies it. */
  predicate OtherFieldsKept(before: Json, after: Json)
  {
    after.JObj? && after.fields - {"id"} == SpreadFields(before) - {"id"}
  }

  /** `{...dest, id: dest.id || `dest-${now}-${index}`}` for a destination that is not null. */
  function BackfillDestination(dest: Json, index: nat, now: nat): (r: Json)
    requires dest != JNull
    ensures IdKeptOrFilled(dest, r, DestinationId(now, index))
    ensures OtherFieldsKept(dest, r)
    ensures TruthyProp(r, "id")
  {
    SpreadWith(dest, "id", OrElse(Prop(dest, "id"), JStr(DestinationId(now, index))))
  }

  /** `tripPlan.destinations.map(...)`: fails on the first `null` entry (reading
      `null.id`); otherwise keeps length and order, and backfills each entry
      with the clock read while handling it. */
  function BackfillDestinations(ds: seq<Json>, destNow: nat -> nat): (r: Result<seq<Json>>)
    ensures r.Success? <==> forall i :: 0 <= i < |ds| ==> ds[i] != JNull
    ensures r.Failure? ==> r.error == NullIdRead
    ensures r.Success? ==> |r.value| == |ds|
    ensures r.Success? ==> forall i :: 0 <= i < |ds| ==>
              IdKeptOrFilled(ds[i], r.value[i], DestinationId(destNow(i), i))
              && OtherFieldsKept(ds[i], r.value[i])
              && TruthyProp(r.value[i], "id")
  {
    if exists i :: 0 <= i < |ds| && ds[i] == JNull then Failure(NullIdRead)
    else Success(seq(|ds|, i requires 0 <= i < |ds| => BackfillDestination(ds[i], i, destNow(i))))
  }

  /** A plan as it leaves `planTrip`: an object with a truthy id and an array of
      destinations that each carry a truthy id. */
  predicate IsBackfilledPlan(p: Json)
  {
    && p.JObj?
    && TruthyProp(p, "id")
    && "destinations" in p.fields && p.fields["destinations"].JArr?
    && forall i :: 0 <= i < |p.fields["destinations"].items| ==>
         TruthyProp(p.fields["destinations"].items[i], "id")
  }

  /** The parsed value has the shape the id backfill can work on. */
  predicate HasDestinationArray(plan: Json)
  {
    && plan.JObj?
    && "destinations" in plan.fields && plan.fields["destinations"].JArr?
    && forall i :: 0 <= i < |plan.fields["destinations"].items| ==>
         plan.fields["destinations"].items[i] != JNull
  }

  /** Lines 150-156: `tripPlan.id = tripPlan.id || trip-<now>`, then the
      destinations are replaced by their backfilled copies. Anything but an
      object with an array of non-null destinations throws. */
  function BackfillPlan(plan: Json, tripNow: nat, destNow: nat -> nat): (r: Result<Json>)
    ensures r.Success? <==> HasDestinationArray(plan)
    ensures r.Success? ==> IsBackfilledPlan(r.value)
    ensures r.Success? ==> var before := plan.fields["destinations"].items;
                           var after := r.value.fields["destinations"].items;
                           && |after| == |before|
                           && (forall i :: 0 <= i < |before| ==>
                                 IdKeptOrFilled(before[i], after[i], DestinationId(destNow(i), i))
                                 && OtherFieldsKept(before[i], after[i]))
    ensures r.Success? ==> IdKeptOrFilled(plan, r.value, TripId(tripNow))
    ensures r.Success? ==> forall k :: k != "id" && k != "destinations" ==>
              (k in r.value.fields <==> k in plan.fields)
              && (k in plan.fields ==> r.value.fields[k] == plan.fields[k])
  {
    match plan
    case JNull => Failure(NullIdRead)
    case JArr(_) => Failure(UndefinedMapRead)
    case JObj(fields) =>
      var withId := fields["id" := OrElse(Prop(plan, "id"), JStr(TripId(tripNow)))];
      if "destinations" !in fields then Failure(UndefinedMapRead)
      else (match fields["destinations"]
        case JNull => Failure(NullMapRead)
        case JArr(ds) =>
          (match BackfillDestinations(ds, destNow)
           case Failure(e) => Failure(e)
           case Success(filled) => Success(JObj(withId["destinations" := JArr(filled)])))
        case _ => Failure(MapNotFunction))
    case _ => Failure(PrimitiveIdWrite(plan))
  }

  /** Lines 142-156: clean the text, parse it, backfill ids; every exception
      becomes `{success: false, error: message || default}`. */
  function DecodePlan(text: string, parse: string -> Result<Json>, tripNow: nat, destNow: nat -> nat): (r: PlanOutcome)
    ensures r.Planned? <==> parse(Clean(text)).Success? && HasDestinationArray(parse(Clean(text)).value)
    ensures r.Planned? ==> IsBackfilledPlan(r.plan)
    ensures r.Planned? ==> BackfillPlan(parse(Clean(text)).value, tripNow, destNow) == Success(r.plan)
    ensures r.Failed? ==> r.error != ""
  {
    match parse(Clean(text))
    case Failure(e) => Failed(OrDefault(e, DefaultPlanError))
    case Success(plan) =>
      match BackfillPlan(plan, tripNow, destNow)
      case Success(p) => Planned(p)
      case Failure(e) => Failed(OrDefault(e, DefaultPlanError))
  }

  /** What `planTrip` returns for an agent run that produced `events`. */
  function PlanTripResult(events: seq<AgentEvent>, parse: string -> Result<Json>, tripNow: nat, destNow: nat -> nat): PlanOutcome
  {
    match Drain("", events)
    case Aborted(message) => Failed(message)
    case Completed(text) =>
      if text == "" then Failed(NoResultError) else DecodePlan(text, parse, tripNow, destNow)
  }

  /** `planTrip` after the agent has been started: the for-await loop over the
      events, then decoding. `parse` is `JSON.parse`; `tripNow` and `destNow(i)`
      are the `Date.now()` readings for the trip id and for destination `i`. */
  method PlanTrip(events: seq<AgentEvent>, parse: string -> Result<Json>, tripNow: nat, destNow: nat -> nat)
    returns (out: PlanOutcome)
    ensures out == PlanTripResult(events, parse, tripNow, destNow)
    ensures out.Planned? ==> IsBackfilledPlan(out.plan)
    ensures out.Failed? ==> out.error != ""
  {
    var finalResult := "";
    var i := 0;
    while i < |events|
      invariant 0 <= i <= |events|
      invariant Drain(finalResult, events[i..]) == Drain("", events)
    {
      var event := events[i];
      assert events[i..][0] == event && events[i..][1..] == events[i + 1..];
      if event.MessageEvent? && event.stopReason == Some(EndTurn) {
        if |event.content| > 0 && event.content[0].kind == "text" {
          finalResult := event.content[0].text;
        }
      } else if event.ErrorEvent? {
        out := Failed(ErrorText(event));
        return;
      }
      i := i + 1;
    }
    assert events[i..] == [];
    if finalResult == "" {
      out := Failed(NoResultError);
      return;
    }
    out := DecodePlan(finalResult, parse, tripNow, destNow);
  }

  /** An error event stops `planTrip` with that event's message. */
  lemma PlanTripFailsOnFirstError(events: seq<AgentEvent>, k: nat, parse: string -> Result<Json>, tripNow: nat, destNow: nat -> nat)
    requires k < |events| && events[k].ErrorEvent? && NoErrors(events[..k])
    ensures PlanTripResult(events, parse, tripNow, destNow) == Failed(ErrorText(events[k]))
  {
    DrainStopsAtFirstError("", events, k);
  }

  /** Without error events, `planTrip` decodes the text of the last completion;
      it fails with "No result from agent" when there is none or it is empty. */
  lemma PlanTripDecodesLastCompletion(events: seq<AgentEvent>, parse: string -> Result<Json>, tripNow: nat, destNow: nat -> nat)
    requires NoErrors(events)
    ensures var last := LastCompletionText(events);
            PlanTripResult(events, parse, tripNow, destNow)
            == if last.None? || last.value == "" then Failed(NoResultError)
               else DecodePlan(last.value, parse, tripNow, destNow)
  {
    DrainLastCompletionWins("", events);
  }

  /** Wrapping the JSON in a "```json" fence, or a bare "```" fence, changes nothing. */
  lemma DecodeIgnoresFences(x: string, parse: string -> Result<Json>, tripNow: nat, destNow: nat -> nat)
    requires NoBackticks(x)
    ensures DecodePlan("```json\n" + x + "\n```", parse, tripNow, destNow) == DecodePlan(x, parse, tripNow, destNow)
    ensures DecodePlan("```\n" + x + "\n```", parse, tripNow, destNow) == DecodePlan(x, parse, tripNow, destNow)
  {
    CleanJsonFenced(x);
    CleanBareFenced(x);
    CleanWithoutBackticks(x);
  }

  /** A single destination without an id gets `dest-<digits>-0`. */
  lemma SingleDestinationGetsIndexZeroId(text: string, parse: string -> Result<Json>, tripNow: nat, destNow: nat -> nat, dest: map<string, Json>)
    requires "id" !in dest
    requires parse(Clean(text)) == Success(JObj(map["destinations" := JArr([JObj(dest)])]))
    ensures var r := DecodePlan(text, parse, tripNow, destNow);
            && r.Planned?
            && r.plan.fields["id"] == JStr("trip-" + Decimal(tripNow))
            && |r.plan.fields["destinations"].items| == 1
            && r.plan.fields["destinations"].items[0]
               == JObj(dest["id" := JStr("dest-" + Decimal(destNow(0)) + "-0")])
  {
    var plan := JObj(map["destinations" := JArr([JObj(dest)])]);
    assert HasDestinationArray(plan);
    var r := DecodePlan(text, parse, tripNow, destNow);
    var d := r.plan.fields["destinations"].items[0];
    var synthesized := JStr(DestinationId(destNow(0), 0));
    assert !TruthyProp(JObj(dest), "id");
    assert d.fields["id"] == synthesized;
    assert d.fields - {"id"} == dest - {"id"} == dest;
    assert d.fields == dest["id" := synthesized];
    assert d == JObj(d.fields);
    assert Decimal(0) == "0";
    assert DestinationId(destNow(0), 0) == "dest-" + Decimal(destNow(0)) + "-0";
  }

  // ---------------------------------------------------------------------------
  // Request dispatch (`Deno.serve` handler)

  /** A request: verb (HTTP method), URL pathname, and the body as `req.json()` reads it. */
  datatype Request = Request(verb: string, path: string, body: Result<Json>)

  datatype Body = NoBody | JsonBody(value: Json) | TextBody(text: string)

  const MissingFields := "Missing required fields"
  const DefaultServerError := "Internal server error"
  const NullBodyRead := "Cannot read properties of null (reading 'userInput')"

  /** `{success: false, error}` */
  function ErrorEnvelope(error: string): Json
  {
    JObj(map["success" := JBool(false), "error" := JStr(error)])
  }

  /** The JSON body of a `planTrip` result. */
  function OutcomeJson(o: PlanOutcome): Json
  {
    match o
    case Planned(p) => JObj(map["success" := JBool(true), "data" := p])
    case Failed(e) => ErrorEnvelope(e)
  }

  const HealthBody := JObj(map["status" := JStr("ok"), "message" := JStr("Zypher server is running")])

  predicate IsPlanTripRoute(req: Request) { req.verb == "POST" && req.path == "/api/plan-trip" }

  predicate IsHealthRoute(req: Request) { req.verb == "GET" && req.path == "/health" }

  predicate HasCors(headers: map<string, string>)
  {
    forall k :: k in CorsHeaders ==> k in headers && headers[k] == CorsHeaders[k]
  }

  /** The request handler; `planTrip` is the agent run for a validated body. */
  function Serve(req: Request, planTrip: Json -> PlanOutcome): (resp: Response<Body>)
    ensures HasCors(resp.headers)
    ensures IsPlanTripRoute(req) || IsHealthRoute(req) ==> resp.headers == CorsHeaders + JsonContentType
    ensures req.verb == "OPTIONS" ==> resp.status == 200 && resp.body == NoBody
    ensures req.verb != "OPTIONS" && !IsPlanTripRoute(req) && !IsHealthRoute(req) ==>
              resp.status == 404 && resp.body == TextBody("Not Found")
    ensures IsHealthRoute(req) ==> resp.status == 200 && resp.body == JsonBody(HealthBody)
    ensures IsPlanTripRoute(req) && req.body.Success? && req.body.value != JNull ==>
              var b := req.body.value;
              if !TruthyProp(b, "userInput") || !TruthyProp(b, "apiKeys") then
                resp.status == 400 && resp.body == JsonBody(ErrorEnvelope(MissingFields))
              else
                resp.status == (if planTrip(b).Planned? then 200 else 500)
                && resp.body == JsonBody(OutcomeJson(planTrip(b)))
    ensures IsPlanTripRoute(req) && req.body.Failure? ==>
              resp.status == 500 && resp.body == JsonBody(ErrorEnvelope(OrDefault(req.body.error, DefaultServerError)))
    ensures IsPlanTripRoute(req) && req.body.Success? && req.body.value == JNull ==>
              resp.status == 500 && resp.body == JsonBody(ErrorEnvelope(NullBodyRead))
  {
    if req.verb == "OPTIONS" then Response(200, CorsHeaders, NoBody)
    else if IsPlanTripRoute(req) then
      var headers := CorsHeaders + JsonContentType;
      match req.body
      case Failure(e) => Response(500, headers, JsonBody(ErrorEnvelope(OrDefault(e, DefaultServerError))))
      case Success(b) =>
        if b == JNull then Response(500, headers, JsonBody(ErrorEnvelope(NullBodyRead)))
        else if !TruthyProp(b, "userInput") || !TruthyProp(b, "apiKeys") then
          Response(400, headers, JsonBody(ErrorEnvelope(MissingFields)))
        else
          var result := planTrip(b);
          Response(if result.Planned? then 200 else 500, headers, JsonBody(OutcomeJson(result)))
    else if IsHealthRoute(req) then Response(200, CorsHeaders + JsonContentType, JsonBody(HealthBody))
    else Response(404, CorsHeaders, TextBody("Not Found"))
  }

  /** A 200 from the plan-trip route carries a plan whose ids are all filled in. */
  lemma ServedPlansAreBackfilled(req: Request, events: seq<AgentEvent>, parse: string -> Result<Json>, tripNow: nat, destNow: nat -> nat)
    requires IsPlanTripRoute(req)
    ensures var resp := Serve(req, b => PlanTripResult(events, parse, tripNow, destNow));
            resp.status == 200 ==>
              resp.body.JsonBody? && resp.body.value.JObj?
              && "data" in resp.body.value.fields && IsBackfilledPlan(resp.body.value.fields["data"])
  {
  }
}
