/** The Next.js plan-trip route (app/api/plan-trip/route.ts): validates the
    browser's request, forwards it to the Deno server without the Google Maps
    key, and, when that key is present, attaches photos to every destination
    of the returned plan. The upstream reply and each photo fetch are inputs. */
module PlanTripRoute {
  import opened Wrappers
  import opened JsText
  import opened JsonValue
  import opened Http
  import FetchPhotos
  import PlacesApi
  import ZypherServer

  /** `response.status` and `await response.json()` of the call to the Deno server. */
  datatype Upstream = Upstream(status: nat, data: Json)

  /** What awaiting one photo fetch yields: the parsed reply of the photo
      route, or a throw (network failure, unparsable body). */
  datatype PhotoFetch = FetchThrew | FetchReplied(reply: Json)

  const MissingFields := "Missing required fields"
  const KeysRequired := "Anthropic and Firecrawl API keys are required"
  const DefaultUpstreamError := "Failed to plan trip"
  const DefaultConnectError := "Failed to connect to Zypher server. Make sure it's running on port 8000."

  /** The messages of the TypeErrors the handler can run into. */
  const NullBodyDestructure := "Cannot destructure property 'userInput' of '(intermediate value)' as it is null."
  const NullErrorRead := "Cannot read properties of null (reading 'error')"
  const NullSuccessRead := "Cannot read properties of null (reading 'success')"
  const NullNameRead := "Cannot read properties of null (reading 'name')"
  const DestinationsMapNotFunction := "destinations.map is not a function"

  predicate IsOk(status: nat)
  {
    200 <= status <= 299
  }

  /** `{success: false, error}` */
  function ErrorEnvelope(error: Json): (r: Json)
    ensures r.JObj? && Prop(r, "success") == Some(JBool(false)) && Prop(r, "error") == Some(error)
  {
    JObj(map["success" := JBool(false), "error" := error])
  }

  /** The two validation steps, in order; `None` when the request may be forwarded. */
  function RequestProblem(body: Json): (r: Option<string>)
    ensures r == Some(MissingFields) <==> !TruthyProp(body, "userInput") || !TruthyProp(body, "apiKeys")
    ensures r.None? <==>
              && TruthyProp(body, "userInput")
              && TruthyProp(body, "apiKeys")
              && TruthyProp(body.fields["apiKeys"], "anthropic")
              && TruthyProp(body.fields["apiKeys"], "firecrawl")
    ensures r.None? ==>
              && TruthyProp(body, "userInput")
              && body.fields["apiKeys"].JObj?
              && TruthyProp(body.fields["apiKeys"], "anthropic")
              && TruthyProp(body.fields["apiKeys"], "firecrawl")
    ensures r.Some? ==> r.value in {MissingFields, KeysRequired}
  {
    if !TruthyProp(body, "userInput") || !TruthyProp(body, "apiKeys") then Some(MissingFields)
    else
      var keys := body.fields["apiKeys"];
      if !TruthyProp(keys, "anthropic") || !TruthyProp(keys, "firecrawl") then Some(KeysRequired)
      else None
  }

  /** The body sent to the Deno server: the user input and only two of the keys. */
  function ForwardedBody(body: Json): (r: Json)
    requires RequestProblem(body).None?
    ensures r.JObj? && r.fields.Keys == {"userInput", "apiKeys"}
    ensures r.fields["userInput"] == body.fields["userInput"]
    ensures var keys := r.fields["apiKeys"];
            && keys.JObj? && keys.fields.Keys == {"anthropic", "firecrawl"}
            && keys.fields["anthropic"] == body.fields["apiKeys"].fields["anthropic"]
            && keys.fields["firecrawl"] == body.fields["apiKeys"].fields["firecrawl"]
  {
    var keys := body.fields["apiKeys"];
    JObj(map[
      "userInput" := body.fields["userInput"],
      "apiKeys" := JObj(map["anthropic" := keys.fields["anthropic"], "firecrawl" := keys.fields["firecrawl"]])
    ])
  }

  /** A request this route forwards is never refused as incomplete by the Deno
      server: it is answered 200 or 500 according to the agent run. */
  lemma ForwardedBodyPassesServer(body: Json, planTrip: Json -> ZypherServer.PlanOutcome)
    requires RequestProblem(body).None?
    ensures var fwd := ForwardedBody(body);
            var resp := ZypherServer.Serve(ZypherServer.Request("POST", "/api/plan-trip", Success(fwd)), planTrip);
            && resp.status == (if planTrip(fwd).Planned? then 200 else 500)
            && resp.body == ZypherServer.JsonBody(ZypherServer.OutcomeJson(planTrip(fwd)))
  {
    var fwd := ForwardedBody(body);
    assert Prop(fwd, "userInput") == Some(body.fields["userInput"]);
    assert Prop(fwd, "apiKeys") == Some(fwd.fields["apiKeys"]);
  }

  /** The photo request for one destination: `JSON.stringify` drops the
      properties that are `undefined`. */
  function PhotoRequestBody(dest: Json, googleMaps: Json): (r: Json)
    ensures r.JObj? && Prop(r, "googleMapsApiKey") == Some(googleMaps)
    ensures Prop(r, "placeName") == Prop(dest, "name")
    ensures Prop(r, "location") == Prop(dest, "coordinates")
  {
    var withName := match Prop(dest, "name")
      case Some(n) => map["googleMapsApiKey" := googleMaps, "placeName" := n]
      case None => map["googleMapsApiKey" := googleMaps];
    match Prop(dest, "coordinates")
    case Some(c) => JObj(withName["location" := c])
    case None => JObj(withName)
  }

  /** `photoData.success ? photoData.photos : []`, with a throw caught as `[]`;
      `None` is `undefined` (a successful reply without photos). */
  function PhotosOf(fetched: PhotoFetch): (r: Option<Json>)
    ensures fetched.FetchThrew? ==> r == Some(JArr([]))
    ensures fetched.FetchReplied? && !TruthyProp(fetched.reply, "success") ==> r == Some(JArr([]))
    ensures fetched.FetchReplied? && TruthyProp(fetched.reply, "success") ==> r == Prop(fetched.reply, "photos")
  {
    match fetched
    case FetchThrew => Some(JArr([]))
    case FetchReplied(data) =>
      if data == JNull then Some(JArr([]))
      else if TruthyProp(data, "success") then Prop(data, "photos")
      else Some(JArr([]))
  }

  /** The destination after the merge holds `photos` and, besides it, exactly
      what object spread copies from the original. */
  predicate PhotosAttached(before: Json, after: Json, photos: Json)
  {
    && after.JObj? && "photos" in after.fields && after.fields["photos"] == photos
    && after.fields - {"photos"} == SpreadFields(before) - {"photos"}
  }

  /** The photo value a destination ends up with: `allPhotos[index] || []`. */
  function MergedPhotos(dest: Json, googleMaps: Json, index: nat, fetch: (nat, Json) -> PhotoFetch): (r: Json)
    ensures Truthy(r)
  {
    OrElse(PhotosOf(fetch(index, PhotoRequestBody(dest, googleMaps))), JArr([]))
  }

  /** Lines 53-82 for an array of destinations: one fetch per destination; a
      `null` destination fails the whole request (its catch block reads
      `dest.name` again); otherwise length and order are kept. */
  function Enrich(ds: seq<Json>, googleMaps: Json, fetch: (nat, Json) -> PhotoFetch): (r: Result<seq<Json>>)
    ensures r.Success? <==> JNull !in ds
    ensures r.Failure? ==> r.error == NullNameRead
    ensures r.Success? ==> |r.value| == |ds|
    ensures r.Success? ==> forall i :: 0 <= i < |ds| ==>
              PhotosAttached(ds[i], r.value[i], MergedPhotos(ds[i], googleMaps, i, fetch))
  {
    if JNull in ds then Failure(NullNameRead)
    else
      var merged := seq(|ds|, i requires 0 <= i < |ds| =>
        SpreadWith(ds[i], "photos", MergedPhotos(ds[i], googleMaps, i, fetch)));
      assert forall i :: 0 <= i < |ds| ==> PhotosAttached(ds[i], merged[i], MergedPhotos(ds[i], googleMaps, i, fetch));
      Success(merged)
  }

  /** `data.success && data.data && data.data.destinations && apiKeys.googleMaps` */
  predicate EnrichmentGate(data: Json, apiKeys: Json)
  {
    && TruthyProp(data, "success")
    && TruthyProp(data, "data")
    && TruthyProp(data.fields["data"], "destinations")
    && TruthyProp(apiKeys, "googleMaps")
  }

  /** The plan with `data.data.destinations` replaced (the handler assigns it in place). */
  function WithDestinations(data: Json, ds: seq<Json>): (r: Json)
    requires TruthyProp(data, "data") && data.fields["data"].JObj?
    ensures r.JObj? && r.fields.Keys == data.fields.Keys
    ensures forall k :: k in data.fields && k != "data" ==> r.fields[k] == data.fields[k]
    ensures var inner := r.fields["data"];
            && inner.JObj? && inner.fields - {"destinations"} == data.fields["data"].fields - {"destinations"}
            && "destinations" in inner.fields && inner.fields["destinations"] == JArr(ds)
  {
    var inner := data.fields["data"];
    JObj(data.fields["data" := JObj(inner.fields["destinations" := JArr(ds)])])
  }

  /** The handler for a reply from the Deno server with a 2xx status. */
  function PlannedReply(data: Json, apiKeys: Json, fetch: (nat, Json) -> PhotoFetch): (resp: Response<Json>)
    ensures resp.headers == JsonContentType
    ensures data == JNull ==> resp.status == 500 && resp.body == ErrorEnvelope(JStr(NullSuccessRead))
    ensures data != JNull && !EnrichmentGate(data, apiKeys) ==> resp.status == 200 && resp.body == data
    ensures data != JNull && EnrichmentGate(data, apiKeys) ==>
              var destinations := data.fields["data"].fields["destinations"];
              && (!destinations.JArr? ==>
                    resp.status == 500 && resp.body == ErrorEnvelope(JStr(DestinationsMapNotFunction)))
              && (destinations.JArr? && JNull in destinations.items ==>
                    resp.status == 500 && resp.body == ErrorEnvelope(JStr(NullNameRead)))
              && (destinations.JArr? && JNull !in destinations.items ==> resp.status == 200)
  {
    if data == JNull then Response(500, JsonContentType, ErrorEnvelope(JStr(NullSuccessRead)))
    else if !EnrichmentGate(data, apiKeys) then Response(200, JsonContentType, data)
    else
      var destinations := data.fields["data"].fields["destinations"];
      if !destinations.JArr? then Response(500, JsonContentType, ErrorEnvelope(JStr(DestinationsMapNotFunction)))
      else match Enrich(destinations.items, apiKeys.fields["googleMaps"], fetch)
        case Failure(e) => Response(500, JsonContentType, ErrorEnvelope(JStr(e)))
        case Success(enriched) => Response(200, JsonContentType, WithDestinations(data, enriched))
  }

  /** The POST handler. `body` is `req.json()`; `upstream` is the call to the
      Deno server for the body it is given (`Failure` holds the message of what
      threw), and `fetch` the photo fetch for a destination's index and request body. */
  function PlanTripPost(body: Result<Json>, upstream: Json -> Result<Upstream>, fetch: (nat, Json) -> PhotoFetch): (resp: Response<Json>)
    ensures resp.headers == JsonContentType
    ensures body.Failure? ==> resp.status == 500 && resp.body == ErrorEnvelope(JStr(OrDefault(body.error, DefaultConnectError)))
    ensures body.Success? && body.value == JNull ==> resp.status == 500 && resp.body == ErrorEnvelope(JStr(NullBodyDestructure))
    ensures body.Success? && body.value != JNull && RequestProblem(body.value).Some? ==>
              resp.status == 400 && resp.body == ErrorEnvelope(JStr(RequestProblem(body.value).value))
    ensures body.Success? && body.value != JNull && RequestProblem(body.value).None? ==>
              match upstream(ForwardedBody(body.value))
              case Failure(e) => resp.status == 500 && resp.body == ErrorEnvelope(JStr(OrDefault(e, DefaultConnectError)))
              case Success(u) =>
                if !IsOk(u.status) then
                  if u.data == JNull then resp.status == 500 && resp.body == ErrorEnvelope(JStr(NullErrorRead))
                  else resp.status == u.status
                       && resp.body == ErrorEnvelope(OrElse(Prop(u.data, "error"), JStr(DefaultUpstreamError)))
                else resp == PlannedReply(u.data, body.value.fields["apiKeys"], fetch)
  {
    match body
    case Failure(e) => Response(500, JsonContentType, ErrorEnvelope(JStr(OrDefault(e, DefaultConnectError))))
    case Success(b) =>
      if b == JNull then Response(500, JsonContentType, ErrorEnvelope(JStr(NullBodyDestructure)))
      else match RequestProblem(b)
        case Some(m) => Response(400, JsonContentType, ErrorEnvelope(JStr(m)))
        case None =>
          (match upstream(ForwardedBody(b))
           case Failure(e) => Response(500, JsonContentType, ErrorEnvelope(JStr(OrDefault(e, DefaultConnectError))))
           case Success(u) =>
             if !IsOk(u.status) then
               if u.data == JNull then Response(500, JsonContentType, ErrorEnvelope(JStr(NullErrorRead)))
               else Response(u.status, JsonContentType,
                             ErrorEnvelope(OrElse(Prop(u.data, "error"), JStr(DefaultUpstreamError))))
             else PlannedReply(u.data, b.fields["apiKeys"], fetch))
  }

  /** Without a Google Maps key the plan is passed through untouched and no
      photo is fetched: the reply does not depend on `fetch`. */
  lemma NoGoogleKeyNoPhotos(body: Json, upstream: Json -> Result<Upstream>, u: Upstream,
                            fetch1: (nat, Json) -> PhotoFetch, fetch2: (nat, Json) -> PhotoFetch)
    requires body != JNull && RequestProblem(body).None?
    requires !TruthyProp(body.fields["apiKeys"], "googleMaps")
    requires upstream(ForwardedBody(body)) == Success(u)
    requires IsOk(u.status) && u.data != JNull
    ensures PlanTripPost(Success(body), upstream, fetch1) == PlanTripPost(Success(body), upstream, fetch2)
    ensures PlanTripPost(Success(body), upstream, fetch1) == Response(200, JsonContentType, u.data)
  {
  }

  /** With the gate open and an array of non-null destinations, the reply is
      the plan with only `data.destinations` changed: same number of entries,
      in order, each the original plus its photos. */
  lemma EnrichedPlanShape(body: Json, upstream: Json -> Result<Upstream>, u: Upstream, fetch: (nat, Json) -> PhotoFetch)
    requires body != JNull && RequestProblem(body).None?
    requires upstream(ForwardedBody(body)) == Success(u)
    requires IsOk(u.status) && u.data != JNull
    requires EnrichmentGate(u.data, body.fields["apiKeys"])
    requires u.data.fields["data"].fields["destinations"].JArr?
    requires JNull !in u.data.fields["data"].fields["destinations"].items
    ensures var resp := PlanTripPost(Success(body), upstream, fetch);
            var before := u.data.fields["data"].fields["destinations"].items;
            var key := body.fields["apiKeys"].fields["googleMaps"];
            && resp.status == 200
            && resp.body.JObj? && resp.body.fields.Keys == u.data.fields.Keys
            && (forall k :: k in u.data.fields && k != "data" ==> resp.body.fields[k] == u.data.fields[k])
            && resp.body.fields["data"].JObj?
            && resp.body.fields["data"].fields - {"destinations"} == u.data.fields["data"].fields - {"destinations"}
            && "destinations" in resp.body.fields["data"].fields
            && resp.body.fields["data"].fields["destinations"].JArr?
            && var after := resp.body.fields["data"].fields["destinations"].items;
               && |after| == |before|
               && forall i :: 0 <= i < |before| ==> PhotosAttached(before[i], after[i], MergedPhotos(before[i], key, i, fetch))
  {
    var ds := u.data.fields["data"].fields["destinations"].items;
    var key := body.fields["apiKeys"].fields["googleMaps"];
    var enriched := Enrich(ds, key, fetch);
    assert enriched.Success?;
    var resp := PlanTripPost(Success(body), upstream, fetch);
    assert resp == Response(200, JsonContentType, WithDestinations(u.data, enriched.value));
  }

  /** The JSON the photo route answers with. */
  function ReplyJson(reply: FetchPhotos.PhotoReply): (r: Json)
    ensures Truthy(r)
    ensures TruthyProp(r, "success") <==> reply.Photos?
  {
    match reply
    case Photos(urls, debug) =>
      JObj(map["success" := JBool(true),
               "photos" := JArr(seq(|urls|, i requires 0 <= i < |urls| => JStr(urls[i]))),
               "debug" := JStr(debug)])
    case PhotoError(e) => JObj(map["success" := JBool(false), "error" := JStr(e)])
  }

  /** A fetch that either threw or got the photo route's own answer. */
  ghost predicate FromPhotoRoute(fetched: PhotoFetch)
  {
    fetched.FetchThrew?
    || exists req: Result<FetchPhotos.PhotoRequest>, search: string -> Result<PlacesApi.FindPlaceResponse> ::
         fetched.reply == ReplyJson(FetchPhotos.FetchPhotosPost(req, search).body)
  }

  /** When every fetch is answered by the photo route (or throws), every
      destination gets an array of at most three URL strings. */
  lemma MergedPhotosAreBounded(dest: Json, googleMaps: Json, index: nat, fetch: (nat, Json) -> PhotoFetch)
    requires FromPhotoRoute(fetch(index, PhotoRequestBody(dest, googleMaps)))
    ensures var photos := MergedPhotos(dest, googleMaps, index, fetch);
            && photos.JArr? && |photos.items| <= FetchPhotos.MaxPhotos
            && forall i :: 0 <= i < |photos.items| ==> photos.items[i].JStr?
  {
    var fetched := fetch(index, PhotoRequestBody(dest, googleMaps));
    if fetched.FetchReplied? {
      var req: Result<FetchPhotos.PhotoRequest>, search: string -> Result<PlacesApi.FindPlaceResponse> :|
        fetched.reply == ReplyJson(FetchPhotos.FetchPhotosPost(req, search).body);
      var reply := FetchPhotos.FetchPhotosPost(req, search).body;
      if reply.Photos? {
        assert 1 <= |reply.photos| <= FetchPhotos.MaxPhotos;
      }
    }
  }
}
