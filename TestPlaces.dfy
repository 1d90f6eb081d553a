/** The Places diagnostic route (app/api/test-places/route.ts): POST builds a
    report from one find-place response; GET serves the test form or a notice. */
module TestPlaces {
  import opened Wrappers
  import opened PlacesApi
  import opened Http
  import FetchPhotos

  datatype TestRequest = TestRequest(apiKey: Option<string>, placeName: Option<string>)

  datatype PlaceSummary = PlaceSummary(name: string, placeId: string)

  /** The `result` object; an absent field is `None`. */
  datatype Diagnostic = Diagnostic(
    status: string,
    fullData: FindPlaceResponse,
    place: Option<PlaceSummary>,
    photoCount: Option<nat>,
    photoUrl: Option<string>,
    message: Option<string>)

  /** The JSON body: a report, or `{status: "ERROR", message}`. */
  datatype TestBody = Report(diagnostic: Diagnostic) | ErrorReport(message: string)

  const MissingInput := "Missing API key or place name"

  /** Lines 178-196: the report for a find-place response. */
  function Diagnose(data: FindPlaceResponse, apiKey: string): (d: Diagnostic)
    ensures d.status == data.status && d.fullData == data
    ensures d.place.Some? <==> HasCandidate(data)
    ensures d.photoCount.Some? <==> HasCandidate(data)
    ensures HasCandidate(data) ==>
              var c := data.candidates.value[0];
              && d.place == Some(PlaceSummary(c.name, c.placeId))
              && d.photoCount == Some(if c.photos.Some? then |c.photos.value| else 0)
    ensures d.photoUrl.Some? <==> HasCandidate(data) && HasPhotos(data.candidates.value[0])
    ensures d.photoUrl.Some? ==>
              d.photoUrl.value == PhotoUrl("400", data.candidates.value[0].photos.value[0].photoReference, apiKey)
    ensures d.message.Some? <==>
              !HasCandidate(data) && data.errorMessage.Some? && data.errorMessage.value != ""
    ensures d.message.Some? ==> d.message == data.errorMessage
  {
    if HasCandidate(data) then
      var c := data.candidates.value[0];
      Diagnostic(
        data.status, data,
        Some(PlaceSummary(c.name, c.placeId)),
        Some(if c.photos.Some? then |c.photos.value| else 0),
        if HasPhotos(c) then Some(PhotoUrl("400", c.photos.value[0].photoReference, apiKey)) else None,
        None)
    else
      Diagnostic(
        data.status, data, None, None, None,
        if data.errorMessage.Some? && data.errorMessage.value != "" then data.errorMessage else None)
  }

  /** The POST handler; `search` is the find-place call for the URL it is
      given: the parsed response, or the message of what threw. */
  function TestPlacesPost(body: Result<TestRequest>, search: string -> Result<FindPlaceResponse>): (resp: Response<TestBody>)
    ensures resp.headers == JsonContentType
    ensures resp.status == 200 <==> resp.body.Report?
    ensures body.Success? && !(FetchPhotos.Given(body.value.apiKey) && FetchPhotos.Given(body.value.placeName)) ==>
              resp.status == 400 && resp.body == ErrorReport(MissingInput)
    ensures body.Success? && FetchPhotos.Given(body.value.apiKey) && FetchPhotos.Given(body.value.placeName) ==>
              var key := body.value.apiKey.value;
              match search(FindPlaceUrl(body.value.placeName.value, key))
              case Success(data) => resp == Response(200, JsonContentType, Report(Diagnose(data, key)))
              case Failure(e) => resp == Response(500, JsonContentType, ErrorReport(e))
    ensures body.Failure? ==> resp == Response(500, JsonContentType, ErrorReport(body.error))
  {
    match body
    case Failure(e) => Response(500, JsonContentType, ErrorReport(e))
    case Success(req) =>
      if !FetchPhotos.Given(req.apiKey) || !FetchPhotos.Given(req.placeName) then
        Response(400, JsonContentType, ErrorReport(MissingInput))
      else match search(FindPlaceUrl(req.placeName.value, req.apiKey.value))
        case Failure(e) => Response(500, JsonContentType, ErrorReport(e))
        case Success(data) => Response(200, JsonContentType, Report(Diagnose(data, req.apiKey.value)))
  }

  /** The GET page: the HTML test form, or the JSON notice `{message: "Use the form to test"}`. */
  datatype GetPage = TestForm | UseFormNotice

  /** The GET handler: the form without a `key` parameter (or an empty one), the
      notice with one; no lookup is made either way. */
  function TestPlacesGet(key: Option<string>): (resp: Response<GetPage>)
    ensures resp.status == 200
    ensures resp.body == TestForm <==> !FetchPhotos.Given(key)
    ensures resp.body == TestForm ==> resp.headers == map["content-type" := "text/html"]
    ensures resp.body == UseFormNotice ==> resp.headers == JsonContentType
  {
    if !FetchPhotos.Given(key) then Response(200, map["content-type" := "text/html"], TestForm)
    else Response(200, JsonContentType, UseFormNotice)
  }

  /** The diagnostic predicts the photo route on the same Places response: a
      sample photo URL exactly when the photo route serves Places photos (the
      same first photo, at width 400 instead of 800), else the fallback image. */
  lemma DiagnosisPredictsPhotos(data: FindPlaceResponse, placeName: string, apiKey: string)
    ensures var d := Diagnose(data, apiKey);
            var photos := FetchPhotos.SelectPhotos(placeName, apiKey, data).photos;
            && (d.photoUrl.Some? ==>
                  var ref := data.candidates.value[0].photos.value[0].photoReference;
                  d.photoUrl.value == PhotoUrl("400", ref, apiKey) && photos[0] == PhotoUrl("800", ref, apiKey))
            && (d.photoUrl.None? ==> photos == [FetchPhotos.FallbackUrl(placeName)])
  {
  }
}
