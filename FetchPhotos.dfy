/** The photo lookup route (app/api/fetch-photos/route.ts): a decision tree over
    the Places response that yields one fallback image URL or up to three Places
    photo URLs. The request body and the Places response are inputs. */
module FetchPhotos {
  import opened Wrappers
  import opened JsText
  import opened UriEncoding
  import opened PlacesApi
  import opened Http

  /** Coordinates, carried as the text they are interpolated as. */
  datatype Location = Location(lat: string, lng: string)

  /** `{ placeName, location, googleMapsApiKey }`, each possibly absent. */
  datatype PhotoRequest = PhotoRequest(
    placeName: Option<string>,
    location: Option<Location>,
    googleMapsApiKey: Option<string>)

  /** `{success: true, photos, debug}` or `{success: false, error}`. */
  datatype PhotoReply = Photos(photos: seq<string>, debug: string) | PhotoError(error: string)

  const MissingFields := "Missing required fields"
  const DefaultPhotoError := "Failed to fetch photos"
  const MaxPhotos := 3

  /** A string field is truthy when present and non-empty. */
  predicate Given(s: Option<string>)
  {
    s.Some? && s.value != ""
  }

  /** The search URL; the location bias is appended exactly when a location is given. */
  function SearchUrl(placeName: string, key: string, location: Option<Location>): (url: string)
    ensures FindPlaceUrl(placeName, key) <= url
    ensures url == FindPlaceUrl(placeName, key) <==> location.None?
    ensures location.Some? ==>
              url[|FindPlaceUrl(placeName, key)|..]
              == "&locationbias=circle:5000@" + location.value.lat + "," + location.value.lng
  {
    var base := FindPlaceUrl(placeName, key);
    match location
    case None => base
    case Some(loc) =>
      var suffix := "&locationbias=circle:5000@" + loc.lat + "," + loc.lng;
      assert |suffix| > 0;
      assert (base + suffix)[|base|..] == suffix;
      base + suffix
  }

  /** `https://source.unsplash.com/800x600/?${encodeURIComponent(placeName)}` */
  function FallbackUrl(placeName: string): string
  {
    "https://source.unsplash.com/800x600/?" + EncodeUriComponent(placeName)
  }

  /** `photos.slice(0, 3).map(...)` with maxwidth=800. */
  function GooglePhotoUrls(photos: seq<PlacePhoto>, key: string): (urls: seq<string>)
    ensures |urls| == if |photos| < MaxPhotos then |photos| else MaxPhotos
    ensures forall i :: 0 <= i < |urls| ==> urls[i] == PhotoUrl("800", photos[i].photoReference, key)
  {
    var n := if |photos| < MaxPhotos then |photos| else MaxPhotos;
    seq(n, i requires 0 <= i < n => PhotoUrl("800", photos[i].photoReference, key))
  }

  /** The photo list once the request is valid and the Places response has arrived. */
  function SelectPhotos(placeName: string, key: string, search: FindPlaceResponse): (reply: PhotoReply)
    ensures reply.Photos? && 1 <= |reply.photos| <= MaxPhotos
    ensures search.status == "REQUEST_DENIED" ==> reply.photos == [FallbackUrl(placeName)]
    ensures !HasCandidate(search) ==> reply.photos == [FallbackUrl(placeName)]
    ensures HasCandidate(search) && !HasPhotos(search.candidates.value[0]) ==>
              reply.photos == [FallbackUrl(placeName)]
    ensures HasCandidate(search) && HasPhotos(search.candidates.value[0]) ==>
              reply.photos == GooglePhotoUrls(search.candidates.value[0].photos.value, key)
  {
    if search.status == "REQUEST_DENIED" then
      Photos([FallbackUrl(placeName)], "Places API not enabled or invalid API key")
    else if !HasCandidate(search) then
      Photos([FallbackUrl(placeName)], "Places API status: " + search.status)
    else
      var place := search.candidates.value[0];
      var urls := if HasPhotos(place) then GooglePhotoUrls(place.photos.value, key)
                  else [FallbackUrl(placeName)];
      Photos(urls, "Found " + Decimal(|urls|) + " photos from " + (if HasPhotos(place) then "Google" else "Unsplash"))
  }

  /** The POST handler. `body` is `req.json()` and `search` the find-place
      call for the URL it is given: the parsed response, or the message of
      what threw. */
  function FetchPhotosPost(body: Result<PhotoRequest>, search: string -> Result<FindPlaceResponse>): (resp: Response<PhotoReply>)
    ensures resp.headers == JsonContentType
    ensures resp.status == 200 <==> resp.body.Photos?
    ensures resp.body.Photos? ==> 1 <= |resp.body.photos| <= MaxPhotos
    ensures resp.body.PhotoError? ==> resp.status in {400, 500} && resp.body.error != ""
    ensures body.Failure? ==> resp == Response(500, JsonContentType, PhotoError(OrDefault(body.error, DefaultPhotoError)))
    ensures body.Success? && !(Given(body.value.placeName) && Given(body.value.googleMapsApiKey)) ==>
              resp.status == 400 && resp.body == PhotoError(MissingFields)
    ensures body.Success? && Given(body.value.placeName) && Given(body.value.googleMapsApiKey) ==>
              var name, key := body.value.placeName.value, body.value.googleMapsApiKey.value;
              match search(SearchUrl(name, key, body.value.location))
              case Failure(e) => resp == Response(500, JsonContentType, PhotoError(OrDefault(e, DefaultPhotoError)))
              case Success(found) => resp == Response(200, JsonContentType, SelectPhotos(name, key, found))
  {
    match body
    case Failure(e) => Response(500, JsonContentType, PhotoError(OrDefault(e, DefaultPhotoError)))
    case Success(req) =>
      if !Given(req.placeName) || !Given(req.googleMapsApiKey) then
        Response(400, JsonContentType, PhotoError(MissingFields))
      else match search(SearchUrl(req.placeName.value, req.googleMapsApiKey.value, req.location))
        case Failure(e) => Response(500, JsonContentType, PhotoError(OrDefault(e, DefaultPhotoError)))
        case Success(found) =>
          Response(200, JsonContentType, SelectPhotos(req.placeName.value, req.googleMapsApiKey.value, found))
  }

  /** Only the first candidate is looked at: the others never change the reply. */
  lemma OnlyFirstCandidateMatters(placeName: string, key: string, status: string, first: Candidate,
                                  others1: seq<Candidate>, others2: seq<Candidate>, msg1: Option<string>, msg2: Option<string>)
    ensures SelectPhotos(placeName, key, FindPlaceResponse(status, Some([first] + others1), msg1))
         == SelectPhotos(placeName, key, FindPlaceResponse(status, Some([first] + others2), msg2))
  {
  }

  /** The fallback URL ends in the place name, percent-encoded so that decoding
      the query gives the name back. */
  lemma FallbackUrlCarriesName(placeName: string)
    ensures var url := FallbackUrl(placeName);
            var prefix := "https://source.unsplash.com/800x600/?";
            && prefix <= url
            && IsEncodedText(url[|prefix|..])
            && DecodeUriComponent(url[|prefix|..]) == Some(placeName)
  {
    var prefix := "https://source.unsplash.com/800x600/?";
    assert FallbackUrl(placeName)[|prefix|..] == EncodeUriComponent(placeName);
    EncodedAlphabet(placeName);
    DecodeEncode(placeName);
  }
}
