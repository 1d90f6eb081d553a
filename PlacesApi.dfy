/** The parts of the Google Places "find place from text" response that the
    routes read, and the URLs they build for the Places web service. */
module PlacesApi {
  import opened Wrappers
  import opened UriEncoding

  datatype PlacePhoto = PlacePhoto(photoReference: string)

  /** A candidate place; `photos` is absent when the place has none. */
  datatype Candidate = Candidate(name: string, placeId: string, photos: Option<seq<PlacePhoto>>)

  /** `status`, `candidates` (possibly absent) and `error_message` (possibly absent). */
  datatype FindPlaceResponse = FindPlaceResponse(
    status: string,
    candidates: Option<seq<Candidate>>,
    errorMessage: Option<string>)

  const FindPlaceEndpoint := "https://maps.googleapis.com/maps/api/place/findplacefromtext/json?input="
  const PhotoEndpoint := "https://maps.googleapis.com/maps/api/place/photo?maxwidth="

  /** The find-place query for `placeName`, URL-encoded, asking for id, name and photos. */
  function FindPlaceUrl(placeName: string, key: string): string
  {
    FindPlaceEndpoint + EncodeUriComponent(placeName)
    + "&inputtype=textquery&fields=place_id,name,photos&key=" + key
  }

  /** The photo URL for a reference; the reference and the key are interpolated as they are. */
  function PhotoUrl(maxWidth: string, reference: string, key: string): string
  {
    PhotoEndpoint + maxWidth + "&photo_reference=" + reference + "&key=" + key
  }

  /** The candidate has at least one photo (`place.photos && place.photos.length > 0`). */
  predicate HasPhotos(c: Candidate)
  {
    c.photos.Some? && |c.photos.value| > 0
  }

  /** `status === "OK" && candidates && candidates.length > 0` */
  predicate HasCandidate(r: FindPlaceResponse)
  {
    r.status == "OK" && r.candidates.Some? && |r.candidates.value| > 0
  }
}
