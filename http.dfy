/** The HTTP status codes the REST servlets answer with, and the JSON media type. */
module Http {
  import opened Text

  /** JsonHelper.CONTENT_TYPE */
  const JsonContentType: string := "application/json"

  /**
   * The header names the JSON media type, ignoring ASCII case: it is as long
   * as the (all lower-case) media type and each of its characters, lowered,
   * is the media type's character at the same place.
   */
  predicate IsJson(header: string)
  {
    |header| == |JsonContentType| &&
    forall i :: 0 <= i < |header| ==> LowerChar(header[i]) == JsonContentType[i]
  }

  /** The media type is all lower case. */
  lemma JsonContentTypeIsLower()
    ensures forall i :: 0 <= i < |JsonContentType| ==> LowerChar(JsonContentType[i]) == JsonContentType[i]
  {
  }

  /** IsJson is the case-insensitive comparison with the media type. */
  lemma JsonIgnoringCase(header: string)
    ensures IsJson(header) <==> EqualsIgnoreCase(header, JsonContentType)
  {
    JsonContentTypeIsLower();
    EqualsIgnoreCaseByChars(header, JsonContentType);
  }

  const StatusOk: int := 200
  const StatusCreated: int := 201
  const StatusNoContent: int := 204
  const StatusBadRequest: int := 400
  const StatusNotFound: int := 404
  const StatusNotAcceptable: int := 406
  const StatusConflict: int := 409
  const StatusUnsupportedMediaType: int := 415
}
