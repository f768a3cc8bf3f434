/** The response envelope of app/Services/ApiResponseService.php.

    Every answer carries `status` (the code the caller passed), `success` and `message`.
    A plain result is wrapped as `{status, success: true, message, data}` and sent with
    the code as its transport status; an error as `{status, success: false, message,
    data: null}`. A resource collection is not wrapped: the three fields are attached to
    the collection as its additional data and the collection is returned, with no
    transport status taken from the code.
 */
module ApiResponse {
  import opened Options

  const HTTP_OK: int := 200
  const HTTP_NOT_FOUND: int := 404

  /** The fields attached to every answer. */
  datatype Meta = Meta(status: int, success: bool, message: string)

  /** A resource collection: its items and the additional top-level data attached to it
      (`None` when nothing has been attached). */
  datatype Collection<T> = Collection(items: seq<T>, additional: Option<Meta>)

  /** What a caller passes as the result: a resource collection, or any other value
      (`None` for null). */
  datatype Outcome<T> = ResourceCollection(collection: Collection<T>) | Plain(value: Option<T>)

  /** The JSON body of a wrapped answer. */
  datatype Envelope<T> = Envelope(status: int, success: bool, message: string, data: Option<T>)

  /** What the service returns: the collection itself, or a JSON response with a body and
      a transport status. */
  datatype Response<T> =
    | CollectionResponse(collection: Collection<T>)
    | JsonResponse(body: Envelope<T>, httpStatus: int)

  /** The status, success and message fields of an answer, as a client reads them. */
  function Header<T>(r: Response<T>): Option<Meta> {
    match r
    case CollectionResponse(c) => c.additional
    case JsonResponse(b, _) => Some(Meta(b.status, b.success, b.message))
  }

  /** The transport status the service sets itself, if any. */
  function TransportStatus<T>(r: Response<T>): Option<int> {
    match r
    case CollectionResponse(_) => None
    case JsonResponse(_, code) => Some(code)
  }

  /** sendResponse: a success answer echoing the code; a collection keeps its items and
      gets the header attached, any other result (null included) becomes `data`. */
  function SendResponse<T>(result: Outcome<T>, message: string, code: int): (r: Response<T>)
    ensures Header(r) == Some(Meta(code, true, message))
    ensures result.ResourceCollection? ==>
              r.CollectionResponse? && r.collection.items == result.collection.items
              && TransportStatus(r) == None
    ensures result.Plain? ==>
              r.JsonResponse? && r.body.data == result.value && TransportStatus(r) == Some(code)
  {
    match result
    case ResourceCollection(c) =>
      CollectionResponse(c.(additional := Some(Meta(code, true, message))))
    case Plain(v) =>
      JsonResponse(Envelope(code, true, message, v), code)
  }

  /** sendError: a failure answer with null data, the code echoed in the body and used as
      the transport status. */
  function SendError<T>(error: string, code: int): (r: Response<T>)
    ensures Header(r) == Some(Meta(code, false, error))
    ensures r.JsonResponse? && r.body.data == None
    ensures TransportStatus(r) == Some(code)
  {
    JsonResponse(Envelope(code, false, error, None), code)
  }

  /** sendResponse with the code left out: 200. */
  function SendResponseDefault<T>(result: Outcome<T>, message: string): (r: Response<T>)
    ensures Header(r) == Some(Meta(200, true, message))
    ensures result.Plain? ==> TransportStatus(r) == Some(200)
  {
    SendResponse(result, message, HTTP_OK)
  }

  /** sendError with the code left out: 404. */
  function SendErrorDefault<T>(error: string): (r: Response<T>)
    ensures Header(r) == Some(Meta(404, false, error))
    ensures TransportStatus(r) == Some(404)
  {
    SendError(error, HTTP_NOT_FOUND)
  }

  /** In every branch the body's status is the code passed in, and `success` tells a
      success answer from an error answer: no success answer equals an error answer. */
  lemma SuccessSeparatesOutcomes<T>(result: Outcome<T>, message: string, code: int, error: string, errorCode: int)
    ensures Header(SendResponse(result, message, code)).value.status == code
    ensures Header(SendError<T>(error, errorCode)).value.status == errorCode
    ensures Header(SendResponse(result, message, code)).value.success
    ensures !Header(SendError<T>(error, errorCode)).value.success
    ensures SendResponse(result, message, code) != SendError(error, errorCode)
  {
    assert Header(SendResponse(result, message, code)) != Header(SendError<T>(error, errorCode));
  }
}
