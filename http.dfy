/**
 * What a handler hands back: the exceptions the server code throws or
 * catches, the response of a JAX-RS resource, and the result plus the
 * mutable response headers of a Play controller.
 */
module Http {
  import opened Wrappers
  import opened Json

  const OK := 200
  const CREATED := 201
  const NO_CONTENT := 204
  const BAD_REQUEST := 400
  const FORBIDDEN := 403
  const NOT_FOUND := 404
  const INTERNAL_SERVER_ERROR := 500

  const HEADER_TOTAL_COUNT := "X-Total-Count"
  const HEADER_LINK := "Link"
  const HEADER_LOCATION := "Location"

  /** The exception classes the handlers throw, catch or let through. */
  datatype Exception =
    | IllegalArgument(message: string)   // java.lang.IllegalArgumentException
    | CedarAssertion(message: string)    // CedarAssertionException
    | CedarProcessing(message: string)   // CedarProcessingException
    | IOError                            // java.io.IOException
    | SchemaProcessing                   // json-schema ProcessingException
    | InstanceNotFound                   // javax.management.InstanceNotFoundException
    | AccessDenied                       // a failed login or permission check
    | NullPointer                        // java.lang.NullPointerException

  /** CedarErrorKey values the template resource reports. */
  datatype ErrorKey =
    | TemplateNotCreated
    | TemplateNotFound
    | TemplatesNotListed
    | TemplateNotUpdated
    | TemplateNotDeleted

  /** A response entity. */
  datatype Body =
    | NoBody
    | Document(doc: Doc)
    | Documents(docs: seq<Doc>)
    | CedarError(key: ErrorKey, cause: Option<Exception>)  // CedarResponse with an error key
    | ErrorOf(exception: Exception)                        // Play's ...WithError(e)

  /** A JAX-RS response. */
  datatype Response = Response(status: int, headers: map<string, string>, body: Body)

  /** A JAX-RS resource method either returns a response or throws to the framework. */
  datatype Outcome = Returned(response: Response) | Thrown(exception: Exception)

  /** A Play result; its headers live on the request's PlayResponse. */
  datatype PlayResult = PlayResult(status: int, body: Body)

  /** Play's `response()`: headers set on it as a side effect travel with whatever result is returned. */
  class PlayResponse {
    var headers: map<string, string>

    constructor ()
      ensures headers == map[]
    {
      headers := map[];
    }

    method SetHeader(name: string, value: string)
      modifies this
      ensures headers == old(headers)[name := value]
    {
      headers := headers[name := value];
    }
  }

  /**
   * The catch chain of a Play handler: an IllegalArgumentException becomes 400
   * where the handler catches it, an InstanceNotFoundException 404 where the
   * handler catches it, an access failure 403, and anything else 500.
   */
  function PlayCatch(e: Exception, catchesIllegalArgument: bool, catchesNotFound: bool): (r: PlayResult)
    ensures r.status in {BAD_REQUEST, NOT_FOUND, FORBIDDEN, INTERNAL_SERVER_ERROR}
    ensures r.status == BAD_REQUEST <==> catchesIllegalArgument && e.IllegalArgument?
    ensures r.status == NOT_FOUND <==> catchesNotFound && e.InstanceNotFound?
    ensures r.status == FORBIDDEN <==> e.AccessDenied?
  {
    if catchesIllegalArgument && e.IllegalArgument? then PlayResult(BAD_REQUEST, ErrorOf(e))
    else if catchesNotFound && e.InstanceNotFound? then PlayResult(NOT_FOUND, NoBody)
    else if e.AccessDenied? then PlayResult(FORBIDDEN, ErrorOf(e))
    else PlayResult(INTERNAL_SERVER_ERROR, ErrorOf(e))
  }
}
