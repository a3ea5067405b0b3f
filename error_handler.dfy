/** `ErrorHandlerMiddleware`: an exception escaping the rest of the pipeline
    becomes a JSON response whose status is chosen by an ordered test. */
module ErrorHandling {
  import opened Common
  import opened Strings

  const BadRequestStatus: int := 400
  const NotFoundStatus: int := 404
  const InternalServerErrorStatus: int := 500
  const JsonContentType: string := "application/json"
  const NotFoundPhrase: string := "not found"

  /** The `switch` over the caught exception, tested in order: a validation
      failure first, then a message mentioning "not found" in any case, then
      everything else. */
  function StatusCodeFor(e: Exception): (code: int)
    ensures code == BadRequestStatus <==> e.ValidationException?
    ensures code == NotFoundStatus <==>
      !e.ValidationException? && exists i :: OccursAt(Lower(e.message), NotFoundPhrase, i)
    ensures code == InternalServerErrorStatus <==>
      !e.ValidationException? && forall i :: !OccursAt(Lower(e.message), NotFoundPhrase, i)
  {
    if e.ValidationException? then BadRequestStatus
    else if Contains(Lower(e.message), NotFoundPhrase) then
      assert exists i :: OccursAt(Lower(e.message), NotFoundPhrase, i);
      NotFoundStatus
    else
      assert !exists i :: OccursAt(Lower(e.message), NotFoundPhrase, i);
      InternalServerErrorStatus
  }

  /** The validation case comes first: a validation message that mentions "not
      found" still gives 400. */
  lemma ValidationBeforeNotFound(message: string)
    requires Contains(Lower(message), NotFoundPhrase)
    ensures StatusCodeFor(ValidationException(message)) == BadRequestStatus
    ensures StatusCodeFor(OtherException(message)) == NotFoundStatus
  {
  }

  /** The serialized `{ message = error.Message }` body. */
  datatype ResponseBody = MessageBody(message: string)

  /** The parts of `HttpContext.Response` the middleware sets. */
  class HttpResponse {
    var statusCode: int
    var contentType: string
    var written: seq<ResponseBody>

    constructor (statusCode: int, contentType: string)
      ensures this.statusCode == statusCode && this.contentType == contentType
      ensures written == []
    {
      this.statusCode, this.contentType, written := statusCode, contentType, [];
    }
  }

  /** `Invoke` after `_next` has run: `thrown` is what escaped it, if anything.
      Without an exception the response is left as the pipeline made it;
      with one, the content type is JSON, the status is `StatusCodeFor`, and the
      message is written. */
  method Invoke(response: HttpResponse, thrown: Option<Exception>)
    modifies response
    ensures thrown.None? ==>
      && response.statusCode == old(response.statusCode)
      && response.contentType == old(response.contentType)
      && response.written == old(response.written)
    ensures thrown.Some? ==>
      && response.contentType == JsonContentType
      && response.statusCode == StatusCodeFor(thrown.value)
      && response.written == old(response.written) + [MessageBody(thrown.value.Message())]
  {
    match thrown {
      case None =>
      case Some(error) =>
        response.contentType := JsonContentType;
        if error.ValidationException? {
          response.statusCode := BadRequestStatus;
        } else if Contains(Lower(error.message), NotFoundPhrase) {
          response.statusCode := NotFoundStatus;
        } else {
          response.statusCode := InternalServerErrorStatus;
        }
        response.written := response.written + [MessageBody(error.Message())];
    }
  }
}
