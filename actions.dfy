/** What a controller action answers: the ASP.NET Core results the handlers
    use, or the exception that escapes them (which the error-handling
    middleware turns into a response). */
module Actions {
  import opened Common
  import opened Entities

  datatype ActionResult<T> =
    | Ok(body: T)
    | Created(id: Guid, createdBody: T)
    | NoContent
    | NotFound(message: Option<string>)
    | BadRequest(error: string)
    | Thrown(exception: Exception)
}
