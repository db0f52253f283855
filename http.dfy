/** The HTTP errors the services raise (FastAPI's HTTPException), by status. */
module Http {

  datatype HttpError =
    | BadRequest(detail: string)       // 400
    | Forbidden(detail: string)        // 403
    | NotFound(detail: string)         // 404
    | Unprocessable(detail: string)    // 422: request body or query failed schema validation
    | InternalError(detail: string)    // 500
  {
    function StatusCode(): (code: int)
      ensures 400 <= code < 600
      ensures code == 404 <==> NotFound?
      ensures code == 403 <==> Forbidden?
    {
      match this
      case BadRequest(_) => 400
      case Forbidden(_) => 403
      case NotFound(_) => 404
      case Unprocessable(_) => 422
      case InternalError(_) => 500
    }
  }
}
