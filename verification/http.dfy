/** The responses a Flask view produces, as far as the two services use them. */
module Http {
  import opened Python

  datatype Response =
    /** `jsonify(body), status` */
    | JsonResponse(body: Json, status: int)
    /** a plain string body, `text, status` */
    | TextResponse(text: string, status: int)
    /** an exception escaped the view, or the view returned `None`: Flask
        answers with its own 500 Internal Server Error page */
    | Unhandled(cause: Exc)
    /** no route matches the request's path: Flask answers 404 Not Found */
    | NotFound

  /** The HTTP status code the client sees. */
  function StatusOf(r: Response): (code: int)
    ensures r.Unhandled? ==> code == 500
    ensures r.NotFound? ==> code == 404
    ensures r.JsonResponse? || r.TextResponse? ==> code == r.status
  {
    match r
    case JsonResponse(_, status) => status
    case TextResponse(_, status) => status
    case Unhandled(_) => 500
    case NotFound => 404
  }
}
