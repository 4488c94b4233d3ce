/** The HTTP outcomes the route handlers produce. An exception that a handler
    does not catch reaches the web framework and becomes a 500. */
module Http {

  datatype HttpError =
    | BadRequest      // HTTPException(status_code=400)
    | Forbidden       // HTTPException(status_code=403)
    | NotFound        // HTTPException(status_code=404)
    | InternalError   // any uncaught exception
}
