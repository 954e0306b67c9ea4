/** What one HTTP exchange with the server can yield. */
module Http {

  /** A transport failure (an exception, so no response) or a response with its status code. */
  datatype HttpOutcome = TransportFailure | Response(status: int)

  const HTTP_OK := 200
}
