/** The responses the OAuth2 views hand back to the web framework. */
module Http {
  import opened Optional

  /** The `data` payload of a response. */
  datatype Body =
    | Text(text: string)                              // a bare string, e.g. "Forbidden"
    | Message(msg: string)                            // `{"msg": ...}`
    | FieldErrors(errors: map<string, seq<string>>)   // a serializer's per-field errors
    | IssuedCredentials(clientId: string, clientSecret: string, name: string, msg: string)
    | KeyReport(requestsThisMinute: Option<nat>, requestsToday: Option<nat>,
              rateLimitModel: string, verified: Option<bool>)

  datatype Response = Response(status: int, body: Body)

  /** What a view produced: a response, or an exception that escaped the view. */
  datatype Outcome = Reply(response: Response) | Unhandled(exception: string)
}
