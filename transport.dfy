/** The response decision of executeGraphQLQuery (graphql/public/js/graphql.js).
    The HTTP exchange itself is abstract: the server's answer to a query is a
    `Response`, and the function decides what the awaiting caller sees. */
module Transport {
  import opened Wrappers

  /** One entry of a GraphQL `errors` list. */
  datatype GqlError = GqlError(message: string)

  /** The server's answer: a status outside 200-299, or a decoded JSON body
      with an optional `errors` list and its `data`. */
  datatype Response<+D> = HttpFailure(status: int) | Delivered(errors: Option<seq<GqlError>>, data: D)

  /** Why a query rejects: no token stored (nothing is sent), a non-ok status,
      the first GraphQL error's message, or the TypeError thrown when the
      `errors` list is present but empty (reading `message` of undefined). */
  datatype QueryError = NoToken | HttpError(status: int) | GraphQLError(message: string) | TypeError

  /** A settled promise, and whether a request reached the network: what
      executeGraphQLQuery and every fetch built on it give their caller. */
  datatype Fetched<+D> = Fetched(result: Result<D, QueryError>, sent: bool)

  function ExecuteGraphQLQuery<D>(token: Option<string>, response: Response<D>): (r: Fetched<D>)
    ensures r.sent <==> Truthy(token)
    ensures !Truthy(token) ==> r.result == Failure(NoToken)
    ensures r.result.Success? <==> Truthy(token) && response.Delivered? && response.errors.None?
    ensures r.result.Success? ==> r.result.value == response.data
    ensures Truthy(token) && response.HttpFailure? ==> r.result == Failure(HttpError(response.status))
    ensures Truthy(token) && response.Delivered? && response.errors.Some? ==>
      r.result.Failure? && r.result.error == (if |response.errors.value| > 0
                                              then GraphQLError(response.errors.value[0].message)
                                              else TypeError)
  {
    if !Truthy(token) then Fetched(Failure(NoToken), false)
    else
      match response
      case HttpFailure(status) => Fetched(Failure(HttpError(status)), true)
      case Delivered(errors, data) =>
        if errors.Some? then
          var e := if |errors.value| > 0 then GraphQLError(errors.value[0].message) else TypeError;
          Fetched(Failure(e), true)
        else Fetched(Success(data), true)
  }
}
