/**
 * The HTTP surface shared by the two cloud functions (functions/src/transaction.js
 * and functions/src/charge.js): the reply shapes and the checks that run before
 * any store access — the preflight answer, the POST-only rule, the bearer token.
 */
module Http {
  import opened Wrappers
  import opened Js
  import opened Outcomes

  /** The JSON reply: empty, `{success: true, txId}`, or `{success: false, error: {code}}`. */
  datatype Reply = NoContent | Succeeded(txId: string) | Failed(code: Code)

  datatype Response = Response(status: nat, reply: Reply)

  /** `req.headers.authorization?.replace('Bearer ', '')`; an absent header gives the falsy empty token. */
  function BearerToken(authorization: Option<string>): string {
    if authorization.Some? then ReplaceFirst(authorization.value, "Bearer ", "") else ""
  }

  lemma BearerTokenStripsPrefix(t: string)
    ensures BearerToken(Some("Bearer " + t)) == t
  {
    assert ("Bearer " + t)[..7] == "Bearer ";
    assert ("Bearer " + t)[7..] == t;
  }

  /**
   * Everything a handler does before it reads its body: answer the preflight,
   * refuse other methods than POST, refuse a missing token, and turn the result
   * of token verification into the caller's uid or a failure reported with the
   * handler's fallback code. `verified` is what verification gives for the token.
   */
  function Gate(httpMethod: string, authorization: Option<string>, verified: Result<string, string>, fallback: Code)
    : (g: Result<string, Response>)
    ensures httpMethod == "OPTIONS" ==> g == Failure(Response(200, NoContent))
    ensures httpMethod != "OPTIONS" && httpMethod != "POST" ==> g == Failure(Response(405, Failed(MethodNotAllowed)))
    ensures httpMethod == "POST" && BearerToken(authorization) == "" ==> g == Failure(Response(401, Failed(Unauthorized)))
    ensures httpMethod == "POST" && BearerToken(authorization) != "" && verified.Failure? ==>
              g == Failure(Response(500, Failed(Reported(Raw(verified.error), fallback))))
    ensures g.Success? <==> httpMethod == "POST" && BearerToken(authorization) != "" && verified.Success?
    ensures g.Success? ==> g.value == verified.value
  {
    if httpMethod == "OPTIONS" then Failure(Response(200, NoContent))
    else if httpMethod != "POST" then Failure(Response(405, Failed(MethodNotAllowed)))
    else if BearerToken(authorization) == "" then Failure(Response(401, Failed(Unauthorized)))
    else if verified.Failure? then Failure(Response(500, Failed(Reported(Raw(verified.error), fallback))))
    else Success(verified.value)
  }
}
