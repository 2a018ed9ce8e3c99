/**
 * What the CRM and its OAuth endpoint answer, as the handlers see it once the
 * HTTP exchange is over. The requests themselves are not modelled; each
 * handler reports which upstream calls it issued as a list of `Call`s.
 */
module Crm {
  import opened Wrappers

  /** JavaScript truthiness of an optional string: present and not empty. */
  predicate Truthy(s: Option<string>) {
    s.Some? && s.value != ""
  }

  /** `s || null`: the string when it is truthy, `null` otherwise. */
  function OrNull(s: Option<string>): (r: Option<string>)
    ensures Truthy(s) ==> r == s
    ensures !Truthy(s) ==> r == None
    ensures r != Some("")
  {
    if Truthy(s) then s else None
  }

  /**
   * Reply of the refresh-token grant (section 6 of RFC 6749).
   * `TokenUnavailable` stands for a network failure of the request.
   * `TokenNotJson` is a body that `JSON.parse` rejects, kept as text, and
   * also the JSON `null`, on which reading `access_token` throws just as a
   * failed parse does.
   * `TokenJson` is a parsed body with its `access_token` and `expires_in`
   * fields (each possibly absent) and its text, which handlers echo.
   */
  datatype TokenReply =
    | TokenUnavailable(message: string)
    | TokenNotJson(text: string)
    | TokenJson(accessToken: Option<string>, expiresIn: Option<int>, text: string)

  /** A field written to the CRM: a string value or JSON `null`. */
  type UpdateMap = map<string, Option<string>>

  /** An upstream request a handler issued. */
  datatype Call =
    | RefreshToken
    | GetQuote(qid: string)
    | PutQuote(qid: string, update: UpdateMap)
}
