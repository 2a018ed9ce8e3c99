/**
 * The client's decision on a quote (api/respond.js): a chain of checks with
 * early returns (method, body, parameters, token refresh), the normalised
 * action, the update written to the CRM, and the classification of the
 * CRM's answer.
 *
 * Like the read handler, this one refreshes an access token itself on every
 * request and writes exactly once; there is no retry.
 */
module QuoteRespond {
  import opened Wrappers
  import opened Crm
  import opened ZohoDate

  /** The fields of the JSON body. */
  datatype RespondBody = RespondBody(qid: Option<string>, action: Option<string>, comment: Option<string>, name: Option<string>)

  /** The HTTP method and the parsed body, which may be missing altogether. */
  datatype RespondRequest = RespondRequest(httpMethod: string, body: Option<RespondBody>)

  /** One entry of the `data` array the CRM answers a PUT with. */
  datatype WriteEntry = WriteEntry(code: Option<string>)

  /**
   * The CRM's answer to the PUT: unavailable (network failure or a body that
   * is not JSON), or its `data` entries and its text. The entries are empty
   * when `data` is absent or the body is JSON `null`, which the optional
   * chaining `crmData?.data?.[0]` reads without throwing.
   */
  datatype WriteReply = WriteUnavailable(message: string) | WriteJson(entries: seq<WriteEntry>, text: string)

  datatype RespondResponse =
    | MethodNotAllowed                               // 405 "Only POST allowed"
    | MissingParams                                  // 400 "Missing qid or action"
    | RefreshFailed(raw: string)                     // 401, echoing the refresh reply
    | Acknowledged(action: string, sent: UpdateMap)  // 200
    | Rejected(sent: UpdateMap, crmRaw: WriteReply)  // 400 "Zoho did not accept the update"
    | ServerError                                    // 500, the caught exception's message

  function Code(r: RespondResponse): int {
    match r
    case MethodNotAllowed => 405
    case MissingParams => 400
    case RefreshFailed(_) => 401
    case Acknowledged(_, _) => 200
    case Rejected(_, _) => 400
    case ServerError => 500
  }

  /** The response and the upstream calls issued, in order. */
  datatype RespondOutcome = RespondOutcome(response: RespondResponse, calls: seq<Call>)

  // ---------------------------------------------------------------------
  // Normalising the action

  /** `toLowerCase` on one character; only ASCII letters are mapped. */
  function LowerChar(c: char): char {
    if 'A' <= c <= 'Z' then (c as int - 'A' as int + 'a' as int) as char else c
  }

  function Lower(s: string): (r: string)
    ensures |r| == |s|
    ensures forall i :: 0 <= i < |s| ==> r[i] == LowerChar(s[i])
  {
    seq(|s|, i requires 0 <= i < |s| => LowerChar(s[i]))
  }

  predicate StartsWith(s: string, prefix: string) {
    |prefix| <= |s| && s[..|prefix|] == prefix
  }

  /**
   * `norm`: the lower-cased action is matched by prefix against `accept`,
   * then `deny`, then `nego`; an action matching none is kept as given.
   */
  function Norm(action: string): (r: string)
    ensures r == "Accepted" || r == "Denied" || r == "Negotiated" || r == action
    ensures StartsWith(Lower(action), "accept") ==> r == "Accepted"
    ensures !StartsWith(Lower(action), "accept") && StartsWith(Lower(action), "deny") ==> r == "Denied"
    ensures (!StartsWith(Lower(action), "accept") && !StartsWith(Lower(action), "deny")
      && StartsWith(Lower(action), "nego")) ==> r == "Negotiated"
    ensures (!StartsWith(Lower(action), "accept") && !StartsWith(Lower(action), "deny")
      && !StartsWith(Lower(action), "nego")) ==> r == action
  {
    var t := Lower(action);
    if StartsWith(t, "accept") then "Accepted"
    else if StartsWith(t, "deny") then "Denied"
    else if StartsWith(t, "nego") then "Negotiated"
    else action
  }

  /** Normalising twice is normalising once; in particular `Denied` is kept because it does not start with `deny`. */
  lemma NormIdempotent(action: string)
    ensures Norm(Norm(action)) == Norm(action)
  {
    var r := Norm(action);
    if r == "Accepted" {
      NormAccepted();
    } else if r == "Denied" {
      NormDenied();
    } else if r == "Negotiated" {
      NormNegotiated();
    }
  }

  lemma NormAccepted()
    ensures Norm("Accepted") == "Accepted"
  {
    assert "Accepted" == ['A'] + "ccepted";
    LowerCapitalised('A', "ccepted");
    assert Lower("Accepted") == "accepted";
    assert "accepted"[..6] == "accept";
  }

  lemma NormDenied()
    ensures Norm("Denied") == "Denied"
  {
    assert "Denied" == ['D'] + "enied";
    LowerCapitalised('D', "enied");
    var t := Lower("Denied");
    assert t == "denied";
    assert t[..6][0] == 'd' && t[..4][0] == 'd' && t[..4][3] == 'i';
    assert !StartsWith(t, "accept") && !StartsWith(t, "deny") && !StartsWith(t, "nego");
  }

  lemma NormNegotiated()
    ensures Norm("Negotiated") == "Negotiated"
  {
    assert "Negotiated" == ['N'] + "egotiated";
    LowerCapitalised('N', "egotiated");
    var t := Lower("Negotiated");
    assert t == "negotiated";
    assert t[..6][0] == 'n' && t[..4][0] == 'n';
    assert t[..4] == "nego";
  }

  /** A capital followed by text without ASCII capitals lower-cases to its letter's lower case and the same text. */
  lemma LowerCapitalised(c: char, rest: string)
    requires 'A' <= c <= 'Z'
    requires forall i :: 0 <= i < |rest| ==> !('A' <= rest[i] <= 'Z')
    ensures Lower([c] + rest) == [LowerChar(c)] + rest
  {
    var s := [c] + rest;
    assert forall i :: 1 <= i < |s| ==> s[i] == rest[i - 1];
  }

  /** Actions that differ only in the case of ASCII letters normalise alike, unless neither is recognised and each is kept as given. */
  lemma NormIgnoresCase(a: string, b: string)
    requires Lower(a) == Lower(b)
    ensures Norm(a) == Norm(b) || (Norm(a) == a && Norm(b) == b)
  {
  }

  /** Text without ASCII capitals is its own lower case. */
  lemma LowerKeepsLowerCase(s: string)
    requires forall i :: 0 <= i < |s| ==> !('A' <= s[i] <= 'Z')
    ensures Lower(s) == s
  {
  }

  /** Worked cases: a prefix suffices and case does not matter, but lower-case `denied` is not recognised. */
  lemma NormExamples()
    ensures Norm("accepted please") == "Accepted"
    ensures Norm("DENY") == "Denied"
    ensures Norm("negotiate") == "Negotiated"
    ensures Norm("denied") == "denied"
  {
    LowerKeepsLowerCase("accepted please");
    LowerKeepsLowerCase("negotiate");
    LowerKeepsLowerCase("denied");
    assert "accepted please"[..6] == "accept";
    assert Lower("DENY")[..4] == "deny";
    assert "negotiate"[..6][0] == 'n' && "negotiate"[..4][0] == 'n';
    assert "negotiate"[..4] == "nego";
    assert "denied"[..6][0] == 'd' && "denied"[..4][0] == 'd';
    assert "denied"[..4][3] == 'i';
  }

  // ---------------------------------------------------------------------
  // The update written to the CRM

  const STATUS_KEY := "Acceptance_Status"
  const RESPONSE_KEY := "Client_Response"
  const ACKNOWLEDGED_KEY := "Acknowledged_By"
  const EXPIRES_KEY := "Acceptance_Token_Expires"

  /** A decision after which the link token is expired. */
  predicate IsFinal(action: string) {
    action == "Accepted" || action == "Denied"
  }

  /**
   * `updateMap`: the status, the comment and the name (an empty or absent
   * one written as null), and, for a final decision only, the link token's
   * expiry set to `now`.
   */
  function UpdateMapFor(finalAction: string, comment: Option<string>, name: Option<string>, now: DateTime): (m: UpdateMap)
    ensures m.Keys == {STATUS_KEY, RESPONSE_KEY, ACKNOWLEDGED_KEY} + (if IsFinal(finalAction) then {EXPIRES_KEY} else {})
    ensures EXPIRES_KEY in m <==> IsFinal(finalAction)
    ensures m[STATUS_KEY] == Some(finalAction)
    ensures m[RESPONSE_KEY] == OrNull(comment) && m[ACKNOWLEDGED_KEY] == OrNull(name)
    ensures IsFinal(finalAction) ==> m[EXPIRES_KEY] == Some(Format(now))
  {
    var base := map[STATUS_KEY := Some(finalAction), RESPONSE_KEY := OrNull(comment), ACKNOWLEDGED_KEY := OrNull(name)];
    if IsFinal(finalAction) then base[EXPIRES_KEY := Some(Format(now))] else base
  }

  /** The handler's own steps: build the three fields, then add the expiry for a final decision. */
  method BuildUpdateMap(finalAction: string, comment: Option<string>, name: Option<string>, now: DateTime)
    returns (m: UpdateMap)
    ensures m == UpdateMapFor(finalAction, comment, name, now)
  {
    m := map[STATUS_KEY := Some(finalAction), RESPONSE_KEY := OrNull(comment), ACKNOWLEDGED_KEY := OrNull(name)];
    if finalAction == "Accepted" || finalAction == "Denied" {
      m := m[EXPIRES_KEY := Some(Format(now))];
    }
  }

  /** A final decision writes an expiry that reads back as the instant of the decision. */
  lemma FinalDecisionExpiryReadsBack(finalAction: string, comment: Option<string>, name: Option<string>, now: DateTime)
    requires IsFinal(finalAction) && InRange(now)
    ensures var m := UpdateMapFor(finalAction, comment, name, now);
      m[EXPIRES_KEY].Some? && Parse(m[EXPIRES_KEY].value) == Some(now)
  {
    ParseFormat(now);
  }

  // ---------------------------------------------------------------------
  // Handler

  /**
   * `first && first.code === "SUCCESS"` with `first = crmData?.data?.[0]`:
   * only the first entry is looked at, and a reply without entries is not a
   * success.
   */
  predicate WriteSucceeded(reply: WriteReply): (ok: bool)
    ensures ok ==> reply.WriteJson? && |reply.entries| > 0
    ensures reply.WriteJson? && |reply.entries| > 0 ==>
      (ok <==> reply.entries[0].code == Some("SUCCESS"))
  {
    reply.WriteJson? && |reply.entries| > 0 && reply.entries[0].code == Some("SUCCESS")
  }

  /** The request gets past the method, body and parameter checks. */
  predicate WellFormed(req: RespondRequest) {
    req.httpMethod == "POST" && req.body.Some? && Truthy(req.body.value.qid) && Truthy(req.body.value.action)
  }

  /** The refresh reply carries a usable access token. */
  predicate TokenGranted(t: TokenReply) {
    t.TokenJson? && Truthy(t.accessToken)
  }

  /** The update a well-formed request writes. */
  function SentFor(req: RespondRequest, now: DateTime): UpdateMap
    requires WellFormed(req)
  {
    var b := req.body.value;
    UpdateMapFor(Norm(b.action.value), b.comment, b.name, now)
  }

  /**
   * The handler: `tokenReply` answers the refresh, `writeReply` answers the
   * PUT, and `now` is the local time at which the update is built.
   */
  function Respond(req: RespondRequest, tokenReply: TokenReply, writeReply: WriteReply, now: DateTime): (o: RespondOutcome)
    ensures o.response.MethodNotAllowed? <==> req.httpMethod != "POST"
    ensures o.response.MissingParams? <==>
      req.httpMethod == "POST" && req.body.Some? && !(Truthy(req.body.value.qid) && Truthy(req.body.value.action))
    ensures !WellFormed(req) ==> o.calls == []
    ensures WellFormed(req) && !TokenGranted(tokenReply) ==> o.calls == [RefreshToken]
    ensures WellFormed(req) && TokenGranted(tokenReply) ==>
      o.calls == [RefreshToken, PutQuote(req.body.value.qid.value, SentFor(req, now))]
    ensures o.response.RefreshFailed? <==> WellFormed(req) && tokenReply.TokenJson? && !Truthy(tokenReply.accessToken)
    ensures o.response.RefreshFailed? ==> o.response.raw == tokenReply.text
    ensures req.httpMethod == "POST" && req.body.None? ==> o.response == ServerError
    ensures WellFormed(req) && !tokenReply.TokenJson? ==> o.response == ServerError
    ensures o.response.Acknowledged? <==> WellFormed(req) && TokenGranted(tokenReply) && WriteSucceeded(writeReply)
    ensures o.response.Acknowledged? ==>
      o.response.action == Norm(req.body.value.action.value) && o.response.sent == SentFor(req, now)
    ensures o.response.Rejected? <==>
      WellFormed(req) && TokenGranted(tokenReply) && writeReply.WriteJson? && !WriteSucceeded(writeReply)
    ensures o.response.Rejected? ==> o.response.sent == SentFor(req, now) && o.response.crmRaw == writeReply
  {
    if req.httpMethod != "POST" then
      RespondOutcome(MethodNotAllowed, [])
    else if req.body.None? then
      RespondOutcome(ServerError, [])
    else
      var b := req.body.value;
      if !Truthy(b.qid) || !Truthy(b.action) then
        RespondOutcome(MissingParams, [])
      else
        var finalAction := Norm(b.action.value);
        match tokenReply
        case TokenUnavailable(_) => RespondOutcome(ServerError, [RefreshToken])
        case TokenNotJson(_) => RespondOutcome(ServerError, [RefreshToken])
        case TokenJson(accessToken, _, text) =>
          if !Truthy(accessToken) then
            RespondOutcome(RefreshFailed(text), [RefreshToken])
          else
            var sent := UpdateMapFor(finalAction, b.comment, b.name, now);
            var calls := [RefreshToken, PutQuote(b.qid.value, sent)];
            match writeReply
            case WriteUnavailable(_) => RespondOutcome(ServerError, calls)
            case WriteJson(_, _) =>
              if WriteSucceeded(writeReply) then RespondOutcome(Acknowledged(finalAction, sent), calls)
              else RespondOutcome(Rejected(sent, writeReply), calls)
  }

  /** The number of writes among `calls`. */
  function Puts(calls: seq<Call>): nat
    decreases |calls|
  {
    if |calls| == 0 then 0 else (if calls[0].PutQuote? then 1 else 0) + Puts(calls[1..])
  }

  /** One request writes at most once, and exactly once when it gets an access token. */
  lemma AtMostOneWrite(req: RespondRequest, tokenReply: TokenReply, writeReply: WriteReply, now: DateTime)
    ensures Puts(Respond(req, tokenReply, writeReply, now).calls) <= 1
    ensures Puts(Respond(req, tokenReply, writeReply, now).calls) == 1 <==> WellFormed(req) && TokenGranted(tokenReply)
  {
    var calls := Respond(req, tokenReply, writeReply, now).calls;
    if |calls| == 2 {
      assert calls[1..][1..] == [];
      assert Puts(calls[1..]) == (if calls[1].PutQuote? then 1 else 0);
    } else if |calls| == 1 {
      assert calls[1..] == [];
    }
  }

  /**
   * Once the write is issued, its reply decides the answer: 200 when the
   * first entry has code `SUCCESS`, 400 for any other JSON reply, and 500
   * when the reply is not JSON or the request failed.
   */
  lemma WriteReplyDecides(req: RespondRequest, tokenReply: TokenReply, writeReply: WriteReply, now: DateTime)
    requires WellFormed(req) && TokenGranted(tokenReply)
    ensures var code := Code(Respond(req, tokenReply, writeReply, now).response);
      && (code == 200 <==> WriteSucceeded(writeReply))
      && (code == 400 <==> writeReply.WriteJson? && !WriteSucceeded(writeReply))
      && (code == 500 <==> writeReply.WriteUnavailable?)
  {
  }

  /**
   * A 200 answer means the CRM took the decision; for a final one the update
   * also set the link token's expiry to the decision time. That expiry only
   * changes the status a later read shows; it gates nothing.
   */
  lemma AcknowledgedFinalDecisionSetsExpiry(req: RespondRequest, tokenReply: TokenReply, writeReply: WriteReply, now: DateTime)
    requires Respond(req, tokenReply, writeReply, now).response.Acknowledged?
    requires IsFinal(Respond(req, tokenReply, writeReply, now).response.action)
    ensures Code(Respond(req, tokenReply, writeReply, now).response) == 200
    ensures Respond(req, tokenReply, writeReply, now).response.sent[EXPIRES_KEY] == Some(Format(now))
    ensures WriteSucceeded(writeReply)
  {
  }

  /**
   * The handler takes no link token: any request naming a quote and an
   * action is acknowledged once a token is granted and the CRM reports
   * success, so a quote can be decided again by anyone who knows its id.
   */
  lemma DecisionNeedsNoLinkToken(qid: string, action: string, comment: Option<string>, name: Option<string>,
                                 tokenReply: TokenReply, writeReply: WriteReply, now: DateTime)
    requires qid != "" && action != ""
    requires TokenGranted(tokenReply) && WriteSucceeded(writeReply)
    ensures var req := RespondRequest("POST", Some(RespondBody(Some(qid), Some(action), comment, name)));
      Respond(req, tokenReply, writeReply, now).response == Acknowledged(Norm(action), SentFor(req, now))
  {
  }
}
