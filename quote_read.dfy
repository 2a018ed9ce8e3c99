/**
 * The public read of one quote (api/quote.js): a chain of checks with early
 * returns (missing parameters, record not found, link token mismatch), then
 * the status shown to the client and the public view of the record.
 *
 * The handler fetches a fresh access token itself on every request; it does
 * not use the shared token cache. Upstream replies are inputs, and the
 * handler reports which upstream calls it made.
 */
module QuoteRead {
  import opened Wrappers
  import opened Crm

  /** The query string: `qid` and the link `token`, either possibly absent. */
  datatype Query = Query(qid: Option<string>, token: Option<string>)

  /** A CRM date field: its text and the instant (ms) `new Date(text)` denotes, `None` when invalid. */
  datatype CrmDate = CrmDate(text: string, instant: Option<int>)

  /** A CRM lookup field such as `Contact_Name`: an object with an optional `name`. */
  datatype Lookup = Lookup(name: Option<string>)

  /** One entry of `Product_Details`. */
  datatype ProductLine = ProductLine(id: Option<string>, product: Option<Lookup>, quantity: Option<real>)

  /** The fields of a CRM quote record that the handler reads. */
  datatype QuoteRecord = QuoteRecord(
    id: Option<string>,
    quoteNumber: Option<string>,
    subject: Option<string>,
    contactName: Option<Lookup>,
    accountName: Option<Lookup>,
    validTill: Option<CrmDate>,
    grandTotal: Option<real>,
    terms: Option<string>,
    productDetails: Option<seq<ProductLine>>,
    acceptanceToken: Option<string>,
    acceptanceTokenExpires: Option<CrmDate>,
    acceptanceStatus: Option<string>)

  /**
   * The CRM's answer to the GET: unavailable (network failure, a body that
   * is not JSON, or JSON `null`, on which reading `data` throws), or the
   * records of its `data` array (empty when absent) and its text, which the
   * 404 answer sends back; a CRM error such as an invalid access token
   * reaches the client that way.
   */
  datatype ReadReply = ReadUnavailable(message: string) | ReadJson(records: seq<QuoteRecord>, text: string)

  datatype PublicProduct = PublicProduct(id: Option<string>, productName: Option<string>, quantity: Option<real>)

  /** The `formatted` object returned to the client. */
  datatype PublicView = PublicView(
    id: Option<string>,
    quoteNumber: Option<string>,
    subject: Option<string>,
    contactName: Option<string>,
    company: string,
    validTill: Option<string>,
    status: string,
    grandTotal: Option<real>,
    terms: Option<string>,
    products: seq<PublicProduct>)

  datatype ReadResponse =
    | MissingParams             // 400 "Missing qid or token"
    | NotFound(crmRaw: ReadReply) // 404, echoing the CRM's reply
    | InvalidToken              // 403, no quote data
    | Found(view: PublicView)   // 200
    | ServerError               // 500, the caught exception's message

  /** The HTTP status of a response. */
  function Code(r: ReadResponse): int {
    match r
    case MissingParams => 400
    case NotFound(_) => 404
    case InvalidToken => 403
    case Found(_) => 200
    case ServerError => 500
  }

  /** The response and the upstream calls issued, in order. */
  datatype ReadOutcome = ReadOutcome(response: ReadResponse, calls: seq<Call>)

  // ---------------------------------------------------------------------
  // Status

  /** `Acceptance_Status || "Pending"`. */
  function StatusOrPending(raw: Option<string>): (s: string)
    ensures s != ""
    ensures Truthy(raw) ==> s == raw.value
    ensures !Truthy(raw) ==> s == "Pending"
  {
    if Truthy(raw) then raw.value else "Pending"
  }

  /**
   * `x ? new Date(x) : null`, as far as the comparison with `now` can tell:
   * an absent or empty field gives no deadline, and so does an invalid date,
   * which compares false with every instant.
   */
  function Instant(d: Option<CrmDate>): (r: Option<int>)
    ensures r.Some? <==> d.Some? && d.value.text != "" && d.value.instant.Some?
    ensures r.Some? ==> r == d.value.instant
  {
    if d.Some? && d.value.text != "" then d.value.instant else None
  }

  /** A deadline that is set and lies before `now`. */
  predicate Passed(deadline: Option<int>, now: int) {
    deadline.Some? && deadline.value < now
  }

  /**
   * The status shown to the client. A raw `Discarded` always wins; otherwise
   * a passed link-token expiry or a passed `Valid_Till` gives `Expired`,
   * whatever the raw status (Accepted and Denied included); otherwise the
   * raw status, `Pending` when absent.
   */
  function DisplayStatus(raw: Option<string>, tokenExpiry: Option<int>, validTill: Option<int>, now: int): (s: string)
    ensures raw == Some("Discarded") ==> s == "Discarded"
    ensures raw != Some("Discarded") ==>
      (s == "Expired" <==> Passed(tokenExpiry, now) || Passed(validTill, now) || raw == Some("Expired"))
    ensures s != "Expired" && s != "Discarded" ==> s == StatusOrPending(raw)
    ensures !Passed(tokenExpiry, now) && !Passed(validTill, now) ==> s == StatusOrPending(raw)
  {
    if raw == Some("Discarded") then "Discarded"
    else if Passed(tokenExpiry, now) || Passed(validTill, now) then "Expired"
    else StatusOrPending(raw)
  }

  /** The handler's own steps: a default, then the expiry override, then the discard override. */
  method ResolveStatus(raw: Option<string>, tokenExpiry: Option<int>, validTill: Option<int>, now: int)
    returns (status: string)
    ensures status == DisplayStatus(raw, tokenExpiry, validTill, now)
  {
    status := StatusOrPending(raw);
    if Passed(tokenExpiry, now) || Passed(validTill, now) {
      status := "Expired";
    }
    if raw == Some("Discarded") {
      status := "Discarded";
    }
  }

  /**
   * For comparison only, and NOT what the handler does: the precedence in
   * which a decision outranks the deadline, so Accepted, Denied and
   * Discarded are never shown as Expired and only `Valid_Till` counts.
   */
  function DecisionFirstStatus(raw: Option<string>, validTill: Option<int>, now: int): string {
    if raw == Some("Discarded") || raw == Some("Accepted") || raw == Some("Denied") then raw.value
    else if Passed(validTill, now) && (!Truthy(raw) || raw == Some("Pending") || raw == Some("Negotiated")) then "Expired"
    else StatusOrPending(raw)
  }

  /** The handler shows a decided quote as Expired once a deadline has passed; the decision-first order would not. */
  lemma DecidedQuoteShownExpired(raw: Option<string>, tokenExpiry: Option<int>, validTill: Option<int>, now: int)
    requires raw == Some("Accepted") || raw == Some("Denied")
    requires Passed(tokenExpiry, now) || Passed(validTill, now)
    ensures DisplayStatus(raw, tokenExpiry, validTill, now) == "Expired"
    ensures DecisionFirstStatus(raw, validTill, now) == raw.value
  {
  }

  /** Without a link-token expiry the two orders agree on quotes that are still open. */
  lemma OpenQuotesAgree(raw: Option<string>, validTill: Option<int>, now: int)
    requires !Truthy(raw) || raw == Some("Pending") || raw == Some("Negotiated")
    ensures DisplayStatus(raw, None, validTill, now) == DecisionFirstStatus(raw, validTill, now)
  {
  }

  // ---------------------------------------------------------------------
  // Public view

  function ShapeProduct(p: ProductLine): (r: PublicProduct)
    ensures r.id == p.id && r.quantity == p.quantity
    ensures r.productName == (if p.product.Some? then p.product.value.name else None)
  {
    PublicProduct(p.id, if p.product.Some? then p.product.value.name else None, p.quantity)
  }

  /** `Product_Details.map(...)`: one entry per line, in order. */
  function ShapeProducts(lines: seq<ProductLine>): (r: seq<PublicProduct>)
    ensures |r| == |lines|
    ensures forall i :: 0 <= i < |lines| ==> r[i] == ShapeProduct(lines[i])
    decreases |lines|
  {
    if |lines| == 0 then [] else [ShapeProduct(lines[0])] + ShapeProducts(lines[1..])
  }

  /** `Account_Name?.name || ""`. */
  function Company(account: Option<Lookup>): (c: string)
    ensures account.Some? && Truthy(account.value.name) ==> c == account.value.name.value
    ensures !(account.Some? && Truthy(account.value.name)) ==> c == ""
  {
    if account.Some? && Truthy(account.value.name) then account.value.name.value else ""
  }

  /** The `formatted` object for a record whose link token matched, at `now`. */
  function Shape(q: QuoteRecord, now: int): (v: PublicView)
    ensures v.status == DisplayStatus(q.acceptanceStatus, Instant(q.acceptanceTokenExpires), Instant(q.validTill), now)
    ensures |v.products| == (if q.productDetails.Some? then |q.productDetails.value| else 0)
    ensures q.productDetails.Some? ==>
      forall i :: 0 <= i < |v.products| ==> v.products[i] == ShapeProduct(q.productDetails.value[i])
    ensures v.company == Company(q.accountName)
    ensures v.id == q.id && v.quoteNumber == q.quoteNumber && v.subject == q.subject
    ensures v.contactName == (if q.contactName.Some? then q.contactName.value.name else None)
    ensures v.grandTotal == q.grandTotal && v.terms == q.terms
    ensures v.validTill == (if q.validTill.Some? then Some(q.validTill.value.text) else None)
  {
    PublicView(
      q.id,
      q.quoteNumber,
      q.subject,
      if q.contactName.Some? then q.contactName.value.name else None,
      Company(q.accountName),
      if q.validTill.Some? then Some(q.validTill.value.text) else None,
      DisplayStatus(q.acceptanceStatus, Instant(q.acceptanceTokenExpires), Instant(q.validTill), now),
      q.grandTotal,
      q.terms,
      ShapeProducts(q.productDetails.GetOr([])))
  }

  // ---------------------------------------------------------------------
  // Handler

  /** Both query parameters are present and non-empty. */
  predicate HasParams(q: Query) {
    Truthy(q.qid) && Truthy(q.token)
  }

  /** The refresh call returned a JSON body (its `access_token` is not checked). */
  predicate RefreshAnswered(t: TokenReply) {
    t.TokenJson?
  }

  /** The CRM's first record, when the request got that far and there is one. */
  predicate HasRecord(crm: ReadReply) {
    crm.ReadJson? && |crm.records| > 0
  }

  /**
   * The handler: `tokenReply` answers the refresh it issues, `crm` answers
   * the GET, and `now` is the instant of `new Date()` after both.
   */
  function ReadQuote(q: Query, tokenReply: TokenReply, crm: ReadReply, now: int): (o: ReadOutcome)
    ensures o.response.MissingParams? <==> !HasParams(q)
    ensures !HasParams(q) ==> o.calls == []
    ensures HasParams(q) && !RefreshAnswered(tokenReply) ==> o.response == ServerError && o.calls == [RefreshToken]
    ensures HasParams(q) && RefreshAnswered(tokenReply) ==> o.calls == [RefreshToken, GetQuote(q.qid.value)]
    ensures o.response.NotFound? <==> HasParams(q) && RefreshAnswered(tokenReply) && crm.ReadJson? && |crm.records| == 0
    ensures o.response.NotFound? ==> o.response.crmRaw == crm
    ensures HasParams(q) && RefreshAnswered(tokenReply) && crm.ReadUnavailable? ==> o.response == ServerError
    ensures o.response.InvalidToken? <==>
      HasParams(q) && RefreshAnswered(tokenReply) && HasRecord(crm) && crm.records[0].acceptanceToken != q.token
    ensures o.response.Found? <==>
      HasParams(q) && RefreshAnswered(tokenReply) && HasRecord(crm) && crm.records[0].acceptanceToken == q.token
    ensures o.response.Found? ==> o.response.view == Shape(crm.records[0], now)
  {
    if !Truthy(q.qid) || !Truthy(q.token) then
      ReadOutcome(MissingParams, [])
    else if !tokenReply.TokenJson? then
      ReadOutcome(ServerError, [RefreshToken])
    else
      var calls := [RefreshToken, GetQuote(q.qid.value)];
      match crm
      case ReadUnavailable(_) => ReadOutcome(ServerError, calls)
      case ReadJson(records, _) =>
        if |records| == 0 then ReadOutcome(NotFound(crm), calls)
        else if records[0].acceptanceToken != Some(q.token.value) then ReadOutcome(InvalidToken, calls)
        else ReadOutcome(Found(Shape(records[0], now)), calls)
  }

  /** The link token is compared as given: one that differs from the stored one in any way is refused. */
  lemma TokenMustMatchExactly(q: Query, tokenReply: TokenReply, crm: ReadReply, now: int)
    requires HasParams(q) && RefreshAnswered(tokenReply) && HasRecord(crm)
    ensures Code(ReadQuote(q, tokenReply, crm, now).response) == 200 <==> crm.records[0].acceptanceToken == q.token
    ensures Code(ReadQuote(q, tokenReply, crm, now).response) == 403 <==> crm.records[0].acceptanceToken != q.token
  {
  }

  /** A record whose raw status is Discarded is always shown as Discarded when it is shown at all. */
  lemma DiscardedShownDiscarded(q: Query, tokenReply: TokenReply, crm: ReadReply, now: int)
    requires HasRecord(crm) && crm.records[0].acceptanceStatus == Some("Discarded")
    requires ReadQuote(q, tokenReply, crm, now).response.Found?
    ensures ReadQuote(q, tokenReply, crm, now).response.view.status == "Discarded"
  {
  }

  /**
   * A passed link-token expiry does not close the link: with the right token
   * the full view is still returned, only shown as Expired (or Discarded).
   */
  lemma ExpiredLinkStillReads(q: Query, tokenReply: TokenReply, crm: ReadReply, now: int)
    requires HasParams(q) && RefreshAnswered(tokenReply) && HasRecord(crm)
    requires crm.records[0].acceptanceToken == q.token
    requires Passed(Instant(crm.records[0].acceptanceTokenExpires), now)
    ensures ReadQuote(q, tokenReply, crm, now).response == Found(Shape(crm.records[0], now))
    ensures Shape(crm.records[0], now).status == "Expired" || Shape(crm.records[0], now).status == "Discarded"
  {
  }
}
