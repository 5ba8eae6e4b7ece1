/**
 * The decision callback to the originating service: the target URL built from
 * the document type's base URL and endpoint template, the decision payload
 * taken from the notification, and the boolean outcome of the PATCH request.
 * Token generation, JSON serialisation and the HTTP transport are not part of
 * this model; the transport's answer is the `reply` parameter.
 */
module Callback {
  import opened Wrappers
  import opened Text
  import opened Models
  import opened Http

  /** The body of the PATCH request. */
  datatype Payload = Payload(
    documentId: int,
    folio: string,
    status: string,
    idAuthorize: int,
    authorizeName: Option<string>,
    rejectionReason: Option<string>,
    respondedAt: int)

  /** A PATCH request to `url` carrying `payload`. */
  datatype Request = Request(url: string, payload: Payload)

  /** Whether the callback succeeded, and the request that was sent, if any. */
  datatype Outcome = Outcome(sent: bool, request: Option<Request>)

  /** The base URL followed by the endpoint template with every `{id}` replaced by the document id. */
  function CallbackUrl(documentType: DocumentType, documentId: int): string {
    documentType.baseUrl + ReplaceAll(documentType.callbackEndpoint, "{id}", IntToDecimal(documentId))
  }

  /** The decision payload; the response instant falls back to `now` when the notification has none. */
  function BuildPayload(n: Notification, authorizeName: Option<string>, now: int): Payload {
    Payload(n.documentId, n.folio, StatusName(n.status), n.idAuthorize, authorizeName,
            n.rejectionReason, n.respondedAt.GetOr(now))
  }

  /**
   * `SendCallbackAsync`: without a document type nothing is sent and the
   * result is false; otherwise the request is sent and the result is true
   * exactly when the response has a success status. Failures are returned,
   * never thrown. `Threw` stands for an exception from the send itself, so
   * the request is recorded as made; an exception raised earlier, while
   * serialising the payload or generating the token, is not distinguished.
   */
  function SendCallback(n: Notification, documentType: Option<DocumentType>, authorizeName: Option<string>,
                        now: int, reply: Reply<()>): (r: Outcome)
    ensures r.sent <==> documentType.Some? && reply.Responded? && IsSuccessStatusCode(reply.status)
    ensures r.request.Some? <==> documentType.Some?
    ensures r.request.Some? ==> r.request.value.url == CallbackUrl(documentType.value, n.documentId)
    ensures r.request.Some? ==> r.request.value.payload == BuildPayload(n, authorizeName, now)
  {
    if documentType.None? then Outcome(false, None)
    else
      var request := Request(CallbackUrl(documentType.value, n.documentId), BuildPayload(n, authorizeName, now));
      match reply
      case Responded(status, _) => Outcome(IsSuccessStatusCode(status), Some(request))
      case Threw => Outcome(false, Some(request))
  }

  /** The payload echoes the notification's decision fields and the given approver name. */
  lemma PayloadEchoesNotification(n: Notification, authorizeName: Option<string>, now: int)
    ensures var p := BuildPayload(n, authorizeName, now);
      && p.documentId == n.documentId && p.folio == n.folio && p.idAuthorize == n.idAuthorize
      && p.rejectionReason == n.rejectionReason && p.authorizeName == authorizeName
      && (p.status == "APPROVED" <==> n.status == Approved)
      && (p.status == "REJECTED" <==> n.status == Rejected)
      && (n.respondedAt.Some? ==> p.respondedAt == n.respondedAt.value)
      && (n.respondedAt.None? ==> p.respondedAt == now)
  {
    StatusNames(n.status, Approved);
    StatusNames(n.status, Rejected);
  }

  /**
   * For an endpoint template with a single `{id}` and no other brace, the
   * URL is the base URL, the text before the placeholder, the document id in
   * decimal, and the text after it.
   */
  lemma CallbackUrlSubstitutes(documentType: DocumentType, before: string, after: string, documentId: int)
    requires documentType.callbackEndpoint == before + "{id}" + after
    requires '{' !in before && '{' !in after
    ensures CallbackUrl(documentType, documentId)
         == documentType.baseUrl + before + IntToDecimal(documentId) + after
  {
    ReplaceAllSplice(before, "{id}", after, IntToDecimal(documentId));
    FirstCharAbsent(after, "{id}");
    ReplaceAllAbsent(after, "{id}", IntToDecimal(documentId));
  }

  /** An endpoint without a placeholder is appended to the base URL unchanged. */
  lemma CallbackUrlWithoutPlaceholder(documentType: DocumentType, documentId: int)
    requires !Occurs(documentType.callbackEndpoint, "{id}")
    ensures CallbackUrl(documentType, documentId) == documentType.baseUrl + documentType.callbackEndpoint
  {
    ReplaceAllAbsent(documentType.callbackEndpoint, "{id}", IntToDecimal(documentId));
  }
}
