/**
 * The public document view: an access token is resolved to an active
 * notification, checked against the 72-hour link lifetime and the presence
 * of its document type, and answered with the notification, the names of
 * the two users, the type, and the aggregated document data.
 */
module PublicView {
  import opened Wrappers
  import opened Text
  import opened Models
  import Seqs
  import opened DocumentProxy

  /** Links are valid for this many hours after the notification was created. */
  const TokenExpiryHours: int := 72
  const TokenLifetimeSeconds: int := TokenExpiryHours * 3600

  const TokenRequired: string := "Token is required"
  const InvalidLink: string := "Enlace inválido o no encontrado"
  const ExpiredLink: string := "Este enlace ha expirado. Los enlaces son válidos por 72 horas."
  const TypeNotFound: string := "Tipo de documento no encontrado"

  /** The notification part of the response. */
  datatype NotificationView = NotificationView(
    id: int,
    folio: string,
    description: Option<string>,
    status: string,
    rejectionReason: Option<string>,
    createdAt: int,
    respondedAt: Option<int>,
    solicitName: Option<string>,
    authorizeName: Option<string>)

  /** The document-type part of the response. */
  datatype TypeView = TypeView(code: string, description: string)

  datatype View = View(notification: NotificationView, documentType: TypeView, documentData: Option<Aggregate>)

  /** The HTTP outcomes of the endpoint. */
  datatype ViewResult = Ok(view: View) | BadRequest(error: string) | NotFound(error: string)

  /** Whether the record answers to the token: active, with exactly that token. */
  predicate MatchesToken(n: Notification, token: string) {
    n.accessToken == Some(token) && n.active
  }

  /** The first record that answers to the token. */
  function FindByToken(notifications: seq<Notification>, token: string): (r: Option<Notification>)
    ensures r.Some? ==> r.value in notifications && MatchesToken(r.value, token)
    ensures r.None? ==> forall k :: 0 <= k < |notifications| ==> !MatchesToken(notifications[k], token)
  {
    Seqs.First(notifications, (n: Notification) => MatchesToken(n, token))
  }

  /** More than the link lifetime has elapsed since creation. */
  predicate Expired(createdAt: int, now: int) {
    now - createdAt > TokenLifetimeSeconds
  }

  /** The notification part of the response, with the display names of active users. */
  function NotificationPart(n: Notification, users: seq<UserRow>): NotificationView {
    NotificationView(n.id, n.folio, n.description, StatusName(n.status), n.rejectionReason, n.createdAt,
                     n.respondedAt, DisplayName(GetUserById(users, n.idSolicit)),
                     DisplayName(GetUserById(users, n.idAuthorize)))
  }

  /**
   * `GetDocumentByToken`: the four checks in order (blank token, unknown or
   * inactive token, expired link, missing document type), then the view.
   */
  function GetDocumentByToken(token: Option<string>, notifications: seq<Notification>, types: seq<DocumentType>,
                              users: seq<UserRow>, now: int, up: Upstream): (r: ViewResult)
    ensures r.Ok? <==>
      && !IsNullOrWhiteSpace(token)
      && FindByToken(notifications, token.value).Some?
      && !Expired(FindByToken(notifications, token.value).value.createdAt, now)
      && FindTypeById(types, FindByToken(notifications, token.value).value.idDocumentType).Some?
    ensures r.Ok? ==>
      var n := FindByToken(notifications, token.value).value;
      var dt := FindTypeById(types, n.idDocumentType).value;
      && r.view.notification.id == n.id
      && r.view.notification.status == StatusName(n.status)
      && r.view.documentType == TypeView(dt.code, dt.description)
      && r.view.documentData == GetDocumentData(dt.microservice, dt.baseUrl, dt.code, n.documentId, up).data
  {
    if IsNullOrWhiteSpace(token) then BadRequest(TokenRequired)
    else match FindByToken(notifications, token.value)
      case None => NotFound(InvalidLink)
      case Some(n) =>
        if Expired(n.createdAt, now) then BadRequest(ExpiredLink)
        else match FindTypeById(types, n.idDocumentType)
          case None => BadRequest(TypeNotFound)
          case Some(dt) =>
            var data := GetDocumentData(dt.microservice, dt.baseUrl, dt.code, n.documentId, up).data;
            Ok(View(NotificationPart(n, users), TypeView(dt.code, dt.description), data))
  }

  /**
   * Each refusal has its own message, and the checks apply in order: a blank
   * token is refused before any lookup, an expired link before the type is
   * looked up.
   */
  lemma RefusalOrder(token: Option<string>, notifications: seq<Notification>, types: seq<DocumentType>,
                     users: seq<UserRow>, now: int, up: Upstream)
    ensures var r := GetDocumentByToken(token, notifications, types, users, now, up);
      && (r == BadRequest(TokenRequired) <==> IsNullOrWhiteSpace(token))
      && (r == NotFound(InvalidLink) <==> !IsNullOrWhiteSpace(token) && FindByToken(notifications, token.value).None?)
      && (r == BadRequest(ExpiredLink) <==>
            !IsNullOrWhiteSpace(token) && FindByToken(notifications, token.value).Some?
            && Expired(FindByToken(notifications, token.value).value.createdAt, now))
      && (r == BadRequest(TypeNotFound) <==>
            !IsNullOrWhiteSpace(token) && FindByToken(notifications, token.value).Some?
            && !Expired(FindByToken(notifications, token.value).value.createdAt, now)
            && FindTypeById(types, FindByToken(notifications, token.value).value.idDocumentType).None?)
  {
    assert TokenRequired != ExpiredLink && TokenRequired != TypeNotFound && ExpiredLink != TypeNotFound by {
      assert |TokenRequired| == 17 && |TypeNotFound| == 31 && |ExpiredLink| > 31;
    }
  }

  /** A link opened exactly 72 hours after creation is still valid; one second later it has expired. */
  lemma ExpiryBoundary(createdAt: int)
    ensures !Expired(createdAt, createdAt + 72 * 3600)
    ensures Expired(createdAt, createdAt + 72 * 3600 + 1)
    ensures forall now :: now <= createdAt ==> !Expired(createdAt, now)
  {
  }

  /** A token carried only by inactive records is unknown. */
  lemma InactiveRecordsInvisible(token: string, notifications: seq<Notification>, types: seq<DocumentType>,
                                 users: seq<UserRow>, now: int, up: Upstream)
    requires !IsNullOrWhiteSpace(Some(token))
    requires forall k :: 0 <= k < |notifications| && notifications[k].accessToken == Some(token) ==> !notifications[k].active
    ensures GetDocumentByToken(Some(token), notifications, types, users, now, up) == NotFound(InvalidLink)
  {
  }

  /** Under unique tokens, a successful view shows the one active record carrying the token. */
  lemma {:induction false} ViewShowsTokenOwner(token: string, notifications: seq<Notification>, types: seq<DocumentType>,
                                             users: seq<UserRow>, now: int, up: Upstream, k: nat)
    requires UniqueTokens(notifications)
    requires k < |notifications| && MatchesToken(notifications[k], token)
    ensures FindByToken(notifications, token) == Some(notifications[k])
    ensures var r := GetDocumentByToken(Some(token), notifications, types, users, now, up);
      r.Ok? ==> r.view.notification == NotificationPart(notifications[k], users)
  {
    var found := Seqs.FirstIndex(notifications, (n: Notification) => MatchesToken(n, token));
    assert found.Some? && found.value <= k;
    assert MatchesToken(notifications[found.value], token);
    assert found.value == k;
  }
}
