/**
 * The persistent records of the notification service and their vocabularies:
 * notifications and their status values, the audit-log actions, document
 * types, and the rows of the user directory. Instants are whole seconds on
 * one clock.
 */
module Models {
  import opened Wrappers
  import opened Text
  import Seqs

  /** The five status values a notification is ever given. */
  datatype Status = Pending | Approved | Rejected | AwaitingReason | Error

  /** The text stored in the `Status` column. */
  function StatusName(s: Status): string {
    match s
    case Pending => "PENDING"
    case Approved => "APPROVED"
    case Rejected => "REJECTED"
    case AwaitingReason => "AWAITING_REASON"
    case Error => "ERROR"
  }

  // Declared column widths of the Notifications table.
  const FolioMaxLength: nat := 50
  const DescriptionMaxLength: nat := 200
  const StatusMaxLength: nat := 20
  const RejectionReasonMaxLength: nat := 500

  /** Distinct status values are stored as distinct texts, each within the column width. */
  lemma StatusNames(s: Status, t: Status)
    ensures StatusName(s) == StatusName(t) <==> s == t
    ensures 0 < |StatusName(s)| <= StatusMaxLength
  {
  }

  /**
   * A notification record. `accessToken` is the public-view token that the
   * database schema indexes; no operation of the service ever sets it.
   */
  datatype Notification = Notification(
    id: int,
    idDocumentType: int,
    documentId: int,
    folio: string,
    description: Option<string>,
    idSolicit: int,
    idAuthorize: int,
    telegramMsgId: Option<Int64>,
    telegramChatId: Option<Int64>,
    status: Status,
    rejectionReason: Option<string>,
    createdAt: int,
    sentAt: Option<int>,
    respondedAt: Option<int>,
    callbackSent: bool,
    solicitNotified: bool,
    active: bool,
    accessToken: Option<string>)

  /** Access tokens are unique among the records that have one (the filtered unique index). */
  predicate UniqueTokens(notifications: seq<Notification>) {
    forall i, j :: 0 <= i < j < |notifications| && notifications[i].accessToken.Some?
      ==> notifications[i].accessToken != notifications[j].accessToken
  }

  /** A notification initialised with the given fields and the record's defaults for all others. */
  function NewNotification(id: int, idDocumentType: int, documentId: int, folio: string,
                           description: Option<string>, idSolicit: int, idAuthorize: int,
                           telegramChatId: Option<Int64>, createdAt: int): Notification
  {
    Notification(id, idDocumentType, documentId, folio, description, idSolicit, idAuthorize,
                 None, telegramChatId, Pending, None, createdAt, None, None, false, false, true, None)
  }

  /** The record respects the declared widths of its text columns. */
  predicate FitsColumns(n: Notification) {
    && |n.folio| <= FolioMaxLength
    && (n.description.Some? ==> |n.description.value| <= DescriptionMaxLength)
    && |StatusName(n.status)| <= StatusMaxLength
    && (n.rejectionReason.Some? ==> |n.rejectionReason.value| <= RejectionReasonMaxLength)
  }

  /** A new record fits its columns exactly when its folio and description do. */
  lemma NewNotificationFits(id: int, idDocumentType: int, documentId: int, folio: string,
                            description: Option<string>, idSolicit: int, idAuthorize: int,
                            telegramChatId: Option<Int64>, createdAt: int)
    ensures FitsColumns(NewNotification(id, idDocumentType, documentId, folio, description,
                                        idSolicit, idAuthorize, telegramChatId, createdAt))
        <==> |folio| <= FolioMaxLength && (description.Some? ==> |description.value| <= DescriptionMaxLength)
  {
  }

  /** The audit-log vocabulary. `Delivered` is declared but never written by the service. */
  datatype LogAction =
    | Created | Sent | Delivered | ApprovedAction | RejectedAction
    | CallbackSent | CallbackFailed | SolicitNotified | ErrorAction

  function ActionName(a: LogAction): string {
    match a
    case Created => "CREATED"
    case Sent => "SENT"
    case Delivered => "DELIVERED"
    case ApprovedAction => "APPROVED"
    case RejectedAction => "REJECTED"
    case CallbackSent => "CALLBACK_SENT"
    case CallbackFailed => "CALLBACK_FAILED"
    case SolicitNotified => "SOLICIT_NOTIFIED"
    case ErrorAction => "ERROR"
  }

  /** One row of the append-only audit log. */
  datatype LogEntry = LogEntry(idNotification: int, action: LogAction, detail: Option<string>, createdAt: int)

  /** A configured document type. */
  datatype DocumentType = DocumentType(
    id: int,
    code: string,
    description: string,
    microservice: string,
    baseUrl: string,
    callbackEndpoint: string,
    viewUrl: Option<string>,
    active: bool,
    createdAt: int)

  /** `FindAsync(id)` on the document-type table: active or not. */
  function FindTypeById(types: seq<DocumentType>, id: int): (r: Option<DocumentType>)
    ensures r.Some? ==> r.value in types && r.value.id == id
    ensures r.None? ==> forall k :: 0 <= k < |types| ==> types[k].id != id
  {
    Seqs.First(types, (d: DocumentType) => d.id == id)
  }

  /** `FirstOrDefault(d => d.Code == code && d.Active)`. */
  function FindActiveTypeByCode(types: seq<DocumentType>, code: string): (r: Option<DocumentType>)
    ensures r.Some? ==> r.value in types && r.value.code == code && r.value.active
    ensures r.None? ==> forall k :: 0 <= k < |types| ==> !(types[k].code == code && types[k].active)
  {
    Seqs.First(types, (d: DocumentType) => d.code == code && d.active)
  }

  /** A row of the user directory; `active` is the nullable integer flag of the table. */
  datatype UserRow = UserRow(id: int, displayName: Option<string>, idTelegram: Option<string>, active: Option<int>)

  /**
   * `GetUserByIdAsync`: the first row with that id whose flag is 1; none when
   * no row has both (an inactive or flagless row is not found).
   */
  function GetUserById(users: seq<UserRow>, id: int): (r: Option<UserRow>)
    ensures r.Some? ==> r.value in users && r.value.id == id && r.value.active == Some(1)
    ensures r.None? ==> forall k :: 0 <= k < |users| ==> !(users[k].id == id && users[k].active == Some(1))
  {
    Seqs.First(users, (u: UserRow) => u.id == id && u.active == Some(1))
  }

  /** `user?.DisplayName`. */
  function DisplayName(user: Option<UserRow>): Option<string> {
    if user.Some? then user.value.displayName else None
  }
}

/** Outcomes of outbound HTTP requests, as observed by the caller. */
module Http {

  /** Either a response with a status code and a body, or an exception before any response. */
  datatype Reply<+B> = Responded(status: int, body: B) | Threw

  /** `HttpResponseMessage.IsSuccessStatusCode`. */
  predicate IsSuccessStatusCode(status: int) {
    200 <= status <= 299
  }
}
