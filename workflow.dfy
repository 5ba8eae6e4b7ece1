/**
 * The notification workflow as functions of the store: sending an
 * authorisation request, recording a decision (approval, or rejection with a
 * reason), marking a record as awaiting its rejection reason, and notifying
 * the requester. Each operation maps the store, the call's inputs and the
 * answers of the outside world (`Env`) to the new store, the operation's
 * result and the outbound calls it made, in order.
 *
 * As in the service, no operation looks at the prior status of a record:
 * approving twice records two approvals, and approving a rejected record
 * makes it approved.
 */
module Workflow {
  import opened Wrappers
  import opened Text
  import opened Models
  import opened Http
  import opened Messages
  import Callback
  import Seqs

  /** The two tables the service writes: notifications and the append-only log. */
  datatype Db = Db(notifications: seq<Notification>, logs: seq<LogEntry>)

  /**
   * Everything an operation learns from outside the store: the clock, the
   * user directory, the document-type table, the date formatter, the message
   * id Telegram gives the authorisation request (`None`: it was not
   * delivered), the answer to the decision callback, and the message id of
   * the result message to the requester.
   */
  datatype Env = Env(
    now: int,
    users: seq<UserRow>,
    types: seq<DocumentType>,
    formatDate: int -> string,
    requestReply: Option<Int32>,
    callbackReply: Reply<()>,
    resultReply: Option<Int32>)

  /** Outbound calls: the three Telegram Bot API methods used and the decision callback. */
  datatype Effect =
    | SendMessage(chatId: string, text: string, markup: Markup)
    | EditMessage(chatId: string, messageId: Int32, text: string)
    | AnswerCallback(queryId: string, text: string)
    | PatchCallback(request: Callback.Request)

  /** The store after an operation, its result, and the calls it made. */
  datatype Step<T> = Step(db: Db, result: T, effects: seq<Effect>)

  // ---------------------------------------------------------------------------
  // The store

  predicate HasId(n: Notification, id: int) {
    n.id == id
  }

  /** The position of the record with that id (`FindAsync`, `FirstOrDefault` by id). */
  function IndexOfId(notifications: seq<Notification>, id: int): (r: Option<nat>)
    ensures r.Some? ==> r.value < |notifications| && notifications[r.value].id == id
    ensures r.Some? ==> forall j :: 0 <= j < r.value ==> notifications[j].id != id
    ensures r.None? ==> forall k :: 0 <= k < |notifications| ==> notifications[k].id != id
  {
    Seqs.FirstIndex(notifications, (n: Notification) => HasId(n, id))
  }

  /** The identity column: the record at index k has id k + 1. */
  predicate IdentityIds(notifications: seq<Notification>) {
    forall k :: 0 <= k < |notifications| ==> notifications[k].id == k + 1
  }

  /** Under the identity column, the record with id `id` is at index `id - 1`. */
  lemma IndexOfIdentity(notifications: seq<Notification>, id: int)
    requires IdentityIds(notifications)
    ensures IndexOfId(notifications, id) == if 1 <= id <= |notifications| then Some(id - 1) else None
  {
    var r := IndexOfId(notifications, id);
    if 1 <= id <= |notifications| {
      assert HasId(notifications[id - 1], id);
      assert r.Some? && r.value == id - 1;
    }
  }

  /** Every log entry refers to an existing notification. */
  predicate LogsReferToRecords(db: Db) {
    forall i :: 0 <= i < |db.logs| ==> 1 <= db.logs[i].idNotification <= |db.notifications|
  }

  /** The integrity constraints of the store. */
  predicate WellFormed(db: Db) {
    IdentityIds(db.notifications) && UniqueTokens(db.notifications) && LogsReferToRecords(db)
  }

  function SetRecord(db: Db, k: nat, n: Notification): Db
    requires k < |db.notifications|
  {
    db.(notifications := db.notifications[k := n])
  }

  /** `AddLogAsync`: one entry appended, stamped with the current instant. */
  function AddLog(db: Db, id: int, action: LogAction, detail: string, now: int): Db {
    db.(logs := db.logs + [LogEntry(id, action, Some(detail), now)])
  }

  // ---------------------------------------------------------------------------
  // Sending an authorisation request

  datatype SendRequest = SendRequest(
    documentType: string,
    documentId: int,
    folio: string,
    description: Option<string>,
    idSolicit: int,
    idAuthorize: int)

  datatype SendResponse = SendResponse(
    success: bool,
    notificationId: Option<int>,
    message: Option<string>,
    error: Option<string>)

  function TypeMissing(code: string): string {
    "Document type '" + code + "' not found or inactive"
  }

  function AuthorizerMissing(id: int): string {
    "Authorizer (ID: " + IntToDecimal(id) + ") not found or has no Telegram ID configured"
  }

  const SendFailed: string := "Failed to send Telegram message"
  const SendSucceeded: string := "Notification sent successfully"

  /** The requester's display name, or "Usuario {id}" when there is none. */
  function SolicitName(users: seq<UserRow>, idSolicit: int): string {
    DisplayName(GetUserById(users, idSolicit)).GetOr("Usuario " + IntToDecimal(idSolicit))
  }

  /**
   * The link of the request message: the type's view template with `{folio}`
   * and `{id}` substituted, or, only when the type has no template at all,
   * the base URL's `/view/{id}`.
   */
  function RequestViewUrl(dt: DocumentType, folio: string, documentId: int): string {
    match dt.viewUrl
    case Some(template) => ViewLink(template, folio, documentId)
    case None => dt.baseUrl + "/view/" + IntToDecimal(documentId)
  }

  /** The record `SendNotificationAsync` creates, with the next identity. */
  function NewRecord(db: Db, request: SendRequest, dt: DocumentType, telegramId: string, now: int): Notification {
    NewNotification(|db.notifications| + 1, dt.id, request.documentId, request.folio, request.description,
                    request.idSolicit, request.idAuthorize, TryParseInt64(telegramId), now)
  }

  /** The authorisation request sent to the approver's chat. */
  function RequestMessage(users: seq<UserRow>, request: SendRequest, dt: DocumentType, telegramId: string,
                          id: int, date: string): Effect
  {
    SendMessage(telegramId,
                RequestText(Some(dt), request.folio, SolicitName(users, request.idSolicit), request.description, date),
                RequestKeyboard(id, RequestViewUrl(dt, request.folio, request.documentId)))
  }

  function CreatedDetail(request: SendRequest): string {
    "Notification created for " + request.documentType + " " + request.folio
  }

  function SentDetail(messageId: int): string {
    "Message sent to Telegram. MessageId: " + IntToDecimal(messageId)
  }

  /**
   * The store after an accepted request: the new record and its CREATED
   * entry, then the record marked sent and SENT logged when the request
   * message was delivered, or the record in ERROR and ERROR logged.
   */
  function Stored(db: Db, request: SendRequest, dt: DocumentType, telegramId: string, env: Env): Db {
    var created := NewRecord(db, request, dt, telegramId, env.now);
    var k := |db.notifications|;
    var withCreated := AddLog(db.(notifications := db.notifications + [created]), created.id, Created,
                              CreatedDetail(request), env.now);
    match env.requestReply
    case Some(messageId) =>
      AddLog(SetRecord(withCreated, k, created.(telegramMsgId := Some(messageId), sentAt := Some(env.now))),
             created.id, Sent, SentDetail(messageId), env.now)
    case None =>
      AddLog(SetRecord(withCreated, k, created.(status := Error)), created.id, ErrorAction, SendFailed, env.now)
  }

  /** The response to an accepted request: it names the record whether or not the message was delivered. */
  function SendOutcome(id: int, requestReply: Option<Int32>): SendResponse {
    if requestReply.Some? then SendResponse(true, Some(id), Some(SendSucceeded), None)
    else SendResponse(false, Some(id), None, Some(SendFailed))
  }

  /**
   * `SendNotificationAsync`: refused, with nothing stored, for an unknown or
   * inactive type code and for an approver who is unknown or has no Telegram
   * id; otherwise the record is stored, the request message is sent to the
   * approver's Telegram id, and the record is marked sent or failed.
   */
  function Send(db: Db, request: SendRequest, env: Env): (r: Step<SendResponse>)
    ensures |r.effects| <= 1
    ensures r.result.notificationId.None? ==> r.db == db && r.effects == [] && !r.result.success
    ensures r.result.notificationId.Some? ==>
      r.result.notificationId.value == |db.notifications| + 1 && |r.effects| == 1 && r.effects[0].SendMessage?
    ensures r.result.success ==> r.result.notificationId.Some? && env.requestReply.Some?
  {
    match FindActiveTypeByCode(env.types, request.documentType)
    case None => Step(db, SendResponse(false, None, None, Some(TypeMissing(request.documentType))), [])
    case Some(dt) =>
      var authorizer := GetUserById(env.users, request.idAuthorize);
      if authorizer.None? || IsNullOrEmpty(authorizer.value.idTelegram) then
        Step(db, SendResponse(false, None, None, Some(AuthorizerMissing(request.idAuthorize))), [])
      else
        var telegramId := authorizer.value.idTelegram.value;
        var id := |db.notifications| + 1;
        Step(Stored(db, request, dt, telegramId, env), SendOutcome(id, env.requestReply),
             [RequestMessage(env.users, request, dt, telegramId, id, env.formatDate(env.now))])
  }

  // ---------------------------------------------------------------------------
  // Decisions

  /** An approval, or a rejection with its reason. */
  datatype Decision = Approval | Rejection(reason: string)

  /** The record after the decision: status, response instant and, for a rejection, the reason. */
  function Decided(n: Notification, decision: Decision, now: int): Notification {
    match decision
    case Approval => n.(status := Approved, respondedAt := Some(now))
    case Rejection(reason) => n.(status := Rejected, rejectionReason := Some(reason), respondedAt := Some(now))
  }

  function DecisionAction(decision: Decision): LogAction {
    if decision.Approval? then ApprovedAction else RejectedAction
  }

  function DecisionDetail(decision: Decision): string {
    match decision
    case Approval => "Document approved"
    case Rejection(reason) => "Document rejected. Reason: " + reason
  }

  /** The reason shown on the edited request: none for an approval. */
  function DecisionReason(decision: Decision): Option<string> {
    match decision
    case Approval => None
    case Rejection(reason) => Some(reason)
  }

  /** `(int)` applied to a 64-bit value: the low 32 bits, read as two's complement. */
  function WrapInt32(x: int): (r: Int32)
    ensures (r - x) % 0x1_0000_0000 == 0
    ensures Int32Min <= x <= Int32Max ==> r == x
  {
    (x - Int32Min) % 0x1_0000_0000 + Int32Min
  }

  /** The edit of the original request, made only when both its chat and its message are known. */
  function EditEffects(n: Notification, text: string): seq<Effect> {
    if n.telegramChatId.Some? && n.telegramMsgId.Some? then
      [EditMessage(IntToDecimal(n.telegramChatId.value), WrapInt32(n.telegramMsgId.value), text)]
    else []
  }

  function CallbackEffects(outcome: Callback.Outcome): seq<Effect> {
    if outcome.request.Some? then [PatchCallback(outcome.request.value)] else []
  }

  function CallbackAction(sent: bool): LogAction {
    if sent then CallbackSent else CallbackFailed
  }

  function CallbackDetail(sent: bool): string {
    if sent then "Callback sent to origin microservice" else "Failed to send callback"
  }

  const SolicitNotifiedDetail: string := "Solicit user notified via Telegram"

  /** Whether the requester of `n` can be messaged: known, active, with a Telegram id. */
  predicate SolicitReachable(users: seq<UserRow>, n: Notification) {
    var solicit := GetUserById(users, n.idSolicit);
    solicit.Some? && !IsNullOrEmpty(solicit.value.idTelegram)
  }

  /** The result message sent to the requester. */
  function ResultMessage(users: seq<UserRow>, n: Notification, types: seq<DocumentType>,
                         authorizeName: Option<string>, formatDate: int -> string): Effect
    requires SolicitReachable(users, n)
  {
    var dt := FindTypeById(types, n.idDocumentType);
    var date := if n.respondedAt.Some? then formatDate(n.respondedAt.value) else "";
    SendMessage(GetUserById(users, n.idSolicit).value.idTelegram.value,
                ResultText(n, dt, authorizeName.GetOr("Usuario"), date),
                ResultKeyboard(dt, n.folio, n.documentId))
  }

  /** Whether the requester of `n` is notified: reachable, and the result message delivered. */
  predicate SolicitNotifiedBy(env: Env, n: Notification) {
    SolicitReachable(env.users, n) && env.resultReply.Some?
  }

  /**
   * The store after `NotifySolicitAsync` for the record at `k`: when the
   * requester was notified, the record is marked and SOLICIT_NOTIFIED is
   * logged; otherwise nothing changes.
   */
  function Notified(db: Db, k: nat, env: Env): Db
    requires k < |db.notifications|
  {
    var n := db.notifications[k];
    if SolicitNotifiedBy(env, n) then
      AddLog(SetRecord(db, k, n.(solicitNotified := true)), n.id, SolicitNotified, SolicitNotifiedDetail, env.now)
    else db
  }

  /** The calls of `NotifySolicitAsync`: the result message, to a reachable requester only. */
  function NotifyCalls(n: Notification, authorizeName: Option<string>, env: Env): seq<Effect> {
    if SolicitReachable(env.users, n) then [ResultMessage(env.users, n, env.types, authorizeName, env.formatDate)] else []
  }

  /** The approver's display name, sent with the callback and shown to the requester. */
  function AuthorizeName(users: seq<UserRow>, n: Notification): Option<string> {
    DisplayName(GetUserById(users, n.idAuthorize))
  }

  /** The decision callback for a decided record, to its type's endpoint. */
  function DecisionCallback(decided: Notification, env: Env): Callback.Outcome {
    Callback.SendCallback(decided, FindTypeById(env.types, decided.idDocumentType), AuthorizeName(env.users, decided),
                          env.now, env.callbackReply)
  }

  /** The decided record with the outcome of its callback. */
  function AfterCallback(n: Notification, decision: Decision, env: Env): Notification {
    var decided := Decided(n, decision, env.now);
    decided.(callbackSent := DecisionCallback(decided, env).sent)
  }

  /**
   * The decision stored and reported for the record at `k`: the decided
   * record, the decision entry, the callback outcome and its entry.
   */
  function Reported(db: Db, k: nat, id: int, decision: Decision, env: Env): Db
    requires k < |db.notifications|
  {
    var decided := Decided(db.notifications[k], decision, env.now);
    var recorded := AddLog(SetRecord(db, k, decided), id, DecisionAction(decision), DecisionDetail(decision), env.now);
    var sent := DecisionCallback(decided, env).sent;
    AddLog(SetRecord(recorded, k, decided.(callbackSent := sent)), id, CallbackAction(sent), CallbackDetail(sent), env.now)
  }

  /** The calls of a decision: the edit of the request message, the callback, the result message. */
  function DecisionCalls(n: Notification, decision: Decision, env: Env): seq<Effect> {
    var decided := Decided(n, decision, env.now);
    EditEffects(n, ProcessedText(decided.status, DecisionReason(decision)))
    + CallbackEffects(DecisionCallback(decided, env))
    + NotifyCalls(AfterCallback(n, decision, env), AuthorizeName(env.users, n), env)
  }

  /**
   * `ApproveAsync` and `RejectWithReasonAsync`: false, with nothing done, for
   * an unknown id; otherwise, whatever the record's status, the decision is
   * stored and logged, the request message edited, the callback made and its
   * outcome stored and logged, the requester notified, and the result is true.
   */
  function Decide(db: Db, id: int, decision: Decision, env: Env): (r: Step<bool>)
    ensures r.result <==> exists k :: 0 <= k < |db.notifications| && db.notifications[k].id == id
    ensures !r.result ==> r.db == db && r.effects == []
    ensures |r.db.notifications| == |db.notifications|
  {
    match IndexOfId(db.notifications, id)
    case None => Step(db, false, [])
    case Some(k) =>
      Step(Notified(Reported(db, k, id, decision, env), k, env), true, DecisionCalls(db.notifications[k], decision, env))
  }

  /** `SetAwaitingReasonAsync`: the status of an existing record becomes AWAITING_REASON, and nothing else changes. */
  function SetAwaitingReason(db: Db, id: int): (r: Step<bool>)
    ensures r.result <==> exists k :: 0 <= k < |db.notifications| && db.notifications[k].id == id
    ensures r.effects == [] && r.db.logs == db.logs && |r.db.notifications| == |db.notifications|
    ensures !r.result ==> r.db == db
  {
    match IndexOfId(db.notifications, id)
    case None => Step(db, false, [])
    case Some(k) => Step(SetRecord(db, k, db.notifications[k].(status := AwaitingReason)), true, [])
  }
}
