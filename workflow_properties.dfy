/**
 * What the workflow operations guarantee, stated over the functions of
 * `Workflow`: refusals that store nothing, the shape of a created record and
 * its log, the effect of a decision on the record, the log and the outbound
 * calls, the absence of any guard on the prior status, and the integrity of
 * the store.
 */
module WorkflowProperties {
  import opened Wrappers
  import opened Text
  import opened Models
  import opened Http
  import opened Messages
  import opened Workflow

  // ---------------------------------------------------------------------------
  // Sending

  /** An unknown or inactive type code, or an unreachable approver, is refused with nothing stored or sent. */
  lemma SendRefusals(db: Db, request: SendRequest, env: Env)
    ensures FindActiveTypeByCode(env.types, request.documentType).None? ==>
      Send(db, request, env) == Step(db, SendResponse(false, None, None, Some(TypeMissing(request.documentType))), [])
    ensures FindActiveTypeByCode(env.types, request.documentType).Some? && !ApproverReachable(env.users, request.idAuthorize) ==>
      Send(db, request, env) == Step(db, SendResponse(false, None, None, Some(AuthorizerMissing(request.idAuthorize))), [])
  {
  }

  /** The approver of a request can be messaged: active, with a Telegram id. */
  predicate ApproverReachable(users: seq<UserRow>, idAuthorize: int) {
    var approver := GetUserById(users, idAuthorize);
    approver.Some? && !IsNullOrEmpty(approver.value.idTelegram)
  }

  /** An accepted request is the stored record, the outcome naming it, and the request message. */
  lemma SendAcceptedStep(db: Db, request: SendRequest, env: Env)
    requires FindActiveTypeByCode(env.types, request.documentType).Some?
    requires ApproverReachable(env.users, request.idAuthorize)
    ensures var dt := FindActiveTypeByCode(env.types, request.documentType).value;
      var telegramId := GetUserById(env.users, request.idAuthorize).value.idTelegram.value;
      var id := |db.notifications| + 1;
      Send(db, request, env)
        == Step(Stored(db, request, dt, telegramId, env), SendOutcome(id, env.requestReply),
                [RequestMessage(env.users, request, dt, telegramId, id, env.formatDate(env.now))])
  {
  }

  /**
   * An accepted request makes exactly one call, a message to the approver's
   * Telegram id carrying the approve/reject/view keyboard; it appends exactly
   * one record, with the next id and the request's folio and parties, PENDING
   * when that message was delivered and ERROR otherwise; and the response
   * names the record and reports success exactly when the message was delivered.
   */
  lemma SendAccepted(db: Db, request: SendRequest, env: Env)
    requires FindActiveTypeByCode(env.types, request.documentType).Some?
    requires ApproverReachable(env.users, request.idAuthorize)
    ensures var s := Send(db, request, env);
      var approver := GetUserById(env.users, request.idAuthorize).value;
      var id := |db.notifications| + 1;
      && |s.effects| == 1 && s.effects[0].SendMessage?
      && approver.id == request.idAuthorize && approver.active == Some(1)
      && s.effects[0].chatId == approver.idTelegram.value
      && s.effects[0].markup.AuthorizationKeyboard?
      && |s.db.notifications| == id
      && s.db.notifications[..id - 1] == db.notifications
      && s.db.notifications[id - 1].id == id
      && s.db.notifications[id - 1].folio == request.folio
      && s.db.notifications[id - 1].idSolicit == request.idSolicit
      && s.db.notifications[id - 1].idAuthorize == request.idAuthorize
      && s.db.notifications[id - 1].status == (if env.requestReply.Some? then Pending else Error)
      && s.result.notificationId == Some(id)
      && (s.result.success <==> env.requestReply.Some?)
  {
    SendAcceptedStep(db, request, env);
    var dt := FindActiveTypeByCode(env.types, request.documentType).value;
    var telegramId := GetUserById(env.users, request.idAuthorize).value.idTelegram.value;
    StoredRecord(db, request, dt, telegramId, env);
    var r := Stored(db, request, dt, telegramId, env);
    assert r.notifications[..|db.notifications|] == db.notifications by {
      assert r.notifications == db.notifications + [r.notifications[|db.notifications|]];
    }
    SendOutcomeNamesRecord(|db.notifications| + 1, env.requestReply);
  }

  /**
   * An accepted request appends one record with the request's fields and the
   * record defaults, in status PENDING when the request message was delivered
   * and ERROR otherwise, and exactly two log entries for it: CREATED, then
   * SENT or ERROR.
   */
  lemma StoredRecord(db: Db, request: SendRequest, dt: DocumentType, telegramId: string, env: Env)
    ensures var r := Stored(db, request, dt, telegramId, env);
      var k := |db.notifications|;
      var delivered := env.requestReply.Some?;
      && r.notifications == db.notifications + [r.notifications[k]]
      && (var n := r.notifications[k];
         && n.id == k + 1
         && n.idDocumentType == dt.id && n.documentId == request.documentId && n.folio == request.folio
         && n.description == request.description
         && n.idSolicit == request.idSolicit && n.idAuthorize == request.idAuthorize
         && n.telegramChatId == TryParseInt64(telegramId)
         && n.status == (if delivered then Pending else Error)
         && (n.telegramMsgId.Some? <==> delivered)
         && (delivered ==> n.telegramMsgId.value == env.requestReply.value && n.sentAt == Some(env.now))
         && (!delivered ==> n.sentAt.None?)
         && n.createdAt == env.now
         && n.rejectionReason.None? && n.respondedAt.None?
         && !n.callbackSent && !n.solicitNotified && n.active && n.accessToken.None?)
      && |r.logs| == |db.logs| + 2
      && r.logs[..|db.logs|] == db.logs
      && r.logs[|db.logs|].idNotification == k + 1 && r.logs[|db.logs|].action == Created
      && r.logs[|db.logs| + 1].idNotification == k + 1
      && r.logs[|db.logs| + 1].action == (if delivered then Sent else ErrorAction)
  {
    var r := Stored(db, request, dt, telegramId, env);
    assert r.logs[..|db.logs|] == db.logs;
  }

  /** The response names the new record either way, and reports success exactly when the message was delivered. */
  lemma SendOutcomeNamesRecord(id: int, requestReply: Option<Int32>)
    ensures SendOutcome(id, requestReply).notificationId == Some(id)
    ensures SendOutcome(id, requestReply).success <==> requestReply.Some?
    ensures SendOutcome(id, requestReply).error.Some? <==> requestReply.None?
  {
  }

  /**
   * The link of the request: a template that is present but empty gives an
   * empty link, not the fallback, which only a missing template gets.
   */
  lemma RequestViewUrlFallback(dt: DocumentType, folio: string, documentId: int)
    ensures dt.viewUrl == Some("") ==> RequestViewUrl(dt, folio, documentId) == ""
    ensures dt.viewUrl.None? ==> RequestViewUrl(dt, folio, documentId) == dt.baseUrl + "/view/" + IntToDecimal(documentId)
  {
    if dt.viewUrl == Some("") {
      assert ReplaceAll("", "{folio}", folio) == "";
      assert ReplaceAll("", "{id}", IntToDecimal(documentId)) == "";
    }
  }

  /** Each button of the request message decodes to its action and the new record's id. */
  lemma RequestButtonsDecode(db: Db, request: SendRequest, env: Env)
    requires FindActiveTypeByCode(env.types, request.documentType).Some?
    requires ApproverReachable(env.users, request.idAuthorize)
    requires |db.notifications| + 1 <= Int32Max
    ensures var r := Send(db, request, env);
      && |r.effects| == 1 && r.effects[0].SendMessage? && r.effects[0].markup.AuthorizationKeyboard?
      && ParseCallbackData(r.effects[0].markup.approveData) == Some((ApproveAction, |db.notifications| + 1))
      && ParseCallbackData(r.effects[0].markup.rejectData) == Some((RejectAction, |db.notifications| + 1))
  {
    SendAcceptedStep(db, request, env);
    var dt := FindActiveTypeByCode(env.types, request.documentType).value;
    RequestKeyboardDecodes(|db.notifications| + 1, RequestViewUrl(dt, request.folio, request.documentId));
  }

  // ---------------------------------------------------------------------------
  // Decisions

  /** Whether the decision callback for record `n` succeeds. */
  predicate CallbackSucceeds(env: Env, n: Notification) {
    FindTypeById(env.types, n.idDocumentType).Some? && env.callbackReply.Responded?
    && IsSuccessStatusCode(env.callbackReply.status)
  }

  /** The record after a decision, as the service leaves it. */
  function AfterDecision(n: Notification, decision: Decision, env: Env): Notification {
    Decided(n, decision, env.now).(callbackSent := CallbackSucceeds(env, n),
                                   solicitNotified := n.solicitNotified || SolicitNotifiedBy(env, n))
  }

  /** The log entries a decision appends. */
  function DecisionLog(n: Notification, id: int, decision: Decision, env: Env): seq<LogEntry> {
    var sent := CallbackSucceeds(env, n);
    [LogEntry(id, DecisionAction(decision), Some(DecisionDetail(decision)), env.now),
     LogEntry(id, CallbackAction(sent), Some(CallbackDetail(sent)), env.now)]
    + (if SolicitNotifiedBy(env, n) then [LogEntry(n.id, SolicitNotified, Some(SolicitNotifiedDetail), env.now)] else [])
  }

  /** The decision and callback stage: the record is decided with the callback outcome, and two entries are logged. */
  lemma ReportedEffect(db: Db, k: nat, id: int, decision: Decision, env: Env)
    requires k < |db.notifications|
    ensures var r := Reported(db, k, id, decision, env);
      var n := db.notifications[k];
      var sent := CallbackSucceeds(env, n);
      && r.notifications == db.notifications[k := Decided(n, decision, env.now).(callbackSent := sent)]
      && r.logs == db.logs + [LogEntry(id, DecisionAction(decision), Some(DecisionDetail(decision)), env.now),
                              LogEntry(id, CallbackAction(sent), Some(CallbackDetail(sent)), env.now)]
  {
    var n := db.notifications[k];
    var decided := Decided(n, decision, env.now);
    assert DecisionCallback(decided, env).sent == CallbackSucceeds(env, n);
  }

  /** The requester is marked notified, and SOLICIT_NOTIFIED logged, exactly when reachable and the message was delivered. */
  lemma NotifiedEffect(db: Db, k: nat, env: Env)
    requires k < |db.notifications|
    ensures var r := Notified(db, k, env);
      var n := db.notifications[k];
      && r.notifications == db.notifications[k := n.(solicitNotified := n.solicitNotified || SolicitNotifiedBy(env, n))]
      && r.logs == db.logs + (if SolicitNotifiedBy(env, n) then [LogEntry(n.id, SolicitNotified, Some(SolicitNotifiedDetail), env.now)] else [])
  {
    var n := db.notifications[k];
    if !SolicitNotifiedBy(env, n) {
      assert db.notifications[k := n.(solicitNotified := n.solicitNotified)] == db.notifications;
      assert db.logs + [] == db.logs;
    }
  }

  /**
   * A decision on an existing record: the result is true, only that record
   * changes and it becomes `AfterDecision`, and the log grows by exactly
   * `DecisionLog`: the decision, then CALLBACK_SENT or CALLBACK_FAILED, then
   * SOLICIT_NOTIFIED when the requester was notified.
   */
  lemma DecisionEffect(db: Db, id: int, decision: Decision, env: Env, k: nat)
    requires IndexOfId(db.notifications, id) == Some(k)
    ensures var r := Decide(db, id, decision, env);
      var n := db.notifications[k];
      && r.result
      && r.db.notifications == db.notifications[k := AfterDecision(n, decision, env)]
      && r.db.logs == db.logs + DecisionLog(n, id, decision, env)
      && r.effects == DecisionCalls(n, decision, env)
  {
    var n := db.notifications[k];
    ReportedEffect(db, k, id, decision, env);
    NotifiedEffect(Reported(db, k, id, decision, env), k, env);
  }

  /** Calls made of at most one edit, then at most one callback, then at most one message. */
  predicate InOrder(edit: seq<Effect>, callback: seq<Effect>, notify: seq<Effect>) {
    && |edit| <= 1 && (forall i :: 0 <= i < |edit| ==> edit[i].EditMessage?)
    && |callback| <= 1 && (forall i :: 0 <= i < |callback| ==> callback[i].PatchCallback?)
    && |notify| <= 1 && (forall i :: 0 <= i < |notify| ==> notify[i].SendMessage?)
  }

  /** In such a sequence each kind of call occurs exactly when its part is present, and no callback query is answered. */
  lemma {:induction false} KindsInOrder(edit: seq<Effect>, callback: seq<Effect>, notify: seq<Effect>)
    requires InOrder(edit, callback, notify)
    ensures var calls := edit + callback + notify;
      && ((exists i :: 0 <= i < |calls| && calls[i].EditMessage?) <==> edit != [])
      && ((exists i :: 0 <= i < |calls| && calls[i].PatchCallback?) <==> callback != [])
      && ((exists i :: 0 <= i < |calls| && calls[i].SendMessage?) <==> notify != [])
      && (forall i :: 0 <= i < |calls| ==> !calls[i].AnswerCallback?)
  {
    var calls := edit + callback + notify;
    assert forall i :: 0 <= i < |calls| ==>
      calls[i] == if i < |edit| then edit[i] else if i < |edit| + |callback| then callback[i - |edit|] else notify[i - |edit| - |callback|];
    if edit != [] {
      assert calls[0].EditMessage?;
    }
    if callback != [] {
      assert calls[|edit|].PatchCallback?;
    }
    if notify != [] {
      assert calls[|edit| + |callback|].SendMessage?;
    }
  }

  /**
   * The request message is edited only when both its chat and its message
   * id are known, and the callback is made exactly when the record's type is
   * known; the only other call is the result message, to a reachable requester.
   */
  lemma DecisionCallKinds(n: Notification, decision: Decision, env: Env)
    ensures var calls := DecisionCalls(n, decision, env);
      && ((exists i :: 0 <= i < |calls| && calls[i].EditMessage?) <==> n.telegramChatId.Some? && n.telegramMsgId.Some?)
      && ((exists i :: 0 <= i < |calls| && calls[i].PatchCallback?) <==> FindTypeById(env.types, n.idDocumentType).Some?)
      && ((exists i :: 0 <= i < |calls| && calls[i].SendMessage?) <==> SolicitReachable(env.users, n))
      && (forall i :: 0 <= i < |calls| ==> !calls[i].AnswerCallback?)
  {
    var decided := Decided(n, decision, env.now);
    var edit := EditEffects(n, ProcessedText(decided.status, DecisionReason(decision)));
    var callback := CallbackEffects(DecisionCallback(decided, env));
    var after := AfterCallback(n, decision, env);
    var notify := NotifyCalls(after, AuthorizeName(env.users, n), env);
    assert SolicitReachable(env.users, after) == SolicitReachable(env.users, n);
    assert edit != [] <==> n.telegramChatId.Some? && n.telegramMsgId.Some?;
    assert notify != [] <==> SolicitReachable(env.users, n);
    assert DecisionCalls(n, decision, env) == edit + callback + notify;
    KindsInOrder(edit, callback, notify);
  }

  /** An unknown id is answered with false; nothing is stored, logged or sent. */
  lemma DecisionOnUnknownId(db: Db, id: int, decision: Decision, env: Env)
    requires forall k :: 0 <= k < |db.notifications| ==> db.notifications[k].id != id
    ensures Decide(db, id, decision, env) == Step(db, false, [])
  {
  }

  /**
   * A decision sets the status, the response instant and, for a rejection,
   * the reason; records whether the callback succeeded; and changes no other
   * field. On an approval an earlier rejection reason, if any, stays.
   */
  lemma DecisionFields(n: Notification, decision: Decision, env: Env)
    ensures var m := AfterDecision(n, decision, env);
      && m.status == (if decision.Approval? then Approved else Rejected)
      && m.respondedAt == Some(env.now)
      && m.rejectionReason == (if decision.Approval? then n.rejectionReason else Some(decision.reason))
      && m.callbackSent == CallbackSucceeds(env, n)
      && (n.solicitNotified ==> m.solicitNotified)
      && m.(status := n.status, respondedAt := n.respondedAt, rejectionReason := n.rejectionReason,
            callbackSent := n.callbackSent, solicitNotified := n.solicitNotified) == n
  {
  }

  /** Two sequences on which a predicate agrees element by element have the same first match. */
  lemma {:induction false} SameFirstIndex<T>(a: seq<T>, b: seq<T>, p: T -> bool)
    requires |a| == |b| && forall j :: 0 <= j < |a| ==> (p(a[j]) <==> p(b[j]))
    ensures Seqs.FirstIndex(a, p) == Seqs.FirstIndex(b, p)
  {
    if a != [] && !p(a[0]) {
      SameFirstIndex(a[1..], b[1..], p);
    }
  }

  /** Changing a record without changing its id keeps every lookup by id. */
  lemma IndexOfIdKept(notifications: seq<Notification>, k: nat, m: Notification, id: int)
    requires k < |notifications| && m.id == notifications[k].id
    ensures IndexOfId(notifications[k := m], id) == IndexOfId(notifications, id)
  {
    var p := (n: Notification) => HasId(n, id);
    assert forall j :: 0 <= j < |notifications| ==> (p(notifications[k := m][j]) <==> p(notifications[j]));
    SameFirstIndex(notifications[k := m], notifications, p);
  }

  /** The decision stage does not read the prior status of the record. */
  lemma ReportedIgnoresStatus(db: Db, k: nat, id: int, decision: Decision, env: Env, s: Status)
    requires k < |db.notifications|
    ensures var other := db.(notifications := db.notifications[k := db.notifications[k].(status := s)]);
      Reported(other, k, id, decision, env) == Reported(db, k, id, decision, env)
  {
    var n := db.notifications[k];
    var other := db.(notifications := db.notifications[k := n.(status := s)]);
    var decided := Decided(n, decision, env.now);
    assert Decided(n.(status := s), decision, env.now) == decided;
    assert other.notifications[k := decided] == db.notifications[k := decided];
  }

  /** Nor do the calls of a decision. */
  lemma CallsIgnoreStatus(n: Notification, decision: Decision, env: Env, s: Status)
    ensures DecisionCalls(n.(status := s), decision, env) == DecisionCalls(n, decision, env)
  {
    var decided := Decided(n, decision, env.now);
    assert Decided(n.(status := s), decision, env.now) == decided;
    assert AfterCallback(n.(status := s), decision, env) == AfterCallback(n, decision, env);
    assert AuthorizeName(env.users, n.(status := s)) == AuthorizeName(env.users, n);
    var text := ProcessedText(decided.status, DecisionReason(decision));
    assert EditEffects(n.(status := s), text) == EditEffects(n, text);
  }

  /**
   * There is no guard on the prior status: a decision on two stores that
   * differ only in the status of the decided record has the same outcome,
   * store, result and calls alike.
   */
  lemma DecisionIgnoresPriorStatus(db: Db, id: int, decision: Decision, env: Env, k: nat, s: Status)
    requires IndexOfId(db.notifications, id) == Some(k)
    ensures var other := db.(notifications := db.notifications[k := db.notifications[k].(status := s)]);
      Decide(other, id, decision, env) == Decide(db, id, decision, env)
  {
    var n := db.notifications[k];
    IndexOfIdKept(db.notifications, k, n.(status := s), id);
    ReportedIgnoresStatus(db, k, id, decision, env, s);
    CallsIgnoreStatus(n, decision, env, s);
  }

  /**
   * Approving twice runs the whole decision twice: each approval answers
   * true and appends its own APPROVED entry, and the second one repeats the
   * callback whenever the type is known.
   */
  lemma SecondApprovalLogsAgain(db: Db, id: int, first: Env, second: Env, k: nat)
    requires IndexOfId(db.notifications, id) == Some(k)
    ensures var once := Decide(db, id, Approval, first);
      var twice := Decide(once.db, id, Approval, second);
      && once.result && twice.result
      && db.logs < once.db.logs < twice.db.logs
      && once.db.logs[|db.logs|] == LogEntry(id, ApprovedAction, Some("Document approved"), first.now)
      && twice.db.logs[|once.db.logs|] == LogEntry(id, ApprovedAction, Some("Document approved"), second.now)
      && twice.db.notifications[k].status == Approved
      && (FindTypeById(second.types, db.notifications[k].idDocumentType).Some? ==>
            exists i :: 0 <= i < |twice.effects| && twice.effects[i].PatchCallback?)
  {
    DecisionEffect(db, id, Approval, first, k);
    var once := Decide(db, id, Approval, first);
    IndexOfIdKept(db.notifications, k, AfterDecision(db.notifications[k], Approval, first), id);
    DecisionEffect(once.db, id, Approval, second, k);
    DecisionCallKinds(once.db.notifications[k], Approval, second);
  }

  /** Approving a rejected record makes it approved and keeps its rejection reason. */
  lemma ApprovalOverridesRejection(db: Db, id: int, env: Env, k: nat)
    requires IndexOfId(db.notifications, id) == Some(k) && db.notifications[k].status == Rejected
    ensures var r := Decide(db, id, Approval, env);
      r.result && r.db.notifications[k].status == Approved
      && r.db.notifications[k].rejectionReason == db.notifications[k].rejectionReason
  {
    DecisionEffect(db, id, Approval, env, k);
  }

  /** Marking as awaiting a reason changes only the status of an existing record, logs nothing and sends nothing. */
  lemma AwaitingReasonEffect(db: Db, id: int)
    ensures var r := SetAwaitingReason(db, id);
      && r.effects == []
      && r.db.logs == db.logs
      && (r.result <==> exists k :: 0 <= k < |db.notifications| && db.notifications[k].id == id)
      && (!r.result ==> r.db == db)
      && (r.result ==> var k := IndexOfId(db.notifications, id).value;
            r.db.notifications == db.notifications[k := db.notifications[k].(status := AwaitingReason)])
  {
  }

  // ---------------------------------------------------------------------------
  // Integrity of the store

  /**
   * The changes an operation may make: append records without a token,
   * change existing ones without touching their id or token, and append log
   * entries other than DELIVERED.
   */
  predicate Evolves(before: Db, after: Db) {
    && |before.notifications| <= |after.notifications|
    && (forall k :: 0 <= k < |before.notifications| ==>
          after.notifications[k].id == before.notifications[k].id
          && after.notifications[k].accessToken == before.notifications[k].accessToken)
    && (forall k :: |before.notifications| <= k < |after.notifications| ==> after.notifications[k].accessToken.None?)
    && before.logs <= after.logs
    && (forall i :: |before.logs| <= i < |after.logs| ==> after.logs[i].action != Delivered)
  }

  /** Storing an accepted request only evolves the store, and keeps it well formed. */
  lemma StoredEvolves(db: Db, request: SendRequest, dt: DocumentType, telegramId: string, env: Env)
    requires WellFormed(db)
    ensures var r := Stored(db, request, dt, telegramId, env);
      Evolves(db, r) && WellFormed(r)
  {
    StoredRecord(db, request, dt, telegramId, env);
    var r := Stored(db, request, dt, telegramId, env);
    assert forall i :: 0 <= i < |db.logs| ==> r.logs[i] == db.logs[i];
  }

  /** Sending only evolves the store, and keeps it well formed. */
  lemma SendEvolves(db: Db, request: SendRequest, env: Env)
    requires WellFormed(db)
    ensures Evolves(db, Send(db, request, env).db) && WellFormed(Send(db, request, env).db)
  {
    if FindActiveTypeByCode(env.types, request.documentType).Some? && ApproverReachable(env.users, request.idAuthorize) {
      SendAcceptedStep(db, request, env);
      StoredEvolves(db, request, FindActiveTypeByCode(env.types, request.documentType).value,
                    GetUserById(env.users, request.idAuthorize).value.idTelegram.value, env);
    } else {
      SendRefusals(db, request, env);
    }
  }

  /**
   * Replacing a record by one with the same id and token, and appending log
   * entries about existing records other than DELIVERED, only evolves the
   * store and keeps it well formed.
   */
  lemma UpdateEvolves(db: Db, k: nat, m: Notification, added: seq<LogEntry>)
    requires WellFormed(db) && k < |db.notifications|
    requires m.id == db.notifications[k].id && m.accessToken == db.notifications[k].accessToken
    requires forall i :: 0 <= i < |added| ==> 1 <= added[i].idNotification <= |db.notifications| && added[i].action != Delivered
    ensures var after := Db(db.notifications[k := m], db.logs + added);
      Evolves(db, after) && WellFormed(after)
  {
    var after := Db(db.notifications[k := m], db.logs + added);
    assert forall i :: |db.logs| <= i < |after.logs| ==> after.logs[i] == added[i - |db.logs|];
  }

  /** A decision only evolves the store, and keeps it well formed. */
  lemma DecideEvolves(db: Db, id: int, decision: Decision, env: Env)
    requires WellFormed(db)
    ensures Evolves(db, Decide(db, id, decision, env).db) && WellFormed(Decide(db, id, decision, env).db)
  {
    match IndexOfId(db.notifications, id)
    case None =>
    case Some(k) =>
      DecisionEffect(db, id, decision, env, k);
      IndexOfIdentity(db.notifications, id);
      var n := db.notifications[k];
      DecisionLogAbout(n, id, decision, env);
      UpdateEvolves(db, k, AfterDecision(n, decision, env), DecisionLog(n, id, decision, env));
  }

  /** Every entry a decision logs is about the decided record, and none is DELIVERED. */
  lemma DecisionLogAbout(n: Notification, id: int, decision: Decision, env: Env)
    requires n.id == id
    ensures var added := DecisionLog(n, id, decision, env);
      forall i :: 0 <= i < |added| ==> added[i].idNotification == id && added[i].action != Delivered
  {
  }

  /** Marking as awaiting a reason only evolves the store, and keeps it well formed. */
  lemma SetAwaitingReasonEvolves(db: Db, id: int)
    requires WellFormed(db)
    ensures Evolves(db, SetAwaitingReason(db, id).db) && WellFormed(SetAwaitingReason(db, id).db)
  {
  }

  /** Evolving twice is evolving. */
  lemma EvolvesTransitive(a: Db, b: Db, c: Db)
    requires Evolves(a, b) && Evolves(b, c)
    ensures Evolves(a, c)
  {
  }

  /**
   * The life of a request: sending it and then deciding on any record, the
   * new one or another, only evolves the store and leaves it well formed.
   */
  lemma SendThenDecideEvolves(db: Db, request: SendRequest, sendEnv: Env, id: int, decision: Decision, decideEnv: Env)
    requires WellFormed(db)
    ensures var sent := Send(db, request, sendEnv).db;
      var decided := Decide(sent, id, decision, decideEnv).db;
      Evolves(db, decided) && WellFormed(decided)
  {
    var sent := Send(db, request, sendEnv).db;
    SendEvolves(db, request, sendEnv);
    DecideEvolves(sent, id, decision, decideEnv);
    EvolvesTransitive(db, sent, Decide(sent, id, decision, decideEnv).db);
  }
}
