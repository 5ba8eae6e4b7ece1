/**
 * The notification service as an object over its two tables. Each method
 * changes the tables step by step as the service does (the record added,
 * logged, updated, logged again) and is proved to leave them exactly as the
 * corresponding function of `Workflow` or `Queries` says, with the same
 * result and the same outbound calls; the store's integrity is kept by every
 * method.
 */
module Service {
  import opened Wrappers
  import opened Text
  import opened Models
  import opened Messages
  import Callback
  import opened Workflow
  import Queries
  import Seqs
  import WorkflowProperties

  class NotificationService {
    /** The notifications table, in identity order. */
    var notifications: seq<Notification>
    /** The append-only log table. */
    var logs: seq<LogEntry>

    /** Both tables as a value. */
    function State(): Db
      reads this
    {
      Db(notifications, logs)
    }

    ghost predicate Valid()
      reads this
    {
      WellFormed(State())
    }

    /** An empty store. */
    constructor()
      ensures State() == Db([], []) && Valid()
    {
      notifications := [];
      logs := [];
    }

    /** The first record with that id, by a linear search. */
    method FindIndex(id: int) returns (r: Option<nat>)
      ensures r == IndexOfId(notifications, id)
    {
      var i := 0;
      while i < |notifications|
        invariant 0 <= i <= |notifications|
        invariant forall j :: 0 <= j < i ==> notifications[j].id != id
      {
        if notifications[i].id == id {
          return Some(i);
        }
        i := i + 1;
      }
      return None;
    }

    /** `AddLogAsync`: one entry appended, stamped with `now`; the notifications are untouched. */
    method AddLog(id: int, action: LogAction, detail: string, now: int)
      modifies this
      ensures State() == Workflow.AddLog(old(State()), id, action, detail, now)
    {
      logs := logs + [LogEntry(id, action, Some(detail), now)];
    }

    /**
     * `SendNotificationAsync`: the refusals, or the record added and logged,
     * the request message sent, and the record marked sent or failed and
     * logged again.
     */
    method Send(request: SendRequest, env: Env) returns (response: SendResponse, effects: seq<Effect>)
      requires Valid()
      modifies this
      ensures Step(State(), response, effects) == Workflow.Send(old(State()), request, env)
      ensures Valid() && WorkflowProperties.Evolves(old(State()), State())
    {
      WorkflowProperties.SendEvolves(State(), request, env);
      var documentType := FindActiveTypeByCode(env.types, request.documentType);
      if documentType.None? {
        return SendResponse(false, None, None, Some(TypeMissing(request.documentType))), [];
      }
      var dt := documentType.value;
      var authorizer := GetUserById(env.users, request.idAuthorize);
      if authorizer.None? || IsNullOrEmpty(authorizer.value.idTelegram) {
        return SendResponse(false, None, None, Some(AuthorizerMissing(request.idAuthorize))), [];
      }
      var telegramId := authorizer.value.idTelegram.value;
      ghost var before := State();
      var created := NewRecord(State(), request, dt, telegramId, env.now);
      var k := |notifications|;
      notifications := notifications + [created];
      AddLog(created.id, Created, CreatedDetail(request), env.now);
      effects := [RequestMessage(env.users, request, dt, telegramId, created.id, env.formatDate(env.now))];
      match env.requestReply {
        case Some(messageId) =>
          notifications := notifications[k := created.(telegramMsgId := Some(messageId), sentAt := Some(env.now))];
          AddLog(created.id, Sent, SentDetail(messageId), env.now);
        case None =>
          notifications := notifications[k := created.(status := Error)];
          AddLog(created.id, ErrorAction, SendFailed, env.now);
      }
      response := SendOutcome(created.id, env.requestReply);
      assert State() == Stored(before, request, dt, telegramId, env);
    }

    /**
     * `NotifySolicitAsync` for the record at `k`: to a reachable requester the
     * result message is sent, and when it was delivered the record is marked
     * and the notification logged.
     */
    method NotifySolicit(k: nat, authorizeName: Option<string>, env: Env) returns (effects: seq<Effect>)
      requires k < |notifications|
      modifies this
      ensures State() == Notified(old(State()), k, env)
      ensures effects == NotifyCalls(old(notifications[k]), authorizeName, env)
    {
      var n := notifications[k];
      if !SolicitReachable(env.users, n) {
        return [];
      }
      effects := [ResultMessage(env.users, n, env.types, authorizeName, env.formatDate)];
      if env.resultReply.Some? {
        notifications := notifications[k := n.(solicitNotified := true)];
        AddLog(n.id, SolicitNotified, SolicitNotifiedDetail, env.now);
      }
    }

    /**
     * The common body of `ApproveAsync` and `RejectWithReasonAsync`: the
     * decision stored and logged, the request message edited, the callback
     * made and its outcome stored and logged, the requester notified.
     */
    method Decide(id: int, decision: Decision, env: Env) returns (ok: bool, effects: seq<Effect>)
      requires Valid()
      modifies this
      ensures Step(State(), ok, effects) == Workflow.Decide(old(State()), id, decision, env)
      ensures Valid() && WorkflowProperties.Evolves(old(State()), State())
    {
      WorkflowProperties.DecideEvolves(State(), id, decision, env);
      var found := FindIndex(id);
      if found.None? {
        return false, [];
      }
      var k := found.value;
      ghost var before := State();
      var n := notifications[k];
      var decided := Decided(n, decision, env.now);
      notifications := notifications[k := decided];
      AddLog(id, DecisionAction(decision), DecisionDetail(decision), env.now);
      effects := EditEffects(n, ProcessedText(decided.status, DecisionReason(decision)));
      var authorizeName := AuthorizeName(env.users, n);
      var outcome := Callback.SendCallback(decided, FindTypeById(env.types, decided.idDocumentType), authorizeName,
                                           env.now, env.callbackReply);
      assert outcome == DecisionCallback(decided, env);
      effects := effects + CallbackEffects(outcome);
      notifications := notifications[k := decided.(callbackSent := outcome.sent)];
      AddLog(id, CallbackAction(outcome.sent), CallbackDetail(outcome.sent), env.now);
      assert State() == Reported(before, k, id, decision, env);
      var notify := NotifySolicit(k, authorizeName, env);
      effects := effects + notify;
      ok := true;
    }

    /** `ApproveAsync`. */
    method Approve(id: int, env: Env) returns (ok: bool, effects: seq<Effect>)
      requires Valid()
      modifies this
      ensures Step(State(), ok, effects) == Workflow.Decide(old(State()), id, Approval, env)
      ensures Valid()
    {
      ok, effects := Decide(id, Approval, env);
    }

    /** `RejectWithReasonAsync`. */
    method RejectWithReason(id: int, reason: string, env: Env) returns (ok: bool, effects: seq<Effect>)
      requires Valid()
      modifies this
      ensures Step(State(), ok, effects) == Workflow.Decide(old(State()), id, Rejection(reason), env)
      ensures Valid()
    {
      ok, effects := Decide(id, Rejection(reason), env);
    }

    /** `SetAwaitingReasonAsync`. */
    method SetAwaitingReason(id: int) returns (ok: bool)
      requires Valid()
      modifies this
      ensures Step(State(), ok, []) == Workflow.SetAwaitingReason(old(State()), id)
      ensures Valid()
    {
      WorkflowProperties.SetAwaitingReasonEvolves(State(), id);
      var found := FindIndex(id);
      if found.None? {
        return false;
      }
      var k := found.value;
      notifications := notifications[k := notifications[k].(status := AwaitingReason)];
      ok := true;
    }

    /** `GetAwaitingReasonByChatIdAsync`, by a linear search for the first record awaiting a reason in the chat. */
    method GetAwaitingReasonByChatId(chatId: string) returns (r: Option<Notification>)
      ensures r == Queries.GetAwaitingReasonByChatId(State(), chatId)
    {
      var parsed := TryParseInt64(chatId);
      if parsed.None? {
        return None;
      }
      var chat := parsed.value;
      ghost var p := (n: Notification) => Queries.AwaitsReasonIn(n, chat);
      var i := 0;
      while i < |notifications|
        invariant 0 <= i <= |notifications|
        invariant forall j :: 0 <= j < i ==> !Queries.AwaitsReasonIn(notifications[j], chat)
      {
        if Queries.AwaitsReasonIn(notifications[i], chat) {
          FirstIsFirstMatch(notifications, p, i);
          return Some(notifications[i]);
        }
        i := i + 1;
      }
      return None;
    }

    /** `GetStatusAsync`. */
    method GetStatus(id: int, users: seq<UserRow>, types: seq<DocumentType>) returns (r: Option<Queries.StatusResponse>)
      ensures r == Queries.GetStatus(State(), id, users, types)
    {
      var found := FindIndex(id);
      if found.None? {
        return None;
      }
      return Some(Queries.StatusOf(notifications[found.value], users, types));
    }

    /** `GetPendingByAuthorizerAsync`: one row per pending record, newest first. */
    method GetPendingByAuthorizer(userId: int, users: seq<UserRow>, types: seq<DocumentType>)
      returns (result: seq<Queries.PendingResponse>)
      ensures result == Queries.GetPendingByAuthorizer(State(), userId, users, types)
    {
      var records := Queries.PendingRecords(State(), userId);
      result := BuildPendingRows(records, users, types);
    }

    /** `GetHistoryAsync`: one row per history record, in the same order. */
    method GetHistory(idSolicit: Option<int>, idAuthorize: Option<int>, status: Option<string>,
                      users: seq<UserRow>, types: seq<DocumentType>)
      returns (result: seq<Queries.StatusResponse>)
      ensures result == Queries.GetHistory(State(), idSolicit, idAuthorize, status, users, types)
    {
      var records := Queries.HistoryRecords(State(), idSolicit, idAuthorize, status);
      result := BuildStatusRows(records, users, types);
    }
  }

  /** The pending rows of `records`, built one record at a time. */
  method BuildPendingRows(records: seq<Notification>, users: seq<UserRow>, types: seq<DocumentType>)
    returns (result: seq<Queries.PendingResponse>)
    ensures result == Queries.PendingRows(records, users, types)
  {
    result := [];
    for i := 0 to |records|
      invariant |result| == i
      invariant forall j :: 0 <= j < i ==> result[j] == Queries.PendingOf(records[j], users, types)
    {
      result := result + [Queries.PendingOf(records[i], users, types)];
    }
  }

  /** The status rows of `records`, built one record at a time. */
  method BuildStatusRows(records: seq<Notification>, users: seq<UserRow>, types: seq<DocumentType>)
    returns (result: seq<Queries.StatusResponse>)
    ensures result == Queries.StatusRows(records, users, types)
  {
    result := [];
    for i := 0 to |records|
      invariant |result| == i
      invariant forall j :: 0 <= j < i ==> result[j] == Queries.StatusOf(records[j], users, types)
    {
      result := result + [Queries.StatusOf(records[i], users, types)];
    }
  }

  /** The first element satisfying `p` is the one at the first index where `p` holds. */
  lemma FirstIsFirstMatch<T>(s: seq<T>, p: T -> bool, i: nat)
    requires i < |s| && p(s[i]) && forall j :: 0 <= j < i ==> !p(s[j])
    ensures Seqs.First(s, p) == Some(s[i])
  {
    var f := Seqs.FirstIndex(s, p);
    assert f.Some? && f.value == i;
  }
}
