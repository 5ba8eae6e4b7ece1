/**
 * The handling of a Telegram update: a button press on an authorisation
 * request approves the document, or marks it as awaiting a reason and asks
 * for one; a text message in a chat with a record awaiting its reason
 * rejects that record with the text as reason. Each handler maps the store
 * and the update to the new store and the calls made, in order.
 */
module Webhook {
  import opened Wrappers
  import opened Text
  import opened Models
  import opened Messages
  import opened Workflow
  import Queries
  import WorkflowProperties

  /** A button press: its id, its data, and the chat of the message it belongs to (none without a message). */
  datatype CallbackQuery = CallbackQuery(id: string, data: Option<string>, chatId: Option<Int64>)

  /** A chat message: its chat and its text, if any. */
  datatype ChatMessage = ChatMessage(chatId: Int64, text: Option<string>)

  /** An update, carrying a button press, a message, both or neither. */
  datatype Update = Update(callbackQuery: Option<CallbackQuery>, message: Option<ChatMessage>)

  /** Nothing stored, nothing sent. */
  function Ignored(db: Db): Step<()> {
    Step(db, (), [])
  }

  /** The reply asking the approver for the rejection reason. */
  function AskReason(chatId: string): Effect {
    SendMessage(chatId, AskReasonText, ForceReply)
  }

  /**
   * `ProcessCallbackQueryAsync`: ignored without data, without a chat, with
   * data that does not decode, or with an action other than approve or
   * reject. Approve: the decision is made, then the press is answered.
   * Reject: the record is marked as awaiting a reason, the reason is asked
   * for in the chat, then the press is answered. Both answer whether or not
   * the id names a record.
   */
  function ProcessCallbackQuery(db: Db, q: CallbackQuery, env: Env): (r: Step<()>)
    ensures r.effects == [] ==> r.db == db
    ensures r.effects != [] ==>
      && q.chatId.Some? && q.data.Some? && ParseCallbackData(q.data.value).Some?
      && r.effects[|r.effects| - 1] == AnswerCallback(q.id,
           if ParseCallbackData(q.data.value).value.0 == ApproveAction then ApprovedAnswer else RejectAnswer)
  {
    if IsNullOrEmpty(q.data) || q.chatId.None? then Ignored(db)
    else match ParseCallbackData(q.data.value)
      case None => Ignored(db)
      case Some((action, id)) =>
        if action == ApproveAction then
          var decided := Decide(db, id, Approval, env);
          Step(decided.db, (), decided.effects + [AnswerCallback(q.id, ApprovedAnswer)])
        else if action == RejectAction then
          Step(SetAwaitingReason(db, id).db, (),
               [AskReason(IntToDecimal(q.chatId.value)), AnswerCallback(q.id, RejectAnswer)])
        else Ignored(db)
  }

  /**
   * `ProcessTextMessageAsync`: ignored for an empty text and in a chat with
   * no record awaiting a reason; otherwise that record is rejected with the
   * text as reason and the rejection is confirmed in the chat.
   */
  function ProcessTextMessage(db: Db, m: ChatMessage, env: Env): (r: Step<()>)
    ensures r.effects == [] ==> r.db == db
    ensures r.effects != [] ==>
      && !IsNullOrEmpty(m.text)
      && Queries.GetAwaitingReasonByChatId(db, IntToDecimal(m.chatId)).Some?
      && r.effects[|r.effects| - 1] == SendMessage(IntToDecimal(m.chatId), RejectionConfirmation, NoMarkup)
  {
    var chatId := IntToDecimal(m.chatId);
    if IsNullOrEmpty(m.text) then Ignored(db)
    else match Queries.GetAwaitingReasonByChatId(db, chatId)
      case None => Ignored(db)
      case Some(awaiting) =>
        var rejected := Decide(db, awaiting.id, Rejection(m.text.value), env);
        Step(rejected.db, (), rejected.effects + [SendMessage(chatId, RejectionConfirmation, NoMarkup)])
  }

  /** `ProcessUpdateAsync`: a button press is handled first and alone; else a message with a text. */
  function ProcessUpdate(db: Db, u: Update, env: Env): (r: Step<()>)
    ensures r.effects == [] ==> r.db == db
    ensures r.effects != [] && u.callbackQuery.Some? ==> r.effects[|r.effects| - 1].AnswerCallback?
    ensures r.effects != [] && u.callbackQuery.None? ==>
      u.message.Some? && r.effects[|r.effects| - 1] == SendMessage(IntToDecimal(u.message.value.chatId), RejectionConfirmation, NoMarkup)
  {
    if u.callbackQuery.Some? then ProcessCallbackQuery(db, u.callbackQuery.value, env)
    else if u.message.Some? && u.message.value.text.Some? then ProcessTextMessage(db, u.message.value, env)
    else Ignored(db)
  }

  // ---------------------------------------------------------------------------
  // Properties

  /** A message that comes with a button press is not read. */
  lemma ButtonPressTakesPrecedence(db: Db, u: Update, env: Env)
    requires u.callbackQuery.Some?
    ensures ProcessUpdate(db, u, env) == ProcessUpdate(db, u.(message := None), env)
  {
  }

  /** An update with neither a button press nor a non-empty text changes nothing and sends nothing. */
  lemma EmptyUpdatesIgnored(db: Db, u: Update, env: Env)
    requires u.callbackQuery.None?
    requires u.message.None? || IsNullOrEmpty(u.message.value.text)
    ensures ProcessUpdate(db, u, env) == Ignored(db)
  {
  }

  /** Button data that does not decode, or decodes to another action, changes nothing and sends nothing. */
  lemma UnknownButtonsIgnored(db: Db, q: CallbackQuery, env: Env)
    requires q.data.Some?
    requires ParseCallbackData(q.data.value).None?
      || ParseCallbackData(q.data.value).value.0 !in {ApproveAction, RejectAction}
    ensures ProcessCallbackQuery(db, q, env) == Ignored(db)
  {
  }

  /**
   * Pressing the approve button of the request for record `id` makes the
   * approval of that record and then answers the press; for an id with no
   * record only the answer is sent.
   */
  lemma ApproveButton(db: Db, queryId: string, chat: Int64, id: Int32, viewUrl: string, env: Env)
    ensures var q := CallbackQuery(queryId, Some(RequestKeyboard(id, viewUrl).approveData), Some(chat));
      var decided := Decide(db, id, Approval, env);
      && ProcessCallbackQuery(db, q, env) == Step(decided.db, (), decided.effects + [AnswerCallback(queryId, ApprovedAnswer)])
      && (IndexOfId(db.notifications, id).None? ==> ProcessCallbackQuery(db, q, env).effects == [AnswerCallback(queryId, ApprovedAnswer)])
  {
    RequestKeyboardDecodes(id, viewUrl);
  }

  /**
   * Pressing the reject button of the request for record `id` marks it as
   * awaiting a reason, asks for the reason in the chat of the press, and
   * answers the press; nothing is logged.
   */
  lemma RejectButton(db: Db, queryId: string, chat: Int64, id: Int32, viewUrl: string, env: Env)
    ensures var q := CallbackQuery(queryId, Some(RequestKeyboard(id, viewUrl).rejectData), Some(chat));
      var r := ProcessCallbackQuery(db, q, env);
      && r.db == SetAwaitingReason(db, id).db
      && r.db.logs == db.logs
      && r.effects == [AskReason(IntToDecimal(chat)), AnswerCallback(queryId, RejectAnswer)]
  {
    RequestKeyboardDecodes(id, viewUrl);
  }

  /** A non-empty text in a chat where no record awaits a reason changes nothing and sends nothing. */
  lemma TextWithoutAwaitingIgnored(db: Db, m: ChatMessage, env: Env)
    requires Queries.GetAwaitingReasonByChatId(db, IntToDecimal(m.chatId)).None?
    ensures ProcessTextMessage(db, m, env) == Ignored(db)
  {
  }

  /** The update carrying a press of the reject button of record `id` only marks it as awaiting a reason. */
  lemma RejectPress(db: Db, queryId: string, chat: Int64, id: Int32, viewUrl: string, env: Env)
    ensures var q := CallbackQuery(queryId, Some(RequestKeyboard(id, viewUrl).rejectData), Some(chat));
      ProcessUpdate(db, Update(Some(q), None), env).db == SetAwaitingReason(db, id).db
  {
    RejectButton(db, queryId, chat, id, viewUrl, env);
  }

  /** A non-empty text in a chat where a record awaits a reason rejects it with the text, then confirms. */
  lemma TextRejectsAwaiting(db: Db, m: ChatMessage, awaiting: Notification, env: Env)
    requires m.text.Some? && m.text.value != ""
    requires Queries.GetAwaitingReasonByChatId(db, IntToDecimal(m.chatId)) == Some(awaiting)
    ensures var rejected := Decide(db, awaiting.id, Rejection(m.text.value), env);
      ProcessUpdate(db, Update(None, Some(m)), env)
        == Step(rejected.db, (), rejected.effects + [SendMessage(IntToDecimal(m.chatId), RejectionConfirmation, NoMarkup)])
  {
  }

  /**
   * The reply of the rejection dialogue: when record `id` is the first
   * awaiting a reason in its chat, a non-empty text there rejects it with
   * the text as reason, and the rejection is confirmed in the chat.
   */
  lemma ReasonRejects(db: Db, id: int, reason: string, env: Env)
    requires IdentityIds(db.notifications) && 1 <= id <= |db.notifications|
    requires db.notifications[id - 1].telegramChatId.Some?
    requires var chat := db.notifications[id - 1].telegramChatId.value;
      && Queries.AwaitsReasonIn(db.notifications[id - 1], chat)
      && forall j :: 0 <= j < id - 1 ==> !Queries.AwaitsReasonIn(db.notifications[j], chat)
    requires reason != ""
    ensures var chat := db.notifications[id - 1].telegramChatId.value;
      var replied := ProcessUpdate(db, Update(None, Some(ChatMessage(chat, Some(reason)))), env);
      var rejected := Decide(db, id, Rejection(reason), env);
      && replied == Step(rejected.db, (), rejected.effects + [SendMessage(IntToDecimal(chat), RejectionConfirmation, NoMarkup)])
      && replied.db.notifications[id - 1].status == Rejected
      && replied.db.notifications[id - 1].rejectionReason == Some(reason)
  {
    var k := id - 1;
    var chat := db.notifications[k].telegramChatId.value;
    Queries.AwaitingFoundByPrintedChat(db, chat, k);
    TextRejectsAwaiting(db, ChatMessage(chat, Some(reason)), db.notifications[k], env);
    IndexOfIdentity(db.notifications, id);
    WorkflowProperties.DecisionEffect(db, id, Rejection(reason), env, k);
  }

  /**
   * The rejection dialogue: pressing the reject button of record `id` in
   * the chat its request was sent to makes it the record awaiting a reason
   * there (when no earlier record awaits one), so that `ReasonRejects`
   * applies to the approver's next text.
   */
  lemma RejectionDialogue(db: Db, queryId: string, id: Int32, viewUrl: string, env: Env)
    requires IdentityIds(db.notifications) && 1 <= id <= |db.notifications|
    requires var n := db.notifications[id - 1]; n.telegramChatId.Some? && n.active
    requires var chat := db.notifications[id - 1].telegramChatId.value;
      forall j :: 0 <= j < id - 1 ==> !Queries.AwaitsReasonIn(db.notifications[j], chat)
    ensures var chat := db.notifications[id - 1].telegramChatId.value;
      var q := CallbackQuery(queryId, Some(RequestKeyboard(id, viewUrl).rejectData), Some(chat));
      var after := ProcessUpdate(db, Update(Some(q), None), env).db;
      && IdentityIds(after.notifications) && |after.notifications| == |db.notifications|
      && after.notifications[id - 1].telegramChatId == Some(chat)
      && Queries.AwaitsReasonIn(after.notifications[id - 1], chat)
      && forall j :: 0 <= j < id - 1 ==> !Queries.AwaitsReasonIn(after.notifications[j], chat)
  {
    RejectPress(db, queryId, db.notifications[id - 1].telegramChatId.value, id, viewUrl, env);
    IndexOfIdentity(db.notifications, id);
  }
}

/**
 * The update handlers as the bot runs them: they call the notification
 * service, whose tables they change, and are proved to have the effect the
 * functions of `Webhook` describe.
 */
module WebhookHandler {
  import opened Wrappers
  import opened Text
  import opened Messages
  import opened Workflow
  import Webhook
  import Service

  /** `ProcessCallbackQueryAsync`. */
  method ProcessCallbackQuery(svc: Service.NotificationService, q: Webhook.CallbackQuery, env: Env) returns (effects: seq<Effect>)
    requires svc.Valid()
    modifies svc
    ensures Step(svc.State(), (), effects) == Webhook.ProcessCallbackQuery(old(svc.State()), q, env)
    ensures svc.Valid()
  {
    if IsNullOrEmpty(q.data) || q.chatId.None? {
      return [];
    }
    var chatId := IntToDecimal(q.chatId.value);
    var parsed := ParseCallbackData(q.data.value);
    if parsed.None? {
      return [];
    }
    var (action, id) := parsed.value;
    if action == ApproveAction {
      var _, calls := svc.Approve(id, env);
      effects := calls + [AnswerCallback(q.id, ApprovedAnswer)];
    } else if action == RejectAction {
      var _ := svc.SetAwaitingReason(id);
      effects := [Webhook.AskReason(chatId), AnswerCallback(q.id, RejectAnswer)];
    } else {
      effects := [];
    }
  }

  /** `ProcessTextMessageAsync`. */
  method ProcessTextMessage(svc: Service.NotificationService, m: Webhook.ChatMessage, env: Env) returns (effects: seq<Effect>)
    requires svc.Valid()
    modifies svc
    ensures Step(svc.State(), (), effects) == Webhook.ProcessTextMessage(old(svc.State()), m, env)
    ensures svc.Valid()
  {
    var chatId := IntToDecimal(m.chatId);
    if IsNullOrEmpty(m.text) {
      return [];
    }
    var awaiting := svc.GetAwaitingReasonByChatId(chatId);
    if awaiting.None? {
      return [];
    }
    var _, calls := svc.RejectWithReason(awaiting.value.id, m.text.value, env);
    effects := calls + [SendMessage(chatId, RejectionConfirmation, NoMarkup)];
  }

  /** `ProcessUpdateAsync`. */
  method ProcessUpdate(svc: Service.NotificationService, u: Webhook.Update, env: Env) returns (effects: seq<Effect>)
    requires svc.Valid()
    modifies svc
    ensures Step(svc.State(), (), effects) == Webhook.ProcessUpdate(old(svc.State()), u, env)
    ensures svc.Valid()
  {
    if u.callbackQuery.Some? {
      effects := ProcessCallbackQuery(svc, u.callbackQuery.value, env);
    } else if u.message.Some? && u.message.value.text.Some? {
      effects := ProcessTextMessage(svc, u.message.value, env);
    } else {
      effects := [];
    }
  }
}
