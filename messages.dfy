/**
 * The Telegram side of the service that is plain string work: the callback
 * data carried by the approve/reject buttons and its decoding, and the texts
 * and keyboards of the messages the bot sends or edits.
 */
module Messages {
  import opened Wrappers
  import opened Text
  import opened Models

  // ---------------------------------------------------------------------------
  // Callback data of the inline buttons

  const ApproveAction: string := "approve"
  const RejectAction: string := "reject"

  /** The data of a button: the action, an underscore, the notification id in decimal. */
  function CallbackData(action: string, id: int): string {
    action + "_" + IntToDecimal(id)
  }

  /**
   * Decoding of button data: split at every underscore, require exactly two
   * pieces, and read the second as a 32-bit integer.
   */
  function ParseCallbackData(data: string): (r: Option<(string, Int32)>)
    ensures r.Some? ==> '_' !in r.value.0
  {
    var parts := Split(data, '_');
    if |parts| != 2 then None
    else match TryParseInt32(parts[1])
      case None => None
      case Some(id) => Some((parts[0], id))
  }

  /** Decoding the data of a button gives back its action and notification id. */
  lemma CallbackDataRoundTrip(action: string, id: Int32)
    requires '_' !in action
    ensures ParseCallbackData(CallbackData(action, id)) == Some((action, id))
  {
    var digits := IntToDecimal(id);
    DecimalCharacters(id);
    assert '_' !in digits;
    assert CallbackData(action, id) == action + ['_'] + digits;
    SplitPair(action, digits, '_');
    Int32ParsesBack(id);
  }

  /** Whatever decodes is an action, an underscore and a text that parses to the id. */
  lemma ParseCallbackDataShape(data: string)
    requires ParseCallbackData(data).Some?
    ensures var (action, id) := ParseCallbackData(data).value;
      exists digits :: data == action + "_" + digits && '_' !in digits && TryParseInt32(digits) == Some(id)
  {
    var parts := Split(data, '_');
    JoinSplit(data, '_');
    assert Join(parts, '_') == parts[0] + ['_'] + Join(parts[1..], '_');
    assert data == parts[0] + "_" + parts[1];
  }

  // ---------------------------------------------------------------------------
  // Keyboards and outgoing texts

  /** The reply markup attached to a message. */
  datatype Markup =
    | NoMarkup
      /** Row one: authorise and reject buttons with their callback data; row two: a link button. */
    | AuthorizationKeyboard(approveData: string, rejectData: string, viewUrl: string)
    | ViewButton(url: string)
    | ForceReply

  /** The view link: `{folio}` replaced first, then `{id}` by the document id. */
  function ViewLink(template: string, folio: string, documentId: int): string {
    ReplaceAll(ReplaceAll(template, "{folio}", folio), "{id}", IntToDecimal(documentId))
  }

  /** The keyboard of an authorisation request for notification `id`. */
  function RequestKeyboard(id: int, viewUrl: string): Markup {
    AuthorizationKeyboard(CallbackData(ApproveAction, id), CallbackData(RejectAction, id), viewUrl)
  }

  /** Pressing either button of a request sends back that button's action and the notification id. */
  lemma RequestKeyboardDecodes(id: Int32, viewUrl: string)
    ensures ParseCallbackData(RequestKeyboard(id, viewUrl).approveData) == Some((ApproveAction, id))
    ensures ParseCallbackData(RequestKeyboard(id, viewUrl).rejectData) == Some((RejectAction, id))
    ensures RequestKeyboard(id, viewUrl).viewUrl == viewUrl
  {
    CallbackDataRoundTrip(ApproveAction, id);
    CallbackDataRoundTrip(RejectAction, id);
  }

  /** The document label of a message: the type's description, or "Documento" without a type. */
  function TypeLabel(documentType: Option<DocumentType>): string {
    if documentType.Some? then documentType.value.description else "Documento"
  }

  /** The lines naming the document type, the folio and the requester. */
  function TypeLine(typeLabel: string): string {
    "*Tipo:* " + typeLabel + "\n"
  }

  function FolioLine(folio: string): string {
    "*Folio:* `" + folio + "`\n"
  }

  function SolicitLine(solicitName: string): string {
    "*Solicitante:* " + solicitName + "\n"
  }

  /** The description line, shown only for a non-empty description. */
  function DescriptionLine(description: string): string {
    "*Descripción:* " + description + "\n"
  }

  /** The part of a request before the optional description: the title, then the type, folio and requester lines. */
  function RequestHead(documentType: Option<DocumentType>, folio: string, solicitName: string): string {
    RequestHeader + TypeLine(TypeLabel(documentType)) + FolioLine(folio) + SolicitLine(solicitName)
  }

  /** Text of the authorisation request; `date` is the creation instant already formatted. */
  function RequestText(documentType: Option<DocumentType>, folio: string, solicitName: string,
                       description: Option<string>, date: string): (r: string)
    ensures RequestHeader <= r
    ensures |DateLine(date)| <= |r| && r[|r| - |DateLine(date)|..] == DateLine(date)
  {
    RequestHead(documentType, folio, solicitName)
    + (if !IsNullOrEmpty(description) then DescriptionLine(description.value) else "")
    + DateLine(date)
  }

  /**
   * The head of a request carries the type label, the folio and the
   * requester, in that order after the title; the description line follows
   * it exactly when the description is non-empty, and the date line closes
   * the text either way.
   */
  lemma RequestTextDescription(documentType: Option<DocumentType>, folio: string, solicitName: string,
                               description: Option<string>, date: string)
    ensures var head := RequestHead(documentType, folio, solicitName);
      var typeAt := |RequestHeader|;
      var folioAt := typeAt + |TypeLine(TypeLabel(documentType))|;
      var solicitAt := folioAt + |FolioLine(folio)|;
      && OccursAt(head, TypeLine(TypeLabel(documentType)), typeAt)
      && OccursAt(head, FolioLine(folio), folioAt)
      && OccursAt(head, SolicitLine(solicitName), solicitAt)
      && (IsNullOrEmpty(description) ==> RequestText(documentType, folio, solicitName, description, date)
                                         == head + DateLine(date))
      && (!IsNullOrEmpty(description) ==> RequestText(documentType, folio, solicitName, description, date)
                                          == head + DescriptionLine(description.value) + DateLine(date))
  {
    ConsecutiveParts(RequestHeader, TypeLine(TypeLabel(documentType)), FolioLine(folio), SolicitLine(solicitName));
  }

  /** In `a + b + c + d`, the parts `b`, `c` and `d` sit at consecutive offsets after `a`. */
  lemma ConsecutiveParts(a: string, b: string, c: string, d: string)
    ensures OccursAt(a + b + c + d, b, |a|)
    ensures OccursAt(a + b + c + d, c, |a| + |b|)
    ensures OccursAt(a + b + c + d, d, |a| + |b| + |c|)
  {
    var s := a + b + c + d;
    assert s[|a|..|a| + |b|] == b;
    assert s[|a| + |b|..|a| + |b| + |c|] == c;
    assert s[|a| + |b| + |c|..|a| + |b| + |c| + |d|] == d;
  }

  /** The title that opens every authorisation request. */
  const RequestHeader: string := "\U{1F4CB} *Solicitud de Autorización*\n\n"

  const ApprovedHeader: string := "\U{2705} *AUTORIZADO*"
  const RejectedHeader: string := "\U{274C} *RECHAZADO*"

  /** The reason suffix of an edited message. */
  function ReasonSuffix(reason: string): string {
    "\n\n*Motivo:* " + reason
  }

  /** Text that replaces a processed request: approved only for `Approved`, with the reason when one is given. */
  function ProcessedText(status: Status, reason: Option<string>): (r: string)
    ensures 0 < |r| && (r[0] == '\U{2705}' <==> status == Approved)
    ensures status == Approved ==> ApprovedHeader <= r
    ensures status != Approved ==> RejectedHeader <= r
    ensures r == (if status == Approved then ApprovedHeader else RejectedHeader) <==> IsNullOrEmpty(reason)
    ensures !IsNullOrEmpty(reason) ==> |reason.value| <= |r| && r[|r| - |reason.value|..] == reason.value
  {
    var header := if status == Approved then ApprovedHeader else RejectedHeader;
    assert header[0] == (if status == Approved then '\U{2705}' else '\U{274C}');
    if IsNullOrEmpty(reason) then header else header + ReasonSuffix(reason.value)
  }

  /** The line carrying the rejection reason in a result message. */
  function MotivoLine(reason: string): string {
    "\n*Motivo:* " + reason + "\n"
  }

  /** Whether a result message shows the reason: only a rejection with a non-empty reason does. */
  predicate ShowsReason(n: Notification) {
    n.status == Rejected && !IsNullOrEmpty(n.rejectionReason)
  }

  /** The part of a result message before the reason line: the header and the sentence naming the approver. */
  function ResultHead(n: Notification, documentType: Option<DocumentType>, authorizeName: string): string {
    var approved := n.status == Approved;
    var emoji := if approved then "\U{2705}" else "\U{274C}";
    var statusText := if approved then "Autorizado" else "Rechazado";
    var statusLower := if approved then "autorizado" else "rechazado";
    emoji + " *Documento " + statusText + "*\n\n"
    + "Tu *" + TypeLabel(documentType) + "* con folio `" + n.folio + "` fue " + statusLower
    + " por *" + authorizeName + "*.\n"
  }

  /** The date line that closes a result message. */
  function DateLine(date: string): string {
    "\n_Fecha: " + date + "_"
  }

  /**
   * Text of the result message to the requester; `authorizeName` is the
   * approver's display name and `date` the formatted response instant (empty
   * when there is none).
   */
  function ResultText(n: Notification, documentType: Option<DocumentType>, authorizeName: string, date: string): (r: string)
    ensures 0 < |r| && (r[0] == '\U{2705}' <==> n.status == Approved)
  {
    ResultHead(n, documentType, authorizeName)
    + (if ShowsReason(n) then MotivoLine(n.rejectionReason.value) else "")
    + DateLine(date)
  }

  /**
   * The reason appears in the result message only for a rejection with a
   * non-empty reason: the text without any reason is the head and the date
   * line, and when the reason is shown its line is inserted between the two,
   * with the rest of the text unchanged.
   */
  lemma ResultTextReason(n: Notification, documentType: Option<DocumentType>, authorizeName: string, date: string)
    ensures var head := ResultHead(n, documentType, authorizeName);
      var without := ResultText(n.(rejectionReason := None), documentType, authorizeName, date);
      && without == head + DateLine(date)
      && (!ShowsReason(n) ==> ResultText(n, documentType, authorizeName, date) == without)
      && (ShowsReason(n) ==> ResultText(n, documentType, authorizeName, date)
                             == head + MotivoLine(n.rejectionReason.value) + DateLine(date))
  {
    assert ResultHead(n.(rejectionReason := None), documentType, authorizeName) == ResultHead(n, documentType, authorizeName);
  }

  /** The link button of a result message: present exactly when the type has a non-empty view URL. */
  function ResultKeyboard(documentType: Option<DocumentType>, folio: string, documentId: int): (m: Markup)
    ensures m.ViewButton? <==> documentType.Some? && !IsNullOrEmpty(documentType.value.viewUrl)
    ensures m.NoMarkup? <==> !m.ViewButton?
  {
    if documentType.Some? && !IsNullOrEmpty(documentType.value.viewUrl) then
      ViewButton(ViewLink(documentType.value.viewUrl.value, folio, documentId))
    else NoMarkup
  }

  /** The folio placeholder does not occur in a text whose only brace opens the id placeholder. */
  lemma NoFolioPlaceholder(b: string, c: string)
    requires '{' !in b && '{' !in c
    ensures !Occurs(b + "{id}" + c, "{folio}")
  {
    var s := b + "{id}" + c;
    forall k: nat | k <= |s|
      ensures !OccursAt(s, "{folio}", k)
    {
      if k + 7 <= |s| {
        if k == |b| {
          assert s[k + 1] == 'i';
          assert s[k..k + 7][1] == s[k + 1];
        } else {
          assert s[k] != '{';
          assert s[k..k + 7][0] == s[k];
        }
      }
    }
  }

  /** A view template whose placeholders are the only braces yields the folio and the id in place. */
  lemma ViewLinkSubstitutes(a: string, b: string, c: string, folio: string, documentId: int)
    requires '{' !in a && '{' !in b && '{' !in c && '{' !in folio
    ensures ViewLink(a + "{folio}" + b + "{id}" + c, folio, documentId)
         == a + folio + b + IntToDecimal(documentId) + c
  {
    assert a + "{folio}" + b + "{id}" + c == a + "{folio}" + (b + "{id}" + c);
    ReplaceAllSplice(a, "{folio}", b + "{id}" + c, folio);
    NoFolioPlaceholder(b, c);
    ReplaceAllAbsent(b + "{id}" + c, "{folio}", folio);
    assert a + folio + (b + "{id}" + c) == (a + folio + b) + "{id}" + c;
    ReplaceAllSplice(a + folio + b, "{id}", c, IntToDecimal(documentId));
    FirstCharAbsent(c, "{id}");
    ReplaceAllAbsent(c, "{id}", IntToDecimal(documentId));
  }

  const AskReasonText: string := "\U{1F4DD} Por favor escribe el *motivo del rechazo*:"
  const ApprovedAnswer: string := "\U{2705} Documento autorizado"
  const RejectAnswer: string := "\U{1F4DD} Escribe el motivo del rechazo"
  const RejectionConfirmation: string := "\U{2705} Documento rechazado. Se ha notificado al solicitante."
}
