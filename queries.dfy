/**
 * The read-only queries of the notification store: the record awaiting a
 * rejection reason in a chat, the filtered history (newest first, at most
 * 100 rows), the pending requests of an approver, and the status of one
 * record. They change nothing; each answer is a function of the store.
 */
module Queries {
  import opened Wrappers
  import opened Text
  import opened Models
  import opened Messages
  import opened Seqs
  import opened Workflow

  // ---------------------------------------------------------------------------
  // The record awaiting a reason

  /** Active, awaiting its rejection reason, and sent to that chat. */
  predicate AwaitsReasonIn(n: Notification, chat: Int64) {
    n.telegramChatId == Some(chat) && n.status == AwaitingReason && n.active
  }

  /**
   * `GetAwaitingReasonByChatIdAsync`: nothing for a chat id that is not a
   * 64-bit integer; otherwise the first record awaiting a reason in that chat.
   */
  function GetAwaitingReasonByChatId(db: Db, chatId: string): (r: Option<Notification>)
    ensures TryParseInt64(chatId).None? ==> r.None?
    ensures r.Some? ==> r.value in db.notifications && AwaitsReasonIn(r.value, TryParseInt64(chatId).value)
    ensures r.None? && TryParseInt64(chatId).Some? ==>
      forall k :: 0 <= k < |db.notifications| ==> !AwaitsReasonIn(db.notifications[k], TryParseInt64(chatId).value)
  {
    match TryParseInt64(chatId)
    case None => None
    case Some(chat) => First(db.notifications, (n: Notification) => AwaitsReasonIn(n, chat))
  }

  /** A chat id as Telegram sends it, printed in decimal, finds the first record awaiting a reason there. */
  lemma {:induction false} AwaitingFoundByPrintedChat(db: Db, chat: Int64, k: nat)
    requires k < |db.notifications| && AwaitsReasonIn(db.notifications[k], chat)
    requires forall j :: 0 <= j < k ==> !AwaitsReasonIn(db.notifications[j], chat)
    ensures GetAwaitingReasonByChatId(db, IntToDecimal(chat)) == Some(db.notifications[k])
  {
    Int64ParsesBack(chat);
    var p := (n: Notification) => AwaitsReasonIn(n, chat);
    var found := FirstIndex(db.notifications, p);
    assert p(db.notifications[k]);
    assert found.Some? && found.value <= k;
    assert p(db.notifications[found.value]);
    assert found.value == k;
  }

  // ---------------------------------------------------------------------------
  // Ordering by creation, newest first

  predicate NewerOrSame(a: Notification, b: Notification) {
    a.createdAt >= b.createdAt
  }

  lemma NewestFirstIsTotalPreorder()
    ensures TotalPreorder(NewerOrSame)
  {
  }

  /** Records sorted newest first have non-increasing creation instants. */
  lemma NewestFirst(records: seq<Notification>)
    requires SortedBy(records, NewerOrSame)
    ensures forall i, j :: 0 <= i < j < |records| ==> records[i].createdAt >= records[j].createdAt
  {
    forall i, j | 0 <= i < j < |records|
      ensures records[i].createdAt >= records[j].createdAt
    {
      assert NewerOrSame(records[i], records[j]);
    }
  }

  /** The type code of a record for display: empty when the type is unknown. */
  function TypeCode(types: seq<DocumentType>, idDocumentType: int): string {
    match FindTypeById(types, idDocumentType)
    case Some(dt) => dt.code
    case None => ""
  }

  /** A row of the status and history answers. */
  datatype StatusResponse = StatusResponse(
    id: int,
    documentType: string,
    folio: string,
    status: string,
    rejectionReason: Option<string>,
    createdAt: int,
    respondedAt: Option<int>,
    solicitName: Option<string>,
    authorizeName: Option<string>)

  function StatusOf(n: Notification, users: seq<UserRow>, types: seq<DocumentType>): StatusResponse {
    StatusResponse(n.id, TypeCode(types, n.idDocumentType), n.folio, StatusName(n.status), n.rejectionReason,
                   n.createdAt, n.respondedAt, DisplayName(GetUserById(users, n.idSolicit)),
                   DisplayName(GetUserById(users, n.idAuthorize)))
  }

  /** `GetStatusAsync`: the status row of the record with that id, if any. */
  function GetStatus(db: Db, id: int, users: seq<UserRow>, types: seq<DocumentType>): (r: Option<StatusResponse>)
    ensures r.Some? <==> exists k :: 0 <= k < |db.notifications| && db.notifications[k].id == id
    ensures r.Some? ==> r.value.id == id && exists k :: 0 <= k < |db.notifications| && r.value == StatusOf(db.notifications[k], users, types)
  {
    match IndexOfId(db.notifications, id)
    case None => None
    case Some(k) => Some(StatusOf(db.notifications[k], users, types))
  }

  // ---------------------------------------------------------------------------
  // History

  const HistoryLimit: nat := 100

  /** Active, and equal to each filter that is given (an empty status filter is no filter). */
  predicate MatchesHistory(n: Notification, idSolicit: Option<int>, idAuthorize: Option<int>, status: Option<string>) {
    && n.active
    && (idSolicit.Some? ==> n.idSolicit == idSolicit.value)
    && (idAuthorize.Some? ==> n.idAuthorize == idAuthorize.value)
    && (!IsNullOrEmpty(status) ==> StatusName(n.status) == status.value)
  }

  /** The matching records, newest first. */
  function HistoryOrder(db: Db, idSolicit: Option<int>, idAuthorize: Option<int>, status: Option<string>): (r: seq<Notification>)
    ensures SortedBy(r, NewerOrSame)
    ensures multiset(r) == multiset(Filter(db.notifications, (n: Notification) => MatchesHistory(n, idSolicit, idAuthorize, status)))
  {
    NewestFirstIsTotalPreorder();
    SortBy(Filter(db.notifications, (n: Notification) => MatchesHistory(n, idSolicit, idAuthorize, status)), NewerOrSame)
  }

  /** The records of the history answer: the newest `HistoryLimit` matching records. */
  function HistoryRecords(db: Db, idSolicit: Option<int>, idAuthorize: Option<int>, status: Option<string>): (r: seq<Notification>)
    ensures |r| <= HistoryLimit
    ensures SortedBy(r, NewerOrSame)
    ensures forall n :: n in r ==> n in db.notifications && MatchesHistory(n, idSolicit, idAuthorize, status)
  {
    var all := HistoryOrder(db, idSolicit, idAuthorize, status);
    var r := Take(all, HistoryLimit);
    assert forall n :: n in r ==> n in multiset(all);
    r
  }

  /** The status rows of `records`, one per record, in their order. */
  function StatusRows(records: seq<Notification>, users: seq<UserRow>, types: seq<DocumentType>): (r: seq<StatusResponse>)
    ensures |r| == |records|
    ensures forall i :: 0 <= i < |r| ==>
      r[i].id == records[i].id && r[i].createdAt == records[i].createdAt && r[i].status == StatusName(records[i].status)
  {
    seq(|records|, i requires 0 <= i < |records| => StatusOf(records[i], users, types))
  }

  /** `GetHistoryAsync`: the status rows of the history records, in the same order. */
  function GetHistory(db: Db, idSolicit: Option<int>, idAuthorize: Option<int>, status: Option<string>,
                      users: seq<UserRow>, types: seq<DocumentType>): (r: seq<StatusResponse>)
    ensures |r| <= HistoryLimit
    ensures forall i, j :: 0 <= i < j < |r| ==> r[i].createdAt >= r[j].createdAt
    ensures forall i :: 0 <= i < |r| ==> !IsNullOrEmpty(status) ==> r[i].status == status.value
  {
    var records := HistoryRecords(db, idSolicit, idAuthorize, status);
    NewestFirst(records);
    assert forall i :: 0 <= i < |records| ==> MatchesHistory(records[i], idSolicit, idAuthorize, status);
    StatusRows(records, users, types)
  }

  /**
   * The history is complete up to its limit: it holds exactly
   * `min(HistoryLimit, matches)` records; with at most `HistoryLimit`
   * matching records it holds each of them as often as the store does; with
   * more, every matching record it leaves out is no newer than any it holds.
   */
  lemma {:induction false} HistoryNewestFirst(db: Db, idSolicit: Option<int>, idAuthorize: Option<int>, status: Option<string>)
    ensures var matching := Filter(db.notifications, (n: Notification) => MatchesHistory(n, idSolicit, idAuthorize, status));
      var r := HistoryRecords(db, idSolicit, idAuthorize, status);
      && |r| == Min(HistoryLimit, |matching|)
      && (|matching| <= HistoryLimit ==> multiset(r) == multiset(matching))
      && (forall m, n :: m in r && multiset(r)[n] < multiset(matching)[n] ==> m.createdAt >= n.createdAt)
  {
    var matching := Filter(db.notifications, (n: Notification) => MatchesHistory(n, idSolicit, idAuthorize, status));
    var all := HistoryOrder(db, idSolicit, idAuthorize, status);
    var r := HistoryRecords(db, idSolicit, idAuthorize, status);
    assert |all| == |matching| by {
      assert |multiset(all)| == |multiset(matching)|;
    }
    if |all| <= HistoryLimit {
      assert r == all;
    } else {
      assert r == all[..HistoryLimit];
      var rest := all[HistoryLimit..];
      assert all == r + rest;
      assert multiset(all) == multiset(r) + multiset(rest);
      NewestFirst(all);
      forall m, n | m in r && multiset(r)[n] < multiset(matching)[n]
        ensures m.createdAt >= n.createdAt
      {
        assert n in multiset(rest);
        PrefixNewer(all, HistoryLimit, m, n);
      }
    }
  }

  /** In records sorted newest first, a record of a prefix is no older than one after it. */
  lemma PrefixNewer(all: seq<Notification>, cut: nat, m: Notification, n: Notification)
    requires cut <= |all| && m in all[..cut] && n in all[cut..]
    requires forall i, j :: 0 <= i < j < |all| ==> all[i].createdAt >= all[j].createdAt
    ensures m.createdAt >= n.createdAt
  {
    var i :| 0 <= i < cut && all[..cut][i] == m;
    var j :| 0 <= j < |all| - cut && all[cut..][j] == n;
    assert all[i] == m && all[cut + j] == n;
  }

  // ---------------------------------------------------------------------------
  // Pending requests of an approver

  /** A row of the pending answer. */
  datatype PendingResponse = PendingResponse(
    id: int,
    documentType: string,
    documentTypeDescription: string,
    folio: string,
    description: Option<string>,
    solicitName: Option<string>,
    createdAt: int,
    viewUrl: Option<string>)

  predicate IsPendingFor(n: Notification, userId: int) {
    n.idAuthorize == userId && n.status == Pending && n.active
  }

  /**
   * The view link of a pending row: the type's template with `{folio}` and
   * `{id}` substituted, and none, with no fallback, when the type has no template.
   */
  function PendingViewUrl(types: seq<DocumentType>, n: Notification): (r: Option<string>)
    ensures r.Some? <==> FindTypeById(types, n.idDocumentType).Some? && FindTypeById(types, n.idDocumentType).value.viewUrl.Some?
  {
    match FindTypeById(types, n.idDocumentType)
    case None => None
    case Some(dt) => if dt.viewUrl.Some? then Some(ViewLink(dt.viewUrl.value, n.folio, n.documentId)) else None
  }

  function PendingOf(n: Notification, users: seq<UserRow>, types: seq<DocumentType>): PendingResponse {
    var dt := FindTypeById(types, n.idDocumentType);
    PendingResponse(n.id, TypeCode(types, n.idDocumentType), if dt.Some? then dt.value.description else "",
                    n.folio, n.description, DisplayName(GetUserById(users, n.idSolicit)), n.createdAt,
                    PendingViewUrl(types, n))
  }

  /** The approver's pending records, newest first, without limit. */
  function PendingRecords(db: Db, userId: int): (r: seq<Notification>)
    ensures SortedBy(r, NewerOrSame)
    ensures forall n :: multiset(r)[n] == if IsPendingFor(n, userId) then multiset(db.notifications)[n] else 0
  {
    NewestFirstIsTotalPreorder();
    SortBy(Filter(db.notifications, (n: Notification) => IsPendingFor(n, userId)), NewerOrSame)
  }

  /** The pending rows of `records`, one per record, in their order. */
  function PendingRows(records: seq<Notification>, users: seq<UserRow>, types: seq<DocumentType>): (r: seq<PendingResponse>)
    ensures |r| == |records|
    ensures forall i :: 0 <= i < |r| ==> r[i].id == records[i].id && r[i].createdAt == records[i].createdAt
  {
    seq(|records|, i requires 0 <= i < |records| => PendingOf(records[i], users, types))
  }

  /** `GetPendingByAuthorizerAsync`: the pending rows, in the order of the records. */
  function GetPendingByAuthorizer(db: Db, userId: int, users: seq<UserRow>, types: seq<DocumentType>): (r: seq<PendingResponse>)
    ensures |r| == |PendingRecords(db, userId)|
    ensures forall i, j :: 0 <= i < j < |r| ==> r[i].createdAt >= r[j].createdAt
  {
    var records := PendingRecords(db, userId);
    NewestFirst(records);
    PendingRows(records, users, types)
  }

  /** Every pending record of the approver is listed, and only those. */
  lemma PendingExactly(db: Db, userId: int, n: Notification)
    ensures n in PendingRecords(db, userId) <==> n in db.notifications && IsPendingFor(n, userId)
  {
    assert n in PendingRecords(db, userId) <==> multiset(PendingRecords(db, userId))[n] > 0;
  }
}
