/**
 * The document-type registry: a table of configured document types with
 * queries (all active types by code, by id, by active code), creation with a
 * code-uniqueness check, field overwrite on update, and soft deletion.
 * The table is the `rows` field of `DocumentTypeTable`; the identity column
 * numbers rows from 1 in insertion order.
 */
module DocumentTypes {
  import opened Wrappers
  import opened Text
  import opened Models
  import Seqs

  /** The HTTP outcomes of the registry's endpoints. */
  datatype Outcome =
    | Listed(types: seq<DocumentType>)
    | Found(documentType: DocumentType)
    | CreatedAt(documentType: DocumentType)
    | NoContent
    | NotFound(message: string)
    | BadRequest(message: string)
    | Conflict(message: string)

  function NotFoundById(id: int): string {
    "Document type " + IntToDecimal(id) + " not found"
  }

  function NotFoundByCode(code: string): string {
    "Document type '" + code + "' not found"
  }

  function CodeTaken(code: string): string {
    "Document type with code '" + code + "' already exists"
  }

  const IdMismatch: string := "ID mismatch"

  /** The identity column: the row at index k has id k + 1. */
  predicate IdentityIds(rows: seq<DocumentType>) {
    forall k :: 0 <= k < |rows| ==> rows[k].id == k + 1
  }

  /** No two rows share a code. */
  predicate UniqueCodes(rows: seq<DocumentType>) {
    forall i, j :: 0 <= i < j < |rows| ==> rows[i].code != rows[j].code
  }

  /** Some row, active or not, has the code. */
  predicate HasCode(rows: seq<DocumentType>, code: string) {
    exists k :: 0 <= k < |rows| && rows[k].code == code
  }

  // ---------------------------------------------------------------------------
  // Queries

  /** Ordering by code. */
  predicate ByCode(a: DocumentType, b: DocumentType) {
    OrdinalLe(a.code, b.code)
  }

  lemma ByCodeIsTotalPreorder()
    ensures Seqs.TotalPreorder(ByCode)
  {
    forall a: DocumentType, b: DocumentType
      ensures ByCode(a, b) || ByCode(b, a)
    {
      OrdinalTotal(a.code, b.code);
    }
    forall a: DocumentType, b: DocumentType, c: DocumentType | ByCode(a, b) && ByCode(b, c)
      ensures ByCode(a, c)
    {
      OrdinalTransitive(a.code, b.code, c.code);
    }
  }

  predicate IsActive(d: DocumentType) {
    d.active
  }

  /** `GetAll`: the active rows, ordered by code. */
  function GetAll(rows: seq<DocumentType>): (r: seq<DocumentType>)
    ensures Seqs.SortedBy(r, ByCode)
    ensures multiset(r) == multiset(Seqs.Filter(rows, IsActive))
  {
    ByCodeIsTotalPreorder();
    Seqs.SortBy(Seqs.Filter(rows, IsActive), ByCode)
  }

  /** `GetAll` lists every active row, once per occurrence, and nothing else. */
  lemma GetAllExactlyActive(rows: seq<DocumentType>, d: DocumentType)
    ensures multiset(GetAll(rows))[d] == if d.active then multiset(rows)[d] else 0
    ensures d in GetAll(rows) <==> d in rows && d.active
  {
    assert multiset(GetAll(rows))[d] == multiset(Seqs.Filter(rows, IsActive))[d];
  }

  /** `GetById`: the row with that id, active or not. */
  function GetById(rows: seq<DocumentType>, id: int): (r: Outcome)
    ensures r.Found? || r == NotFound(NotFoundById(id))
    ensures r.Found? <==> exists k :: 0 <= k < |rows| && rows[k].id == id
    ensures r.Found? ==> r.documentType in rows && r.documentType.id == id
  {
    match FindTypeById(rows, id)
    case None => NotFound(NotFoundById(id))
    case Some(d) => Found(d)
  }

  /** `GetByCode`: the first active row with that code. */
  function GetByCode(rows: seq<DocumentType>, code: string): (r: Outcome)
    ensures r.Found? || r == NotFound(NotFoundByCode(code))
    ensures r.Found? <==> exists k :: 0 <= k < |rows| && rows[k].code == code && rows[k].active
    ensures r.Found? ==> r.documentType in rows && r.documentType.code == code && r.documentType.active
  {
    match FindActiveTypeByCode(rows, code)
    case None => NotFound(NotFoundByCode(code))
    case Some(d) => Found(d)
  }

  // ---------------------------------------------------------------------------
  // Updates, as functions of the table

  /** The table after an operation and the operation's answer. */
  datatype Step = Step(rows: seq<DocumentType>, outcome: Outcome)

  /** The row `Create` stores: the body with the next identity, the current instant, and active. */
  function Stored(rows: seq<DocumentType>, body: DocumentType, now: int): DocumentType {
    body.(id := |rows| + 1, createdAt := now, active := true)
  }

  /** `Create`: refused when any row has the code; otherwise the stored row is appended. */
  function CreateStep(rows: seq<DocumentType>, body: DocumentType, now: int): (r: Step)
    ensures r.outcome.Conflict? <==> HasCode(rows, body.code)
  {
    if HasCode(rows, body.code) then Step(rows, Conflict(CodeTaken(body.code)))
    else Step(rows + [Stored(rows, body, now)], CreatedAt(Stored(rows, body, now)))
  }

  /** `Update`'s overwrite of the seven mutable fields; id and creation instant stay. */
  function Overwrite(existing: DocumentType, body: DocumentType): DocumentType {
    existing.(code := body.code, description := body.description, microservice := body.microservice,
              baseUrl := body.baseUrl, callbackEndpoint := body.callbackEndpoint, viewUrl := body.viewUrl,
              active := body.active)
  }

  predicate HasId(d: DocumentType, id: int) {
    d.id == id
  }

  /** `Update`: the path id must equal the body's id and name an existing row. */
  function UpdateStep(rows: seq<DocumentType>, id: int, body: DocumentType): (r: Step)
    ensures |r.rows| == |rows|
  {
    if id != body.id then Step(rows, BadRequest(IdMismatch))
    else match Seqs.FirstIndex(rows, (d: DocumentType) => HasId(d, id))
      case None => Step(rows, NotFound(NotFoundById(id)))
      case Some(k) =>
        var updated := Overwrite(rows[k], body);
        Step(rows[k := updated], Found(updated))
  }

  /** `Delete`: the row is kept and only deactivated. */
  function DeleteStep(rows: seq<DocumentType>, id: int): (r: Step)
    ensures |r.rows| == |rows|
  {
    match Seqs.FirstIndex(rows, (d: DocumentType) => HasId(d, id))
    case None => Step(rows, NotFound(NotFoundById(id)))
    case Some(k) => Step(rows[k := rows[k].(active := false)], NoContent)
  }

  // ---------------------------------------------------------------------------
  // Properties of the operations

  /**
   * Create never stores a code that is already present, so it keeps unique
   * codes unique; on any table, even one where `Update` has duplicated a
   * code, a conflict leaves the table and success appends one active row with
   * the next id.
   */
  lemma CreateKeepsInvariants(rows: seq<DocumentType>, body: DocumentType, now: int)
    requires IdentityIds(rows)
    ensures var r := CreateStep(rows, body, now);
      && IdentityIds(r.rows)
      && (UniqueCodes(rows) ==> UniqueCodes(r.rows))
      && (r.outcome.Conflict? ==> r.rows == rows)
      && (r.outcome.CreatedAt? ==>
            && r.rows == rows + [r.outcome.documentType]
            && r.outcome.documentType.active
            && r.outcome.documentType.code == body.code
            && r.outcome.documentType.id == |rows| + 1
            && r.outcome.documentType.createdAt == now)
  {
    var r := CreateStep(rows, body, now);
    if UniqueCodes(rows) && !HasCode(rows, body.code) {
      forall i, j | 0 <= i < j < |r.rows|
        ensures r.rows[i].code != r.rows[j].code
      {
        if j == |rows| {
          assert r.rows[i] == rows[i];
        }
      }
    }
  }

  /** A freshly created type is found by its id and, being active, by its code. */
  lemma CreatedIsFound(rows: seq<DocumentType>, body: DocumentType, now: int)
    requires IdentityIds(rows) && !HasCode(rows, body.code)
    ensures var r := CreateStep(rows, body, now);
      && GetById(r.rows, |rows| + 1) == Found(Stored(rows, body, now))
      && GetByCode(r.rows, body.code) == Found(Stored(rows, body, now))
  {
    var r := CreateStep(rows, body, now);
    var stored := Stored(rows, body, now);
    forall k | 0 <= k < |rows|
      ensures r.rows[k].id != |rows| + 1 && r.rows[k].code != body.code
    {
      assert r.rows[k] == rows[k];
    }
    assert r.rows[|rows|] == stored;
  }

  /** Refusals: an id mismatch is answered before any lookup, an unknown id with NotFound; neither changes the table. */
  lemma UpdateRefusals(rows: seq<DocumentType>, id: int, body: DocumentType)
    ensures id != body.id ==> UpdateStep(rows, id, body) == Step(rows, BadRequest(IdMismatch))
    ensures id == body.id && (forall k :: 0 <= k < |rows| ==> rows[k].id != id)
        ==> UpdateStep(rows, id, body) == Step(rows, NotFound(NotFoundById(id)))
  {
  }

  /**
   * A successful update changes exactly the addressed row, in exactly its
   * seven mutable fields: it keeps the identity column.
   */
  lemma UpdateOverwritesFields(rows: seq<DocumentType>, body: DocumentType, k: nat)
    requires IdentityIds(rows) && k < |rows| && body.id == k + 1
    ensures var r := UpdateStep(rows, body.id, body);
      && r.outcome.Found?
      && IdentityIds(r.rows)
      && (forall j :: 0 <= j < |rows| && j != k ==> r.rows[j] == rows[j])
      && r.rows[k].id == rows[k].id && r.rows[k].createdAt == rows[k].createdAt
      && r.rows[k].(id := body.id, createdAt := body.createdAt) == body
  {
    var found := Seqs.FirstIndex(rows, (d: DocumentType) => HasId(d, body.id));
    assert HasId(rows[k], body.id);
    assert found.Some? && found.value == k;
  }

  /** Update does not re-check uniqueness: it can give two rows the same code. */
  lemma UpdateCanDuplicateCode()
    ensures var a := DocumentType(1, "OC", "Orden", "ms", "http://a", "/cb/{id}", None, true, 0);
      var b := DocumentType(2, "REQUIS", "Requisición", "ms", "http://a", "/cb/{id}", None, true, 0);
      var r := UpdateStep([a, b], 2, b.(code := "OC"));
      && UniqueCodes([a, b])
      && r.outcome.Found?
      && !UniqueCodes(r.rows)
  {
    var a := DocumentType(1, "OC", "Orden", "ms", "http://a", "/cb/{id}", None, true, 0);
    var b := DocumentType(2, "REQUIS", "Requisición", "ms", "http://a", "/cb/{id}", None, true, 0);
    assert a.code[0] != b.code[0];
    var found := Seqs.FirstIndex([a, b], (d: DocumentType) => HasId(d, 2));
    assert !HasId([a, b][0], 2) && HasId([a, b][1], 2);
    assert found == Some(1);
    var r := UpdateStep([a, b], 2, b.(code := "OC"));
    assert r.rows[0].code == r.rows[1].code;
  }

  /**
   * Delete only deactivates: the row stays, visible by id and invisible by
   * code and in the listing, and deleting it again succeeds with the same table.
   */
  lemma DeleteDeactivates(rows: seq<DocumentType>, k: nat)
    requires IdentityIds(rows) && UniqueCodes(rows) && k < |rows|
    ensures var r := DeleteStep(rows, k + 1);
      && r.outcome == NoContent
      && r.rows == rows[k := rows[k].(active := false)]
      && IdentityIds(r.rows)
      && GetById(r.rows, k + 1) == Found(rows[k].(active := false))
      && GetByCode(r.rows, rows[k].code).NotFound?
      && DeleteStep(r.rows, k + 1) == r.(outcome := NoContent)
  {
    var r := DeleteStep(rows, k + 1);
    var found := Seqs.FirstIndex(rows, (d: DocumentType) => HasId(d, k + 1));
    assert HasId(rows[k], k + 1);
    assert found.Some? && found.value == k;
    var again := Seqs.FirstIndex(r.rows, (d: DocumentType) => HasId(d, k + 1));
    assert HasId(r.rows[k], k + 1);
    assert again.Some? && again.value == k;
    forall j | 0 <= j < |r.rows|
      ensures r.rows[j].code == rows[k].code ==> !r.rows[j].active
    {
      if j != k {
        assert r.rows[j] == rows[j];
      }
    }
    var byId := FindTypeById(r.rows, k + 1);
    assert byId.Some? && byId.value in r.rows;
  }

  /** Delete of an id no row has is answered with NotFound and changes nothing. */
  lemma DeleteUnknown(rows: seq<DocumentType>, id: int)
    requires forall k :: 0 <= k < |rows| ==> rows[k].id != id
    ensures DeleteStep(rows, id) == Step(rows, NotFound(NotFoundById(id)))
  {
  }

  // ---------------------------------------------------------------------------
  // The table

  class DocumentTypeTable {
    var rows: seq<DocumentType>

    ghost predicate Valid()
      reads this
    {
      IdentityIds(rows)
    }

    constructor ()
      ensures Valid() && rows == []
    {
      rows := [];
    }

    /** `GetAll`. */
    function All(): seq<DocumentType>
      reads this
    {
      GetAll(rows)
    }

    /** Whether some row has the code; a linear scan, like the query it models. */
    method CodeExists(code: string) returns (found: bool)
      ensures found <==> HasCode(rows, code)
    {
      var k := 0;
      while k < |rows|
        invariant 0 <= k <= |rows|
        invariant forall j :: 0 <= j < k ==> rows[j].code != code
      {
        if rows[k].code == code {
          return true;
        }
        k := k + 1;
      }
      return false;
    }

    /** The index of the first row with the id, like `FindAsync`. */
    method IndexOfId(id: int) returns (index: Option<nat>)
      ensures index == Seqs.FirstIndex(rows, (d: DocumentType) => HasId(d, id))
    {
      var k := 0;
      while k < |rows|
        invariant 0 <= k <= |rows|
        invariant forall j :: 0 <= j < k ==> !HasId(rows[j], id)
      {
        if rows[k].id == id {
          return Some(k);
        }
        k := k + 1;
      }
      return None;
    }

    /** `Create`. */
    method Create(body: DocumentType, now: int) returns (outcome: Outcome)
      requires Valid()
      modifies this
      ensures Valid()
      ensures UniqueCodes(old(rows)) ==> UniqueCodes(rows)
      ensures Step(rows, outcome) == CreateStep(old(rows), body, now)
    {
      CreateKeepsInvariants(rows, body, now);
      var taken := CodeExists(body.code);
      if taken {
        return Conflict(CodeTaken(body.code));
      }
      var stored := body.(id := |rows| + 1, createdAt := now, active := true);
      rows := rows + [stored];
      return CreatedAt(stored);
    }

    /** `Update`. */
    method Update(id: int, body: DocumentType) returns (outcome: Outcome)
      requires Valid()
      modifies this
      ensures Valid()
      ensures Step(rows, outcome) == UpdateStep(old(rows), id, body)
    {
      if id != body.id {
        return BadRequest(IdMismatch);
      }
      var index := IndexOfId(id);
      if index.None? {
        return NotFound(NotFoundById(id));
      }
      var existing := rows[index.value];
      var updated := existing.(code := body.code, description := body.description,
                               microservice := body.microservice, baseUrl := body.baseUrl,
                               callbackEndpoint := body.callbackEndpoint, viewUrl := body.viewUrl,
                               active := body.active);
      rows := rows[index.value := updated];
      return Found(updated);
    }

    /** `Delete`. */
    method Delete(id: int) returns (outcome: Outcome)
      requires Valid()
      modifies this
      ensures Valid()
      ensures Step(rows, outcome) == DeleteStep(old(rows), id)
    {
      var index := IndexOfId(id);
      if index.None? {
        return NotFound(NotFoundById(id));
      }
      rows := rows[index.value := rows[index.value].(active := false)];
      return NoContent;
    }
  }
}
