/**
 * The document aggregator behind the public view: a routing table from the
 * document-type code to the origin endpoints, and the rules that decide
 * which secondary fetches happen and how their optional results compose.
 * Every upstream answer is a parameter (`Upstream`); the result records the
 * requests that were issued, in order.
 */
module DocumentProxy {
  import opened Wrappers
  import opened Text
  import opened Http

  /** A parsed JSON value, as far as the aggregator inspects it. */
  datatype Json = JObject(fields: map<string, Json>) | JString(text: string) | JNumber(number: int) | JOther

  /** `JsonElement.GetInt32()`: a whole number in 32-bit range; anything else throws (`None`). */
  function GetInt32(j: Json): Option<Int32> {
    if j.JNumber? && Int32Min <= j.number <= Int32Max then Some(j.number) else None
  }

  /** A property that is present and a JSON string. */
  function StringProperty(fields: map<string, Json>, name: string): (r: Option<string>)
    ensures r.Some? <==> name in fields && fields[name].JString?
  {
    if name in fields && fields[name].JString? then Some(fields[name].text) else None
  }

  /** The body and media type of an image response. */
  datatype ImageBody = ImageBody(bytes: seq<bv8>, mediaType: Option<string>)

  /**
   * The outside world: the answer to an authenticated JSON GET (a body of
   * `None` is one that does not parse), the answer to an anonymous image GET,
   * and the base64 encoding of section 4 of RFC 4648.
   */
  datatype Upstream = Upstream(
    json: string -> Reply<Option<Json>>,
    image: string -> Reply<ImageBody>,
    base64: seq<bv8> -> string)

  /** A request the aggregator issues. */
  datatype Fetch = GetJson(url: string) | GetImage(url: string)

  const SmpBaseUrl: string := "http://66.179.240.10:5004"
  const WarehouseBaseUrl: string := "http://66.179.240.10:5007"

  /** The primary document endpoint and the optional line-item endpoint. */
  datatype Endpoints = Endpoints(document: string, details: Option<string>)

  predicate IsOrderCode(upper: string) {
    upper == "OC" || upper == "REQUIS"
  }

  predicate IsLedgerCode(upper: string) {
    upper == "INCOME" || upper == "EXPENSE"
  }

  /** The routing table, keyed by the upper-cased document code. */
  function RouteFor(documentCode: string, baseUrl: string, documentId: int): (r: Option<Endpoints>)
    ensures r.Some? <==> IsOrderCode(ToUpperAscii(documentCode)) || IsLedgerCode(ToUpperAscii(documentCode))
    ensures r.Some? ==> (r.value.details.Some? <==> IsOrderCode(ToUpperAscii(documentCode)))
  {
    var upper := ToUpperAscii(documentCode);
    var id := IntToDecimal(documentId);
    if IsOrderCode(upper) then
      Some(Endpoints(baseUrl + "/api/Ocandreq/" + id, Some(DetailsUrl(documentId))))
    else if IsLedgerCode(upper) then
      Some(Endpoints(baseUrl + "/api/Incomeandexpense/" + id, None))
    else None
  }

  /** Routing ignores the case of ASCII letters in the code. */
  lemma RouteIgnoresCase(documentCode: string, baseUrl: string, documentId: int)
    ensures RouteFor(ToUpperAscii(documentCode), baseUrl, documentId) == RouteFor(documentCode, baseUrl, documentId)
  {
    ToUpperAsciiIdempotent(documentCode);
  }

  /** The concrete routes of the order, requisition, income and expense codes. */
  lemma RouteTable(baseUrl: string, documentId: int)
    ensures RouteFor("oc", baseUrl, documentId) == RouteFor("REQUIS", baseUrl, documentId)
         == Some(Endpoints(baseUrl + "/api/Ocandreq/" + IntToDecimal(documentId),
                           Some(WarehouseBaseUrl + "/api/Detailsreqoc/" + IntToDecimal(documentId))))
    ensures RouteFor("Income", baseUrl, documentId) == RouteFor("EXPENSE", baseUrl, documentId)
         == Some(Endpoints(baseUrl + "/api/Incomeandexpense/" + IntToDecimal(documentId), None))
    ensures RouteFor("FAC", baseUrl, documentId).None?
  {
    assert ToUpperAscii("oc") == "OC";
    assert ToUpperAscii("REQUIS") == "REQUIS";
    assert ToUpperAscii("Income") == "INCOME";
    assert ToUpperAscii("EXPENSE") == "EXPENSE";
    assert ToUpperAscii("FAC") == "FAC";
  }

  /** `FetchJsonAsync`: the parsed body of a success response, otherwise nothing; it never throws. */
  function FetchJson(up: Upstream, url: string): (r: Option<Json>)
    ensures r.Some? <==> up.json(url).Responded? && IsSuccessStatusCode(up.json(url).status) && up.json(url).body.Some?
    ensures r.Some? ==> r == up.json(url).body
  {
    match up.json(url)
    case Responded(status, body) => if IsSuccessStatusCode(status) then body else None
    case Threw => None
  }

  /** The inline form of an image: a data URI with the response's media type, PNG by default. */
  function ImageDataUri(mediaType: Option<string>, payload: string): string {
    "data:" + mediaType.GetOr("image/png") + ";base64," + payload
  }

  /**
   * `FetchImageAsBase64Async`: no request for a missing or empty URL; the data
   * URI of a success response; nothing otherwise. It never throws.
   */
  function FetchImage(up: Upstream, url: Option<string>): (r: (Option<string>, seq<Fetch>))
    ensures IsNullOrEmpty(url) ==> r == (None, [])
    ensures !IsNullOrEmpty(url) ==> r.1 == [GetImage(url.value)]
    ensures r.0.Some? <==> !IsNullOrEmpty(url) && up.image(url.value).Responded? && IsSuccessStatusCode(up.image(url.value).status)
    ensures r.0.Some? ==> r.0.value == ImageDataUri(up.image(url.value).body.mediaType, up.base64(up.image(url.value).body.bytes))
  {
    if IsNullOrEmpty(url) then (None, [])
    else
      var answer := match up.image(url.value)
        case Responded(status, body) =>
          if IsSuccessStatusCode(status) then Some(ImageDataUri(body.mediaType, up.base64(body.bytes))) else None
        case Threw => None;
      (answer, [GetImage(url.value)])
  }

  /**
   * The outcome of one stage of the aggregation: `value` is `None` when the
   * stage threw (which ends the whole aggregation with no data), and
   * `fetches` lists the requests it issued.
   */
  datatype Stage<T> = Stage(value: Option<T>, fetches: seq<Fetch>)

  /** Company data and the three images taken from it. */
  datatype Branding = Branding(companyData: Option<Json>, logo: Option<string>, logo2: Option<string>, watermark: Option<string>)

  const NoBranding: Branding := Branding(None, None, None, None)

  function CompanyUrl(idCompany: int): string {
    SmpBaseUrl + "/api/Root/" + IntToDecimal(idCompany)
  }

  function ProviderUrl(idProvider: int): string {
    SmpBaseUrl + "/api/Providers/" + IntToDecimal(idProvider)
  }

  function MaterialsUrl(idCompany: int): string {
    WarehouseBaseUrl + "/api/Material/2fields?idCompany=" + IntToDecimal(idCompany)
  }

  /**
   * Company data for a document with `idCompany`, then, only when that came
   * back, the three images named by string properties of it, the second logo
   * falling back to the first.
   */
  function FetchBranding(document: map<string, Json>, up: Upstream): (r: Stage<Branding>)
    ensures "idCompany" !in document ==> r == Stage(Some(NoBranding), [])
    ensures r.value.Some? && r.value.value.companyData.None? ==> r.value.value == NoBranding
  {
    if "idCompany" !in document then Stage(Some(NoBranding), [])
    else match GetInt32(document["idCompany"])
      case None => Stage(None, [])
      case Some(idCompany) =>
        var url := CompanyUrl(idCompany);
        var company := FetchJson(up, url);
        if company.None? then Stage(Some(NoBranding), [GetJson(url)])
        else if !company.value.JObject? then Stage(None, [GetJson(url)])
        else
          var fields := company.value.fields;
          var (logo, f1) := FetchImage(up, StringProperty(fields, "picture"));
          var (logo2, f2) := FetchImage(up, StringProperty(fields, "picture2"));
          var (watermark, f3) := FetchImage(up, StringProperty(fields, "picture3"));
          Stage(Some(Branding(company, logo, if logo2.Some? then logo2 else logo, watermark)),
                [GetJson(url)] + f1 + f2 + f3)
  }

  /** Provider data, fetched only for a positive `idProvider`. */
  function FetchProvider(document: map<string, Json>, up: Upstream): Stage<Option<Json>>
  {
    if "idProvider" !in document then Stage(Some(None), [])
    else match GetInt32(document["idProvider"])
      case None => Stage(None, [])
      case Some(idProvider) =>
        if idProvider > 0 then Stage(Some(FetchJson(up, ProviderUrl(idProvider))), [GetJson(ProviderUrl(idProvider))])
        else Stage(Some(None), [])
  }

  /** Material descriptions, fetched only for order and requisition documents with `idCompany`. */
  function FetchMaterials(upperCode: string, document: map<string, Json>, up: Upstream): Stage<Option<Json>>
  {
    if !(IsOrderCode(upperCode) && "idCompany" in document) then Stage(Some(None), [])
    else match GetInt32(document["idCompany"])
      case None => Stage(None, [])
      case Some(idCompany) => Stage(Some(FetchJson(up, MaterialsUrl(idCompany))), [GetJson(MaterialsUrl(idCompany))])
  }

  /** The composite view of a document. */
  datatype Aggregate = Aggregate(
    document: Json,
    details: Option<Json>,
    companyData: Option<Json>,
    providerData: Option<Json>,
    materials: Option<Json>,
    logoBase64: Option<string>,
    logo2Base64: Option<string>,
    watermarkBase64: Option<string>)

  /** The aggregate (or none) and every request issued, in order. */
  datatype Fetched = Fetched(data: Option<Aggregate>, fetches: seq<Fetch>)

  /**
   * `GetDocumentDataAsync`: an unrouted code issues no request; a routed one
   * always requests its primary document first, and data is produced only
   * from a primary document that is a JSON object. The `microservice`
   * argument is accepted and not used, as in the service.
   */
  function GetDocumentData(microservice: string, baseUrl: string, documentCode: string, documentId: int,
                           up: Upstream): (r: Fetched)
    ensures r.fetches == [] <==> RouteFor(documentCode, baseUrl, documentId).None?
    ensures r.fetches != [] ==> r.fetches[0] == GetJson(RouteFor(documentCode, baseUrl, documentId).value.document)
    ensures r.data.Some? ==> r.data.value.document.JObject?
  {
    match RouteFor(documentCode, baseUrl, documentId)
    case None => Fetched(None, [])
    case Some(endpoints) =>
      var document := FetchJson(up, endpoints.document);
      var f0 := [GetJson(endpoints.document)];
      if document.None? then Fetched(None, f0)
      else
        var (details, f1) :=
          if endpoints.details.Some? && endpoints.details.value != "" then
            (FetchJson(up, endpoints.details.value), [GetJson(endpoints.details.value)])
          else (None, []);
        if !document.value.JObject? then Fetched(None, f0 + f1)
        else
          var fields := document.value.fields;
          var branding := FetchBranding(fields, up);
          if branding.value.None? then Fetched(None, f0 + f1 + branding.fetches)
          else
            var provider := FetchProvider(fields, up);
            if provider.value.None? then Fetched(None, f0 + f1 + branding.fetches + provider.fetches)
            else
              var materials := FetchMaterials(ToUpperAscii(documentCode), fields, up);
              var fetches := f0 + f1 + branding.fetches + provider.fetches + materials.fetches;
              if materials.value.None? then Fetched(None, fetches)
              else
                var b := branding.value.value;
                Fetched(Some(Aggregate(document.value, details, b.companyData, provider.value.value,
                                       materials.value.value, b.logo, b.logo2, b.watermark)),
                        fetches)
  }

  /** The primary document, when the code is routed and its fetch succeeds. */
  function PrimaryDocument(baseUrl: string, documentCode: string, documentId: int, up: Upstream): Option<Json> {
    match RouteFor(documentCode, baseUrl, documentId)
    case None => None
    case Some(endpoints) => FetchJson(up, endpoints.document)
  }

  /** An unrouted code gives no data and issues no request. */
  lemma UnknownCodeFetchesNothing(microservice: string, baseUrl: string, documentCode: string, documentId: int, up: Upstream)
    requires RouteFor(documentCode, baseUrl, documentId).None?
    ensures GetDocumentData(microservice, baseUrl, documentCode, documentId, up) == Fetched(None, [])
  {
  }

  /** Without the primary document there is no data at all, whatever else could be fetched. */
  lemma NoPrimaryNoData(microservice: string, baseUrl: string, documentCode: string, documentId: int, up: Upstream)
    ensures PrimaryDocument(baseUrl, documentCode, documentId, up).None?
        ==> GetDocumentData(microservice, baseUrl, documentCode, documentId, up).data.None?
    ensures GetDocumentData(microservice, baseUrl, documentCode, documentId, up).data.Some?
        ==> Some(GetDocumentData(microservice, baseUrl, documentCode, documentId, up).data.value.document)
            == PrimaryDocument(baseUrl, documentCode, documentId, up)
  {
  }

  /** Whether the id property, when present, can be read as a 32-bit integer. */
  predicate ReadableId(document: map<string, Json>, name: string) {
    name in document ==> GetInt32(document[name]).Some?
  }

  /**
   * Failures of secondary fetches never cost the result: a routed primary
   * document that is an object whose id properties are readable always yields
   * data, whatever the company, image, provider, detail and material
   * services answer.
   */
  lemma SecondaryFailuresTolerated(microservice: string, baseUrl: string, documentCode: string, documentId: int, up: Upstream)
    requires PrimaryDocument(baseUrl, documentCode, documentId, up).Some?
    requires PrimaryDocument(baseUrl, documentCode, documentId, up).value.JObject?
    requires var fields := PrimaryDocument(baseUrl, documentCode, documentId, up).value.fields;
      ReadableId(fields, "idCompany") && ReadableId(fields, "idProvider")
    requires "idCompany" in PrimaryDocument(baseUrl, documentCode, documentId, up).value.fields ==>
      var company := FetchJson(up, CompanyUrl(GetInt32(PrimaryDocument(baseUrl, documentCode, documentId, up).value.fields["idCompany"]).value));
      company.None? || company.value.JObject?
    ensures GetDocumentData(microservice, baseUrl, documentCode, documentId, up).data.Some?
  {
  }

  /** Images are requested only after company data came back as an object. */
  lemma ImagesNeedCompany(document: map<string, Json>, up: Upstream)
    ensures var r := FetchBranding(document, up);
      (exists k :: 0 <= k < |r.fetches| && r.fetches[k].GetImage?) ==>
        && "idCompany" in document
        && GetInt32(document["idCompany"]).Some?
        && var company := FetchJson(up, CompanyUrl(GetInt32(document["idCompany"]).value));
           company.Some? && company.value.JObject? && r.value.Some? && r.value.value.companyData == company
  {
  }

  /** The second logo is its own image when that came back, otherwise the first logo. */
  lemma SecondLogoFallsBack(document: map<string, Json>, up: Upstream)
    requires "idCompany" in document && GetInt32(document["idCompany"]).Some?
    requires var company := FetchJson(up, CompanyUrl(GetInt32(document["idCompany"]).value));
      company.Some? && company.value.JObject?
    ensures var r := FetchBranding(document, up);
      var fields := FetchJson(up, CompanyUrl(GetInt32(document["idCompany"]).value)).value.fields;
      var logo := FetchImage(up, StringProperty(fields, "picture")).0;
      var logo2 := FetchImage(up, StringProperty(fields, "picture2")).0;
      && r.value.Some?
      && r.value.value.logo == logo
      && r.value.value.logo2 == (if logo2.Some? then logo2 else logo)
  {
  }

  /** Provider data exists only for a positive provider id; materials only for orders and requisitions with a company. */
  lemma SecondaryFetchConditions(microservice: string, baseUrl: string, documentCode: string, documentId: int, up: Upstream)
    ensures var r := GetDocumentData(microservice, baseUrl, documentCode, documentId, up);
      r.data.Some? ==>
        && r.data.value.document.JObject?
        && var fields := r.data.value.document.fields;
           && (r.data.value.providerData.Some? ==>
                 "idProvider" in fields && GetInt32(fields["idProvider"]).Some? && GetInt32(fields["idProvider"]).value > 0)
           && (r.data.value.materials.Some? ==> IsOrderCode(ToUpperAscii(documentCode)) && "idCompany" in fields)
           && (r.data.value.companyData.Some? ==> "idCompany" in fields)
           && (r.data.value.details.Some? ==> IsOrderCode(ToUpperAscii(documentCode)))
  {
  }
  /** The line-item endpoint of order and requisition documents. */
  function DetailsUrl(documentId: int): string {
    WarehouseBaseUrl + "/api/Detailsreqoc/" + IntToDecimal(documentId)
  }

  /**
   * How the optional parts compose: whenever there is data, the document is
   * the primary fetch, the details are the line-item fetch exactly for orders
   * and requisitions, the company data and the three images are those of the
   * branding stage, the provider data is the provider fetch exactly for a
   * positive `idProvider`, and the materials are the materials fetch exactly
   * for orders and requisitions with `idCompany`; otherwise each is null.
   */
  lemma AggregateFields(microservice: string, baseUrl: string, documentCode: string, documentId: int, up: Upstream)
    ensures var r := GetDocumentData(microservice, baseUrl, documentCode, documentId, up);
      r.data.Some? ==>
        var a := r.data.value;
        var order := IsOrderCode(ToUpperAscii(documentCode));
        && RouteFor(documentCode, baseUrl, documentId).Some?
        && Some(a.document) == FetchJson(up, RouteFor(documentCode, baseUrl, documentId).value.document)
        && a.details == (if order then FetchJson(up, DetailsUrl(documentId)) else None)
        && a.document.JObject?
        && var fields := a.document.fields;
           && FetchBranding(fields, up).value.Some?
           && a.companyData == FetchBranding(fields, up).value.value.companyData
           && a.logoBase64 == FetchBranding(fields, up).value.value.logo
           && a.logo2Base64 == FetchBranding(fields, up).value.value.logo2
           && a.watermarkBase64 == FetchBranding(fields, up).value.value.watermark
           && ("idProvider" in fields ==> GetInt32(fields["idProvider"]).Some?)
           && ("idCompany" in fields ==> GetInt32(fields["idCompany"]).Some?)
           && a.providerData == (if "idProvider" in fields && GetInt32(fields["idProvider"]).value > 0
                                 then FetchJson(up, ProviderUrl(GetInt32(fields["idProvider"]).value)) else None)
           && a.materials == (if order && "idCompany" in fields
                              then FetchJson(up, MaterialsUrl(GetInt32(fields["idCompany"]).value)) else None)
  {
  }

  /**
   * The requests behind an aggregate, in order: the primary document, the
   * line items for orders and requisitions, the branding requests, the
   * provider only for a positive `idProvider`, and the materials only for
   * orders and requisitions with `idCompany`.
   */
  lemma AggregateFetches(microservice: string, baseUrl: string, documentCode: string, documentId: int, up: Upstream)
    ensures var r := GetDocumentData(microservice, baseUrl, documentCode, documentId, up);
      r.data.Some? ==>
        var order := IsOrderCode(ToUpperAscii(documentCode));
        && RouteFor(documentCode, baseUrl, documentId).Some?
        && r.data.value.document.JObject?
        && var fields := r.data.value.document.fields;
           && ("idProvider" in fields ==> GetInt32(fields["idProvider"]).Some?)
           && ("idCompany" in fields ==> GetInt32(fields["idCompany"]).Some?)
           && r.fetches
              == [GetJson(RouteFor(documentCode, baseUrl, documentId).value.document)]
                 + (if order then [GetJson(DetailsUrl(documentId))] else [])
                 + FetchBranding(fields, up).fetches
                 + (if "idProvider" in fields && GetInt32(fields["idProvider"]).value > 0
                    then [GetJson(ProviderUrl(GetInt32(fields["idProvider"]).value))] else [])
                 + (if order && "idCompany" in fields
                    then [GetJson(MaterialsUrl(GetInt32(fields["idCompany"]).value))] else [])
  {
  }
}
