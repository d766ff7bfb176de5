/** The three request builders of the node: payment view, payment
    registration and invoice creation. Each turns one item's resolved
    parameters into the method, URL, headers and JSON body handed to the
    transport. Each body has a decoder that recovers exactly what the body
    retains of the parameters. */
module Requests {

  import opened Wrappers
  import opened JsonValues
  import opened Parameters
  import opened Lists
  import opened LineItems
  import opened Metadata

  datatype Method = Get | Post

  /** The options object passed to the host's request helper; `verb` is its
      `method` field and `json` the flag asking the helper to serialise the
      body and parse the reply. */
  datatype Request = Request(
    verb: Method,
    url: string,
    headers: map<string, string>,
    body: Option<Json>,
    json: bool)

  const BaseUrl: string := "https://gigstack-cfdi-bjekv7t4.uc.gateway.dev"
  const PaymentViewUrlPrefix: string := BaseUrl + "/v1/payments/view?id="
  const PaymentRegisterUrl: string := BaseUrl + "/v1/payments/register"
  const InvoiceCreateUrl: string := BaseUrl + "/v1/invoices/create"

  const BearerPrefix: string := "Bearer "

  // ------------------------------------------------------------- headers

  /** The API key carried by an `Authorization` header value. */
  function BearerToken(header: string): Option<string> {
    if |BearerPrefix| <= |header| && header[..|BearerPrefix|] == BearerPrefix
    then Some(header[|BearerPrefix|..])
    else None
  }

  /** `Bearer <apiKey>`, from which the key is recovered unchanged. */
  function BearerHeader(apiKey: string): (r: string)
    ensures BearerToken(r) == Some(apiKey)
  {
    var r := BearerPrefix + apiKey;
    assert r[..|BearerPrefix|] == BearerPrefix;
    r
  }

  /** The headers of the two POST requests. */
  function JsonHeaders(apiKey: string): (r: map<string, string>)
    ensures r.Keys == {"Content-Type", "Authorization"}
    ensures r["Content-Type"] == "application/json"
    ensures BearerToken(r["Authorization"]) == Some(apiKey)
  {
    map["Content-Type" := "application/json", "Authorization" := BearerHeader(apiKey)]
  }

  // --------------------------------------------------------- payment get

  /** The payment id carried by a view URL. */
  function ViewedPaymentId(url: string): Option<string> {
    if |PaymentViewUrlPrefix| <= |url| && url[..|PaymentViewUrlPrefix|] == PaymentViewUrlPrefix
    then Some(url[|PaymentViewUrlPrefix|..])
    else None
  }

  /** The view URL: the fixed prefix followed by the id, with no escaping,
      so the id is recovered from the URL character for character. */
  function PaymentViewUrl(paymentId: string): (r: string)
    ensures |r| == |PaymentViewUrlPrefix| + |paymentId|
    ensures ViewedPaymentId(r) == Some(paymentId)
  {
    var r := PaymentViewUrlPrefix + paymentId;
    assert r[..|PaymentViewUrlPrefix|] == PaymentViewUrlPrefix;
    r
  }

  /** A bodiless GET of the view URL, authorised by the bearer key alone. */
  function BuildPaymentGet(apiKey: string, p: PaymentGetParams): (r: Request)
    ensures r.verb == Get && r.json && r.body.None?
    ensures ViewedPaymentId(r.url) == Some(p.paymentId)
    ensures r.headers.Keys == {"Authorization"}
    ensures BearerToken(r.headers["Authorization"]) == Some(apiKey)
  {
    Request(Get, PaymentViewUrl(p.paymentId), map["Authorization" := BearerHeader(apiKey)], None, true)
  }

  /** Two view requests are equal exactly when their ids and keys are. */
  lemma PaymentGetEqualIff(k1: string, p1: PaymentGetParams, k2: string, p2: PaymentGetParams)
    ensures BuildPaymentGet(k1, p1) == BuildPaymentGet(k2, p2) <==> k1 == k2 && p1 == p2
  {
    if BuildPaymentGet(k1, p1) == BuildPaymentGet(k2, p2) {
      assert ViewedPaymentId(BuildPaymentGet(k1, p1).url) == Some(p1.paymentId);
      assert BearerToken(BuildPaymentGet(k1, p1).headers["Authorization"]) == Some(k1);
    }
  }

  // ---------------------------------------------------- payment register

  const RegisterBodyKeys: set<string> :=
    {"paid", "items", "currency", "paymentMethod", "automateInvoiceOnComplete", "clientId", "email"}

  /** What of the registration parameters reaches the body. */
  datatype RegisterBodyView = RegisterBodyView(
    paid: bool,
    items: seq<RegisterItemView>,
    currency: string,
    paymentMethod: string,
    automateInvoiceOnComplete: bool,
    clientId: string,
    email: string)

  function RegisterBodyViewOf(p: PaymentRegisterParams): RegisterBodyView {
    RegisterBodyView(p.paid, MapSeq(RegisterItemViewOf, p.items.GetOr([])), p.currency,
                     p.paymentMethod, p.automateInvoiceOnComplete, p.clientId, p.email)
  }

  function ParseRegisterBody(j: Json): Option<RegisterBodyView> {
    if j.Obj? && j.fields.Keys == RegisterBodyKeys
       && j.fields["paid"].Bool? && j.fields["items"].Arr? && j.fields["currency"].Str?
       && j.fields["paymentMethod"].Str? && j.fields["automateInvoiceOnComplete"].Bool?
       && j.fields["clientId"].Str? && j.fields["email"].Str?
       && ParseSeq(ParseRegisterItem, j.fields["items"].elems).Some?
    then Some(RegisterBodyView(
      j.fields["paid"].b, ParseSeq(ParseRegisterItem, j.fields["items"].elems).value,
      j.fields["currency"].s, j.fields["paymentMethod"].s,
      j.fields["automateInvoiceOnComplete"].b, j.fields["clientId"].s, j.fields["email"].s))
    else None
  }

  /** The registration body: always all seven keys, even when the client id
      or email is empty; the payment method is forwarded verbatim whatever
      its value; items keep their number and order. */
  function RegisterBody(p: PaymentRegisterParams): (r: Json)
    ensures r.Obj? && r.fields.Keys == RegisterBodyKeys
    ensures r.fields["paymentMethod"] == Str(p.paymentMethod)
    ensures r.fields["clientId"] == Str(p.clientId) && r.fields["email"] == Str(p.email)
    ensures r.fields["items"].Arr? && |r.fields["items"].elems| == |p.items.GetOr([])|
    ensures ParseRegisterBody(r) == Some(RegisterBodyViewOf(p))
  {
    var items := p.items.GetOr([]);
    RegisterItemsRoundTrip(items);
    Obj(map[
      "paid" := Bool(p.paid),
      "items" := Arr(MapSeq(FormatRegisterItem, items)),
      "currency" := Str(p.currency),
      "paymentMethod" := Str(p.paymentMethod),
      "automateInvoiceOnComplete" := Bool(p.automateInvoiceOnComplete),
      "clientId" := Str(p.clientId),
      "email" := Str(p.email)])
  }

  /** Formatting item lists agrees whenever the item views agree. */
  lemma {:induction false} FormatRegisterItemsOfEqualViews(a: seq<RegisterItem>, b: seq<RegisterItem>)
    requires MapSeq(RegisterItemViewOf, a) == MapSeq(RegisterItemViewOf, b)
    ensures MapSeq(FormatRegisterItem, a) == MapSeq(FormatRegisterItem, b)
  {
    forall i | 0 <= i < |a| ensures FormatRegisterItem(a[i]) == FormatRegisterItem(b[i]) {
      assert MapSeq(RegisterItemViewOf, a)[i] == MapSeq(RegisterItemViewOf, b)[i];
      RegisterItemFormatEqualIff(a[i], b[i]);
    }
  }

  /** Two registrations produce the same body exactly when they agree on
      what the body retains: a missing item list equals an empty one, and
      items differ only through their views. */
  lemma RegisterBodyEqualIff(p: PaymentRegisterParams, q: PaymentRegisterParams)
    ensures RegisterBody(p) == RegisterBody(q) <==> RegisterBodyViewOf(p) == RegisterBodyViewOf(q)
  {
    if RegisterBodyViewOf(p) == RegisterBodyViewOf(q) {
      FormatRegisterItemsOfEqualViews(p.items.GetOr([]), q.items.GetOr([]));
    }
  }

  /** A JSON POST of the registration body to the register endpoint. */
  function BuildPaymentRegister(apiKey: string, p: PaymentRegisterParams): (r: Request)
    ensures r.verb == Post && r.url == PaymentRegisterUrl && r.json
    ensures r.headers == JsonHeaders(apiKey)
    ensures r.body.Some? && ParseRegisterBody(r.body.value) == Some(RegisterBodyViewOf(p))
  {
    Request(Post, PaymentRegisterUrl, JsonHeaders(apiKey), Some(RegisterBody(p)), true)
  }

  // ------------------------------------------------------ invoice create

  const InvoiceBaseKeys: set<string> :=
    {"returnFilesUrls", "use", "series", "payment_form", "type", "relation", "emails",
     "related", "invoiceType", "currency", "export", "payment_method", "items", "metadata"}

  const ClientKeys: set<string> := {"rfc", "legal_name", "tax_system", "bcc", "address"}

  const CreateInvoiceType: string := "create_invoice"

  /** How the invoice names its client. */
  datatype ClientView =
    | EmbeddedClient(rfc: string, legalName: string, taxSystem: string, zip: string, country: string)
    | ClientReference(id: Option<string>)

  /** What of the invoice parameters reaches the body. */
  datatype InvoiceBodyView = InvoiceBodyView(
    returnFilesUrls: bool,
    use: string,
    series: string,
    paymentForm: string,
    invoiceType: string,
    currency: string,
    paymentMethod: string,
    emails: seq<string>,
    items: seq<InvoiceItemView>,
    metadata: map<string, string>,
    client: ClientView)

  /** The client a set of invoice parameters designates: the embedded object
      (zip defaulting to empty) when `useClientObject` holds, otherwise the
      client id if it is non-empty. */
  function ClientViewOf(p: InvoiceCreateParams): ClientView {
    if p.useClientObject then
      EmbeddedClient(p.clientRfc, p.clientLegalName, p.clientTaxSystem, p.clientZipCode.GetOr(""), p.clientCountry)
    else if p.clientId.GetOr("") != "" then ClientReference(Some(p.clientId.value))
    else ClientReference(None)
  }

  function InvoiceBodyViewOf(p: InvoiceCreateParams): InvoiceBodyView {
    InvoiceBodyView(
      p.returnFilesUrls, p.use, p.series, p.paymentForm, p.invoiceType, p.currency,
      p.paymentMethod, p.emails.GetOr([]), MapSeq(InvoiceItemViewOf, p.invoiceItems.GetOr([])),
      FoldMetadata(p.metadata.GetOr([])), ClientViewOf(p))
  }

  function StrJson(s: string): Json {
    Str(s)
  }

  function ParseStr(j: Json): Option<string> {
    if j.Str? then Some(j.s) else None
  }

  /** A string-valued mapping as a JSON object. */
  function MetadataJson(m: map<string, string>): (r: Json)
    ensures r.Obj? && r.fields.Keys == m.Keys
  {
    Obj(map k | k in m :: Str(m[k]))
  }

  function ParseMetadata(j: Json): Option<map<string, string>> {
    if j.Obj? && forall k :: k in j.fields ==> j.fields[k].Str?
    then Some(map k | k in j.fields :: j.fields[k].s)
    else None
  }

  function ParseClientObject(j: Json): Option<ClientView> {
    if j.Obj? && j.fields.Keys == ClientKeys
       && j.fields["rfc"].Str? && j.fields["legal_name"].Str?
       && j.fields["tax_system"].Obj? && j.fields["tax_system"].fields.Keys == {"label", "value"}
       && j.fields["tax_system"].fields["label"] == Str("")
       && j.fields["tax_system"].fields["value"].Str?
       && j.fields["bcc"] == Arr([])
       && j.fields["address"].Obj? && j.fields["address"].fields.Keys == {"zip", "country"}
       && j.fields["address"].fields["zip"].Str? && j.fields["address"].fields["country"].Str?
    then Some(EmbeddedClient(
      j.fields["rfc"].s, j.fields["legal_name"].s, j.fields["tax_system"].fields["value"].s,
      j.fields["address"].fields["zip"].s, j.fields["address"].fields["country"].s))
    else None
  }

  /** The embedded client object: its tax-system label is always empty and
      its copy list always empty, whatever the parameters. */
  function ClientObject(p: InvoiceCreateParams): (r: Json)
    ensures r.Obj? && r.fields.Keys == ClientKeys
    ensures r.fields["tax_system"].Obj? && "label" in r.fields["tax_system"].fields
    ensures r.fields["tax_system"].fields["label"] == Str("")
    ensures r.fields["bcc"] == Arr([])
    ensures ParseClientObject(r)
            == Some(EmbeddedClient(p.clientRfc, p.clientLegalName, p.clientTaxSystem,
                                   p.clientZipCode.GetOr(""), p.clientCountry))
  {
    Obj(map[
      "rfc" := Str(p.clientRfc),
      "legal_name" := Str(p.clientLegalName),
      "tax_system" := Obj(map["label" := Str(""), "value" := Str(p.clientTaxSystem)]),
      "bcc" := Arr([]),
      "address" := Obj(map["zip" := Str(p.clientZipCode.GetOr("")), "country" := Str(p.clientCountry)])])
  }

  function ParseInvoiceClient(f: map<string, Json>): Option<ClientView> {
    if "client" in f && "clientId" !in f then ParseClientObject(f["client"])
    else if "client" !in f && "clientId" in f then
      (if f["clientId"].Str? && f["clientId"].s != "" then Some(ClientReference(Some(f["clientId"].s))) else None)
    else if "client" !in f && "clientId" !in f then Some(ClientReference(None))
    else None
  }

  /** The part of `f` whose keys lie in `keys`. */
  function Restrict(f: map<string, Json>, keys: set<string>): (r: map<string, Json>)
    ensures r.Keys == f.Keys * keys
    ensures forall k :: k in r ==> r[k] == f[k]
  {
    map k | k in f && k in keys :: f[k]
  }

  /** Decodes the keys every invoice body carries; the client is filled in
      by `ParseInvoiceClient`. */
  function ParseInvoiceBase(f: map<string, Json>): Option<InvoiceBodyView> {
    if InvoiceBaseKeys <= f.Keys
       && f["returnFilesUrls"].Bool? && f["use"].Str? && f["series"].Str?
       && f["payment_form"].Str? && f["type"] == Str(CreateInvoiceType)
       && f["relation"] == Null && f["related"] == Null && f["export"] == Null
       && f["emails"].Arr? && f["invoiceType"].Str? && f["currency"].Str?
       && f["payment_method"].Str? && f["items"].Arr?
       && ParseSeq(ParseStr, f["emails"].elems).Some?
       && ParseSeq(ParseInvoiceItem, f["items"].elems).Some?
       && ParseMetadata(f["metadata"]).Some?
    then Some(InvoiceBodyView(
      f["returnFilesUrls"].b, f["use"].s, f["series"].s, f["payment_form"].s,
      f["invoiceType"].s, f["currency"].s, f["payment_method"].s,
      ParseSeq(ParseStr, f["emails"].elems).value,
      ParseSeq(ParseInvoiceItem, f["items"].elems).value,
      ParseMetadata(f["metadata"]).value, ClientReference(None)))
    else None
  }

  function ParseInvoiceBody(j: Json): Option<InvoiceBodyView> {
    if j.Obj? && j.fields.Keys <= InvoiceBaseKeys + {"client", "clientId"} then
      match (ParseInvoiceBase(Restrict(j.fields, InvoiceBaseKeys)), ParseInvoiceClient(j.fields))
      case (Some(v), Some(c)) => Some(v.(client := c))
      case _ => None
    else None
  }

  /** The body before the client is added. */
  function InvoiceBaseBody(p: InvoiceCreateParams): map<string, Json> {
    map[
      "returnFilesUrls" := Bool(p.returnFilesUrls),
      "use" := Str(p.use),
      "series" := Str(p.series),
      "payment_form" := Str(p.paymentForm),
      "type" := Str(CreateInvoiceType),
      "relation" := Null,
      "emails" := Arr(MapSeq(StrJson, p.emails.GetOr([]))),
      "related" := Null,
      "invoiceType" := Str(p.invoiceType),
      "currency" := Str(p.currency),
      "export" := Null,
      "payment_method" := Str(p.paymentMethod),
      "items" := Arr(MapSeq(FormatInvoiceItem, p.invoiceItems.GetOr([]))),
      "metadata" := MetadataJson(FoldMetadata(p.metadata.GetOr([])))]
  }

  /** Adds the client part to a body: the embedded client, or the client
      id when it is non-empty, or nothing. */
  function WithClient(p: InvoiceCreateParams, base: map<string, Json>): map<string, Json> {
    if p.useClientObject then base["client" := ClientObject(p)]
    else if p.clientId.GetOr("") != "" then base["clientId" := Str(p.clientId.value)]
    else base
  }

  /** The body's fields: the base, plus the client part. */
  function InvoiceFields(p: InvoiceCreateParams): map<string, Json> {
    WithClient(p, InvoiceBaseBody(p))
  }

  lemma WithClientFacts(p: InvoiceCreateParams, b: map<string, Json>)
    requires b.Keys == InvoiceBaseKeys
    ensures WithClient(p, b).Keys <= InvoiceBaseKeys + {"client", "clientId"}
    ensures Restrict(WithClient(p, b), InvoiceBaseKeys) == b
    ensures ParseInvoiceClient(WithClient(p, b)) == Some(ClientViewOf(p))
  {
  }

  /** Decoding a base with a client part added decodes the base and the
      client separately. */
  lemma ParseBaseWithClient(b: map<string, Json>, v: InvoiceBodyView, f: map<string, Json>)
    requires ParseInvoiceBase(b) == Some(v)
    requires f.Keys <= InvoiceBaseKeys + {"client", "clientId"} && Restrict(f, InvoiceBaseKeys) == b
    requires ParseInvoiceClient(f).Some?
    ensures ParseInvoiceBody(Obj(f)) == Some(v.(client := ParseInvoiceClient(f).value))
  {
  }

  lemma InvoiceFieldsParse(p: InvoiceCreateParams)
    ensures ParseInvoiceBody(Obj(InvoiceFields(p))) == Some(InvoiceBodyViewOf(p))
  {
    var b := InvoiceBaseBody(p);
    InvoiceBaseKeysExact(p);
    InvoiceBaseRoundTrip(p);
    WithClientFacts(p, b);
    ParseBaseWithClient(b, InvoiceBodyViewOf(p).(client := ClientReference(None)), WithClient(p, b));
  }

  /** Adding the client part changes no base key and adds exactly the
      selected client key. */
  lemma WithClientShape(p: InvoiceCreateParams, b: map<string, Json>)
    requires b.Keys == InvoiceBaseKeys
    ensures WithClient(p, b).Keys == InvoiceBaseKeys
              + (if p.useClientObject then {"client"} else {})
              + (if !p.useClientObject && p.clientId.GetOr("") != "" then {"clientId"} else {})
    ensures forall k :: k in InvoiceBaseKeys ==> WithClient(p, b)[k] == b[k]
  {
  }

  /** The key set and fixed fields of the full body, from those of the base. */
  lemma InvoiceFieldsShape(p: InvoiceCreateParams)
    ensures InvoiceFields(p).Keys == InvoiceBaseKeys
              + (if p.useClientObject then {"client"} else {})
              + (if !p.useClientObject && p.clientId.GetOr("") != "" then {"clientId"} else {})
    ensures InvoiceFields(p)["type"] == Str(CreateInvoiceType)
    ensures InvoiceFields(p)["relation"] == Null
    ensures InvoiceFields(p)["related"] == Null
    ensures InvoiceFields(p)["export"] == Null
    ensures InvoiceFields(p)["emails"] == Arr(MapSeq(StrJson, p.emails.GetOr([])))
  {
    var b := InvoiceBaseBody(p);
    InvoiceBaseKeysExact(p);
    WithClientShape(p, b);
    InvoiceBaseConstants(p);
    InvoiceBaseLists(p);
  }

  /** The invoice body. Whatever the inputs it is of type "create_invoice"
      with null relation, related and export; the emails default to none;
      the scalars are passed through. It holds `client` exactly when
      `useClientObject` is set, and otherwise `clientId` exactly when the id
      is non-empty, equal to that id. */
  function InvoiceBody(p: InvoiceCreateParams): (r: Json)
    ensures r.Obj?
    ensures r.fields.Keys == InvoiceBaseKeys
              + (if p.useClientObject then {"client"} else {})
              + (if !p.useClientObject && p.clientId.GetOr("") != "" then {"clientId"} else {})
    ensures r.fields["type"] == Str(CreateInvoiceType)
    ensures r.fields["relation"] == Null && r.fields["related"] == Null && r.fields["export"] == Null
    ensures r.fields["emails"] == Arr(MapSeq(StrJson, p.emails.GetOr([])))
    ensures "clientId" in r.fields ==> r.fields["clientId"] == Str(p.clientId.value)
    ensures "client" in r.fields ==> r.fields["client"] == ClientObject(p)
    ensures ParseInvoiceBody(r) == Some(InvoiceBodyViewOf(p))
  {
    InvoiceFieldsParse(p);
    InvoiceFieldsShape(p);
    Obj(InvoiceFields(p))
  }

  /** A JSON POST of the invoice body to the invoice-create endpoint. */
  function BuildInvoiceCreate(apiKey: string, p: InvoiceCreateParams): (r: Request)
    ensures r.verb == Post && r.url == InvoiceCreateUrl && r.json
    ensures r.headers == JsonHeaders(apiKey)
    ensures r.body.Some? && ParseInvoiceBody(r.body.value) == Some(InvoiceBodyViewOf(p))
  {
    Request(Post, InvoiceCreateUrl, JsonHeaders(apiKey), Some(InvoiceBody(p)), true)
  }

  lemma {:induction false} FormatInvoiceItemsOfEqualViews(a: seq<InvoiceItem>, b: seq<InvoiceItem>)
    requires MapSeq(InvoiceItemViewOf, a) == MapSeq(InvoiceItemViewOf, b)
    ensures MapSeq(FormatInvoiceItem, a) == MapSeq(FormatInvoiceItem, b)
  {
    forall i | 0 <= i < |a| ensures FormatInvoiceItem(a[i]) == FormatInvoiceItem(b[i]) {
      assert MapSeq(InvoiceItemViewOf, a)[i] == MapSeq(InvoiceItemViewOf, b)[i];
      InvoiceItemFormatEqualIff(a[i], b[i]);
    }
  }

  lemma WithClientOfEqualViews(p: InvoiceCreateParams, q: InvoiceCreateParams, b: map<string, Json>)
    requires ClientViewOf(p) == ClientViewOf(q)
    ensures WithClient(p, b) == WithClient(q, b)
  {
  }

  /** Two invoice parameter sets produce the same body exactly when they
      agree on what the body retains: missing emails, items or metadata
      equal empty ones, metadata only matters through its fold, and of the
      client fields only those of the selected mode matter. */
  lemma InvoiceBodyEqualIff(p: InvoiceCreateParams, q: InvoiceCreateParams)
    ensures InvoiceBody(p) == InvoiceBody(q) <==> InvoiceBodyViewOf(p) == InvoiceBodyViewOf(q)
  {
    if InvoiceBodyViewOf(p) == InvoiceBodyViewOf(q) {
      FormatInvoiceItemsOfEqualViews(p.invoiceItems.GetOr([]), q.invoiceItems.GetOr([]));
      assert InvoiceBaseBody(p) == InvoiceBaseBody(q);
      WithClientOfEqualViews(p, q, InvoiceBaseBody(p));
    }
  }

  /** With the embedded client selected, the client id parameter has no
      effect on the body. */
  lemma InvoiceBodyIgnoresClientIdWhenEmbedded(p: InvoiceCreateParams, id: Option<string>)
    requires p.useClientObject
    ensures InvoiceBody(p.(clientId := id)) == InvoiceBody(p)
  {
    InvoiceBodyEqualIff(p.(clientId := id), p);
  }

  /** With the client id selected, none of the embedded-client parameters
      has an effect on the body. */
  lemma InvoiceBodyIgnoresClientObjectWhenReferenced(
    p: InvoiceCreateParams, rfc: string, legalName: string, taxSystem: string,
    zip: Option<string>, country: string)
    requires !p.useClientObject
    ensures InvoiceBody(p.(clientRfc := rfc, clientLegalName := legalName, clientTaxSystem := taxSystem,
                           clientZipCode := zip, clientCountry := country))
            == InvoiceBody(p)
  {
    var q := p.(clientRfc := rfc, clientLegalName := legalName, clientTaxSystem := taxSystem,
                clientZipCode := zip, clientCountry := country);
    InvoiceBodyEqualIff(q, p);
  }

  lemma EmailsRoundTrip(es: seq<string>)
    ensures ParseSeq(ParseStr, MapSeq(StrJson, es)) == Some(es)
  {
    ParseSeqOfMapSeq(StrJson, ParseStr, (s: string) => s, es);
    assert MapSeq((s: string) => s, es) == es;
  }

  lemma MetadataJsonRoundTrip(m: map<string, string>)
    ensures ParseMetadata(MetadataJson(m)) == Some(m)
  {
    var j := MetadataJson(m);
    assert forall k :: k in j.fields ==> j.fields[k] == Str(m[k]);
    var r := map k | k in j.fields :: j.fields[k].s;
    assert r == m;
  }

  lemma InvoiceBaseKeysExact(p: InvoiceCreateParams)
    ensures InvoiceBaseBody(p).Keys == InvoiceBaseKeys
  {
  }

  /** The parameters the base body forwards verbatim. */
  lemma InvoiceBaseScalars(p: InvoiceCreateParams)
    ensures InvoiceBaseBody(p)["returnFilesUrls"] == Bool(p.returnFilesUrls)
    ensures InvoiceBaseBody(p)["use"] == Str(p.use)
    ensures InvoiceBaseBody(p)["series"] == Str(p.series)
    ensures InvoiceBaseBody(p)["payment_form"] == Str(p.paymentForm)
    ensures InvoiceBaseBody(p)["invoiceType"] == Str(p.invoiceType)
    ensures InvoiceBaseBody(p)["currency"] == Str(p.currency)
    ensures InvoiceBaseBody(p)["payment_method"] == Str(p.paymentMethod)
  {
  }

  /** The fields the base body fixes whatever the parameters. */
  lemma InvoiceBaseConstants(p: InvoiceCreateParams)
    ensures InvoiceBaseBody(p)["type"] == Str(CreateInvoiceType)
    ensures InvoiceBaseBody(p)["relation"] == Null
    ensures InvoiceBaseBody(p)["related"] == Null
    ensures InvoiceBaseBody(p)["export"] == Null
  {
  }

  lemma InvoiceBaseLists(p: InvoiceCreateParams)
    ensures InvoiceBaseBody(p)["emails"] == Arr(MapSeq(StrJson, p.emails.GetOr([])))
    ensures InvoiceBaseBody(p)["items"] == Arr(MapSeq(FormatInvoiceItem, p.invoiceItems.GetOr([])))
    ensures InvoiceBaseBody(p)["metadata"] == MetadataJson(FoldMetadata(p.metadata.GetOr([])))
  {
  }

  lemma InvoiceBaseRoundTrip(p: InvoiceCreateParams)
    ensures ParseInvoiceBase(InvoiceBaseBody(p)) == Some(InvoiceBodyViewOf(p).(client := ClientReference(None)))
  {
    EmailsRoundTrip(p.emails.GetOr([]));
    InvoiceItemsRoundTrip(p.invoiceItems.GetOr([]));
    MetadataJsonRoundTrip(FoldMetadata(p.metadata.GetOr([])));
    InvoiceBaseKeysExact(p);
    InvoiceBaseScalars(p);
    InvoiceBaseConstants(p);
    InvoiceBaseLists(p);
  }
}
