/** Formatting of line items and their tax rules into the JSON the billing
    API receives, as done for registered payments and for invoices. Each
    formatter has a decoder that recovers exactly what the body retains. */
module LineItems {

  import opened Wrappers
  import opened JsonValues
  import opened Parameters
  import opened Lists

  const TaxKeys: set<string> := {"factor", "inclusive", "rate", "type", "withholding"}

  const RegisterItemKeys: set<string> :=
    {"description", "discount", "product_key", "unit_key", "unit_name", "quantity", "amount"}

  const InvoiceItemKeys: set<string> :=
    {"name", "description", "quantity", "total", "product_key", "unit_key", "unit_name"}

  /** What of a register item reaches the body: its seven scalar fields and
      its effective tax list. */
  datatype RegisterItemView = RegisterItemView(
    description: string,
    discount: Number,
    productKey: string,
    unitKey: string,
    unitName: string,
    quantity: Number,
    amount: Number,
    taxes: seq<Tax>)

  /** What of an invoice item reaches the body. */
  datatype InvoiceItemView = InvoiceItemView(
    name: string,
    description: string,
    quantity: Number,
    total: Number,
    productKey: string,
    unitKey: string,
    unitName: string,
    taxes: seq<Tax>)

  function RegisterItemViewOf(item: RegisterItem): RegisterItemView {
    RegisterItemView(item.description, item.discount, item.productKey, item.unitKey,
                     item.unitName, item.quantity, item.amount, TaxList(item.taxes))
  }

  function InvoiceItemViewOf(item: InvoiceItem): InvoiceItemView {
    InvoiceItemView(item.name, item.description, item.quantity, item.total,
                    item.productKey, item.unitKey, item.unitName, TaxList(item.taxes))
  }

  // ---------------------------------------------------------------- taxes

  /** Decodes one tax object: exactly the five keys, each of its JSON type. */
  function ParseTax(j: Json): Option<Tax> {
    if j.Obj? && j.fields.Keys == TaxKeys
       && j.fields["factor"].Str? && j.fields["inclusive"].Bool? && j.fields["rate"].Num?
       && j.fields["type"].Str? && j.fields["withholding"].Bool?
    then Some(Tax(j.fields["factor"].s, j.fields["inclusive"].b, j.fields["rate"].n,
                  j.fields["type"].s, j.fields["withholding"].b))
    else None
  }

  /** One tax rule as sent: exactly factor, inclusive, rate, type and
      withholding, each copied unchanged. */
  function FormatTax(t: Tax): (r: Json)
    ensures r.Obj? && r.fields.Keys == TaxKeys
    ensures ParseTax(r) == Some(t)
  {
    Obj(map["factor" := Str(t.factor), "inclusive" := Bool(t.inclusive), "rate" := Num(t.rate),
            "type" := Str(t.taxType), "withholding" := Bool(t.withholding)])
  }

  /** The value of an item's `taxes` key, or `None` when the key is left
      out: only a present, non-empty tax list is sent, mapped rule by rule in
      order. */
  function FormatTaxes(g: Option<TaxGroup>): (r: Option<Json>)
    ensures r.None? <==> |TaxList(g)| == 0
    ensures r.Some? ==> r.value.Arr? && |r.value.elems| == |TaxList(g)|
    ensures r.Some? ==> forall i :: 0 <= i < |TaxList(g)| ==> ParseTax(r.value.elems[i]) == Some(TaxList(g)[i])
  {
    if g.Some? && g.value.taxesValues.Some? && |g.value.taxesValues.value| > 0
    then Some(Arr(MapSeq(FormatTax, g.value.taxesValues.value)))
    else None
  }

  /** Decodes the optional `taxes` key of an item object: absent means no
      rules, present must be a non-empty list of tax objects. */
  function ParseTaxesField(f: map<string, Json>): Option<seq<Tax>> {
    if "taxes" !in f then Some([])
    else if f["taxes"].Arr? && |f["taxes"].elems| > 0 then ParseSeq(ParseTax, f["taxes"].elems)
    else None
  }

  lemma TaxesFieldRoundTrip(g: Option<TaxGroup>, base: map<string, Json>)
    requires "taxes" !in base
    ensures ParseTaxesField(match FormatTaxes(g) case Some(ts) => base["taxes" := ts] case None => base)
            == Some(TaxList(g))
  {
    if FormatTaxes(g).Some? {
      ParseSeqOfMapSeq(FormatTax, ParseTax, (t: Tax) => t, TaxList(g));
      assert MapSeq((t: Tax) => t, TaxList(g)) == TaxList(g);
    }
  }

  // ------------------------------------------------------- register items

  function ParseRegisterItem(j: Json): Option<RegisterItemView> {
    if j.Obj? && RegisterItemKeys <= j.fields.Keys <= RegisterItemKeys + {"taxes"}
       && j.fields["description"].Str? && j.fields["discount"].Num?
       && j.fields["product_key"].Str? && j.fields["unit_key"].Str? && j.fields["unit_name"].Str?
       && j.fields["quantity"].Num? && j.fields["amount"].Num?
       && ParseTaxesField(j.fields).Some?
    then Some(RegisterItemView(
      j.fields["description"].s, j.fields["discount"].n, j.fields["product_key"].s,
      j.fields["unit_key"].s, j.fields["unit_name"].s, j.fields["quantity"].n,
      j.fields["amount"].n, ParseTaxesField(j.fields).value))
    else None
  }

  /** A register line item as sent: exactly its seven scalar fields, plus
      `taxes` precisely when its tax list is non-empty; decoding gives back
      the item's fields and effective tax list. */
  function FormatRegisterItem(item: RegisterItem): (r: Json)
    ensures r.Obj?
    ensures r.fields.Keys == RegisterItemKeys + (if |TaxList(item.taxes)| > 0 then {"taxes"} else {})
    ensures ParseRegisterItem(r) == Some(RegisterItemViewOf(item))
  {
    var base := map[
      "description" := Str(item.description),
      "discount" := Num(item.discount),
      "product_key" := Str(item.productKey),
      "unit_key" := Str(item.unitKey),
      "unit_name" := Str(item.unitName),
      "quantity" := Num(item.quantity),
      "amount" := Num(item.amount)];
    TaxesFieldRoundTrip(item.taxes, base);
    match FormatTaxes(item.taxes)
    case Some(ts) => Obj(base["taxes" := ts])
    case None => Obj(base)
  }

  // -------------------------------------------------------- invoice items

  function ParseInvoiceItem(j: Json): Option<InvoiceItemView> {
    if j.Obj? && InvoiceItemKeys <= j.fields.Keys <= InvoiceItemKeys + {"taxes"}
       && j.fields["name"].Str? && j.fields["description"].Str?
       && j.fields["quantity"].Num? && j.fields["total"].Num?
       && j.fields["product_key"].Str? && j.fields["unit_key"].Str? && j.fields["unit_name"].Str?
       && ParseTaxesField(j.fields).Some?
    then Some(InvoiceItemView(
      j.fields["name"].s, j.fields["description"].s, j.fields["quantity"].n,
      j.fields["total"].n, j.fields["product_key"].s, j.fields["unit_key"].s,
      j.fields["unit_name"].s, ParseTaxesField(j.fields).value))
    else None
  }

  /** An invoice line item as sent: exactly its seven scalar fields, plus
      `taxes` precisely when its tax list is non-empty. */
  function FormatInvoiceItem(item: InvoiceItem): (r: Json)
    ensures r.Obj?
    ensures r.fields.Keys == InvoiceItemKeys + (if |TaxList(item.taxes)| > 0 then {"taxes"} else {})
    ensures ParseInvoiceItem(r) == Some(InvoiceItemViewOf(item))
  {
    var base := map[
      "name" := Str(item.name),
      "description" := Str(item.description),
      "quantity" := Num(item.quantity),
      "total" := Num(item.total),
      "product_key" := Str(item.productKey),
      "unit_key" := Str(item.unitKey),
      "unit_name" := Str(item.unitName)];
    TaxesFieldRoundTrip(item.taxes, base);
    match FormatTaxes(item.taxes)
    case Some(ts) => Obj(base["taxes" := ts])
    case None => Obj(base)
  }

  // ------------------------------------------------------------ equality

  /** Two register items produce the same JSON exactly when they agree on
      every sent field and on their effective tax lists: an absent `taxes`
      collection, an absent `taxesValues` and an empty list are
      indistinguishable, and nothing else is lost. */
  lemma RegisterItemFormatEqualIff(a: RegisterItem, b: RegisterItem)
    ensures FormatRegisterItem(a) == FormatRegisterItem(b) <==> RegisterItemViewOf(a) == RegisterItemViewOf(b)
  {
    if RegisterItemViewOf(a) == RegisterItemViewOf(b) {
      assert FormatTaxes(a.taxes) == FormatTaxes(b.taxes);
    }
  }

  /** The invoice counterpart of `RegisterItemFormatEqualIff`. */
  lemma InvoiceItemFormatEqualIff(a: InvoiceItem, b: InvoiceItem)
    ensures FormatInvoiceItem(a) == FormatInvoiceItem(b) <==> InvoiceItemViewOf(a) == InvoiceItemViewOf(b)
  {
    if InvoiceItemViewOf(a) == InvoiceItemViewOf(b) {
      assert FormatTaxes(a.taxes) == FormatTaxes(b.taxes);
    }
  }

  /** A formatted item list decodes, item by item and in order, to the views
      of the original items. */
  lemma RegisterItemsRoundTrip(items: seq<RegisterItem>)
    ensures ParseSeq(ParseRegisterItem, MapSeq(FormatRegisterItem, items))
            == Some(MapSeq(RegisterItemViewOf, items))
  {
    ParseSeqOfMapSeq(FormatRegisterItem, ParseRegisterItem, RegisterItemViewOf, items);
  }

  lemma InvoiceItemsRoundTrip(items: seq<InvoiceItem>)
    ensures ParseSeq(ParseInvoiceItem, MapSeq(FormatInvoiceItem, items))
            == Some(MapSeq(InvoiceItemViewOf, items))
  {
    ParseSeqOfMapSeq(FormatInvoiceItem, ParseInvoiceItem, InvoiceItemViewOf, items);
  }
}
