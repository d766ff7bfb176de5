/** The already-resolved parameters of each operation, one record per
    operation, as the node reads them for one input item. A parameter read
    with a host default (`getNodeParameter(name, i, default)`) is an
    `Option`: `None` means the host supplied the default. */
module Parameters {

  import opened Wrappers
  import opened JsonValues

  /** One tax rule of a line item. */
  datatype Tax = Tax(
    factor: string,
    inclusive: bool,
    rate: Number,
    taxType: string,
    withholding: bool)

  /** The `taxes` sub-collection of a line item. Either level may be missing
      in the parameter document. */
  datatype TaxGroup = TaxGroup(taxesValues: Option<seq<Tax>>)

  /** A line item of a payment registration. */
  datatype RegisterItem = RegisterItem(
    description: string,
    discount: Number,
    productKey: string,
    unitKey: string,
    unitName: string,
    quantity: Number,
    amount: Number,
    taxes: Option<TaxGroup>)

  /** A line item of an invoice: `name` and `total` instead of `amount`, and
      no discount. */
  datatype InvoiceItem = InvoiceItem(
    name: string,
    description: string,
    quantity: Number,
    total: Number,
    productKey: string,
    unitKey: string,
    unitName: string,
    taxes: Option<TaxGroup>)

  datatype MetadataEntry = MetadataEntry(key: string, value: string)

  datatype Environment = Production | Sandbox

  /** The stored secret. `environment` is declared but never consulted when a
      request is built. */
  datatype Credentials = Credentials(apiKey: string, environment: Environment)

  datatype PaymentGetParams = PaymentGetParams(paymentId: string)

  datatype PaymentRegisterParams = PaymentRegisterParams(
    paid: bool,
    currency: string,
    paymentMethod: string,
    automateInvoiceOnComplete: bool,
    clientId: string,
    email: string,
    items: Option<seq<RegisterItem>>)

  /** The invoice parameters. The client fields are only read when
      `useClientObject` holds, `clientId` only when it does not. */
  datatype InvoiceCreateParams = InvoiceCreateParams(
    returnFilesUrls: bool,
    use: string,
    series: string,
    paymentForm: string,
    invoiceType: string,
    currency: string,
    paymentMethod: string,
    emails: Option<seq<string>>,
    useClientObject: bool,
    invoiceItems: Option<seq<InvoiceItem>>,
    metadata: Option<seq<MetadataEntry>>,
    clientRfc: string,
    clientLegalName: string,
    clientTaxSystem: string,
    clientZipCode: Option<string>,
    clientCountry: string,
    clientId: Option<string>)

  /** The tax rules a line item effectively carries: none when either level
      of the `taxes` collection is missing. */
  function TaxList(g: Option<TaxGroup>): seq<Tax> {
    match g
    case None => []
    case Some(TaxGroup(vs)) => vs.GetOr([])
  }
}
