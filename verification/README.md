# Gigstack workflow node: request building and the item loop

This project models the executor of the Gigstack node, a plugin for a
workflow-automation host that exposes two resources of the Gigstack billing
API: payments and invoices. For each input item the executor reads that
item's parameters and turns them into one HTTP request, with a method, a URL,
headers and a JSON body. It hands the request to the host's transport and
packages the response, or the error, as an output record tagged with the
item's index. Three branches exist:

- payment `get`: a bodiless GET of `/v1/payments/view?id=<paymentId>`;
- payment `register`: a JSON POST to `/v1/payments/register`;
- invoice `create`: a JSON POST to `/v1/invoices/create`.

Every request carries `Authorization: Bearer <apiKey>`.

The model is functional. Parameters are already-resolved records
(`Parameters`). Request bodies are values of a small JSON datatype
(`JsonValues.Json`), so it can be stated exactly which keys a body holds.
Each formatter and builder has a decoder (`Parse…`) that recovers what the
body keeps of the parameters. Round-trip and "equal bodies iff equal views"
lemmas tie the two together, and they also pin down what the body forgets:

- an absent tax collection, an absent tax list and an empty tax list all
  look the same;
- a missing item, email or metadata list looks like an empty one;
- metadata only matters through its fold;
- of the client parameters, only those of the selected mode matter.

The loop (`Execution.RunFrom`) is a recursive function over the items'
steps. Each step is the loop body applied to one item and its index
(`Execution.Steps`); the transport is a function parameter. An item's step
depends only on that item, so the steps of items the loop never reaches
are computed but never used. The loop keeps a log of the requests handed
to the transport, so "no later item is attempted" can be stated.

Modules:

| file | module | content |
|---|---|---|
| wrappers.dfy | Wrappers | `Option`, `Result` |
| json.dfy | JsonValues | JSON values; numbers as an opaque literal |
| parameters.dfy | Parameters | one record per operation, line items, taxes, metadata entries |
| lists.dfy | Lists | element-wise map (`Array.prototype.map`) and its inverse |
| lineitems.dfy | LineItems | tax and line-item formatting with decoders |
| metadata.dfy | Metadata | the last-write-wins metadata fold, plus the `__proto__` finding |
| requests.dfy | Requests | the three request builders, bodies, headers and URLs |
| execution.dfy | Execution | dispatch, the per-item step and the continue-on-fail / fail-fast loop |

Three behaviours of nodes/Gigstack.node.ts that the model keeps:

- The resource and the operation are read once, at item index 0
  (nodes/Gigstack.node.ts:1021-1022). They are not re-read per item. So
  `Execute` selects one `Operation` for the whole run.
- The register item's `discount` key is always emitted
  (nodes/Gigstack.node.ts:1086-1094). It is not optional.
- When a run aborts under fail-fast, the error propagates out of `execute`.
  The records collected so far are never returned
  (nodes/Gigstack.node.ts:1333). So an aborted `Run` carries only the
  error, next to the log of requests already sent.

## Model

| member | source | states |
|---|---|---|
| LineItems.FormatTax | nodes/Gigstack.node.ts:1101-1107 | a tax rule becomes an object with exactly factor, inclusive, rate, type and withholding, and each value decodes back to the rule unchanged |
| LineItems.FormatTaxes | nodes/Gigstack.node.ts:1096-1108 | the `taxes` value is absent exactly when the effective tax list is empty (collection missing, list missing or empty); otherwise it has the same length, and entry i decodes to rule i |
| LineItems.FormatRegisterItem | nodes/Gigstack.node.ts:1085-1111 | a register item keeps exactly description, discount, product_key, unit_key, unit_name, quantity and amount, plus `taxes` iff its tax list is non-empty; decoding returns its fields and tax list |
| LineItems.FormatInvoiceItem | nodes/Gigstack.node.ts:1193-1219 | an invoice item keeps exactly name, description, quantity, total, product_key, unit_key and unit_name, plus `taxes` iff its tax list is non-empty; decoding returns its fields and tax list |
| LineItems.RegisterItemFormatEqualIff | nodes/Gigstack.node.ts:1085-1111 | two register items format identically iff they agree on the seven fields and the effective tax list |
| LineItems.InvoiceItemFormatEqualIff | nodes/Gigstack.node.ts:1193-1219 | two invoice items format identically iff they agree on the seven fields and the effective tax list |
| LineItems.RegisterItemsRoundTrip | nodes/Gigstack.node.ts:1085-1111 | the formatted item list decodes item by item, in order and with the same count, to the items' views |
| LineItems.InvoiceItemsRoundTrip | nodes/Gigstack.node.ts:1193-1219 | the same for invoice items |
| Metadata.FoldMetadata | nodes/Gigstack.node.ts:1231-1237 | the intended fold (see ## Findings): the folded mapping has exactly the entries' keys, each holding the value of that key's last entry; an empty list gives an empty mapping |
| Metadata.AssignEachLookup | nodes/Gigstack.node.ts:1234-1236 | assigning the entries front to back leaves each key with its last entry's value, and untouched keys as they were |
| Metadata.LastOccurrenceWins | nodes/Gigstack.node.ts:1234-1236 | the entry that is the last with its key is the one the reference lookup returns |
| Metadata.FoldMetadataLastWriteWins | nodes/Gigstack.node.ts:1232-1237 | in the fold, a key's value is that of its last occurrence in the list |
| Metadata.LastValueSomeIffMentioned | nodes/Gigstack.node.ts:1232-1237 | a key has a value after the fold iff some entry mentions it |
| Metadata.FoldMetadataAsWrittenDiffersOnlyAtProto | nodes/Gigstack.node.ts:1232-1236 | the object literal as written yields the intended fold minus the `__proto__` key, and agrees with it on every other key |
| Metadata.ProtoKeyEntryIsDropped | nodes/Gigstack.node.ts:1232-1236 | a single `__proto__` entry yields an empty object as written, but a one-key mapping as intended |
| Requests.BearerHeader | nodes/Gigstack.node.ts:1037-1039 | the Authorization value is `Bearer ` followed by the API key, which is recovered from it unchanged |
| Requests.JsonHeaders | nodes/Gigstack.node.ts:1128-1131 | POST headers are exactly Content-Type `application/json` and the bearer Authorization |
| Requests.PaymentViewUrl | nodes/Gigstack.node.ts:1036 | the view URL is the fixed prefix followed by the payment id with no encoding; the id is recovered from it character for character |
| Requests.BuildPaymentGet | nodes/Gigstack.node.ts:1034-1041 | payment get is a GET without body, its URL carries the payment id, and its only header is the bearer Authorization |
| Requests.PaymentGetEqualIff | nodes/Gigstack.node.ts:1031-1041 | two view requests are equal iff their payment ids and API keys are |
| Requests.RegisterBody | nodes/Gigstack.node.ts:1114-1122 | the register body always has exactly the seven keys, including an empty clientId or email; paymentMethod is forwarded verbatim (e.g. "03"); items keep their count; decoding yields the parameters' view |
| Requests.RegisterBodyEqualIff | nodes/Gigstack.node.ts:1047-1122 | two registrations give the same body iff their views agree (a missing item list equals an empty one) |
| Requests.BuildPaymentRegister | nodes/Gigstack.node.ts:1125-1134 | payment register is a JSON POST to the register URL with the JSON headers and a body decoding to the parameters' view |
| Requests.ClientObject | nodes/Gigstack.node.ts:1278-1290 | the embedded client has exactly rfc, legal_name, tax_system, bcc and address; tax_system.label is always "", bcc is always empty, zip defaults to "" |
| Requests.InvoiceBody | nodes/Gigstack.node.ts:1240-1300 | the invoice body always has type "create_invoice" and null relation, related and export; emails default to none; it holds `client` iff useClientObject, else `clientId` iff the id is non-empty, equal to it; decoding yields the parameters' view |
| Requests.InvoiceBodyEqualIff | nodes/Gigstack.node.ts:1143-1300 | two invoice parameter sets give the same body iff their views agree (defaults, metadata fold, selected client mode only) |
| Requests.InvoiceBodyIgnoresClientIdWhenEmbedded | nodes/Gigstack.node.ts:1258-1290 | with useClientObject set, the client id parameter has no effect on the body |
| Requests.InvoiceBodyIgnoresClientObjectWhenReferenced | nodes/Gigstack.node.ts:1291-1300 | with useClientObject unset, none of the embedded-client parameters has an effect on the body |
| Requests.BuildInvoiceCreate | nodes/Gigstack.node.ts:1303-1312 | invoice create is a JSON POST to the invoice URL with the JSON headers and a body decoding to the parameters' view |
| Execution.SelectOperation | nodes/Gigstack.node.ts:1029-1141 | exactly payment/get, payment/register and invoice/create select a branch; every other pair selects none |
| Execution.DeclaredButUnhandled | nodes/Gigstack.node.ts:52-445 | of the declared resource/operation pairs (the payment operations at lines 52-80, invoice "create" at lines 426-445), only payment "create" has no branch |
| Execution.ErrorRecord | nodes/Gigstack.node.ts:1327 | a captured error becomes an object whose only key is `error`, holding the message |
| Execution.Attempt | nodes/Gigstack.node.ts:1028-1330 | an item whose parameters raise sends nothing and fails with that message; an item with no branch sends nothing and stays undefined; otherwise exactly the built request is sent and the outcome succeeds iff the transport answers, carrying its answer or its error |
| Execution.ItemRequest | nodes/Gigstack.node.ts:1029-1316 | without a branch nothing is built; with one, the request is that branch's builder applied to the API key and the selected parameters exactly when they resolve, and their error otherwise |
| Execution.RunItem | nodes/Gigstack.node.ts:1028-1316 | an item sends a request iff its parameters resolve under a handled operation; with no branch it sends nothing and its response is undefined |
| Execution.FirstFailure | nodes/Gigstack.node.ts:1324-1333 | reference definition of the first failing item: it fails and no earlier item does, or none fails |
| Execution.RunFrom | nodes/Gigstack.node.ts:1027-1335 | the loop from item `i` sends at most one request per remaining item and, when it completes, yields exactly one record per remaining item; its outcome is pinned by `RunFromOutcome` and its log by `SentLog` |
| Execution.RunFromOutcome | nodes/Gigstack.node.ts:1027-1335 | the run fails iff fail-fast is in force and some item fails, with the first failure's message; otherwise there is one record per item, in order, tagged with its index |
| Execution.Execute | nodes/Gigstack.node.ts:1018-1026 | the credentials are fetched once and their failure aborts the run before any item, under either policy; otherwise at most one request is sent per item, and a successful run has one record per item |
| Execution.ExecuteSendsBuiltRequests | nodes/Gigstack.node.ts:1018-1316 | once the credentials resolve, every request sent belongs to an item of the input and is the selected branch's builder applied to the API key and that item's own resolved parameters |
| Execution.ExecuteFailsAtFirstFailure | nodes/Gigstack.node.ts:1027-1335 | the run fails exactly when fail-fast is in force and some item's step fails; it then carries the message of the first failing item, and no item after that one sent a request |
| Execution.ExecuteRecordsEveryItem | nodes/Gigstack.node.ts:1027-1335 | a successful run has one record per item, in order and tagged with its index, holding that item's response or the `{error}` record of its failure |
| Execution.SentLogBounded | nodes/Gigstack.node.ts:1027-1335 | every logged request is the one its item builds, and that item is one the loop reaches |
| Execution.SentLogOrdered | nodes/Gigstack.node.ts:1027-1335 | the log is in strictly increasing item order, so no item sends twice |
| Execution.SentLogComplete | nodes/Gigstack.node.ts:1027-1335 | every reached item that builds a request has it logged |
| Execution.SentLog | nodes/Gigstack.node.ts:1027-1335 | the requests sent are exactly those of the items the loop reaches, once each and in item order; under fail-fast nothing after the first failure is sent |
| Execution.ContinueOnFailRecordsEveryItem | nodes/Gigstack.node.ts:1324-1331 | with continue-on-fail every failing item yields exactly an `{error: message}` record tagged with its index, and every other item its response |
| Execution.FailFastStopsAtFirstFailure | nodes/Gigstack.node.ts:1332-1333 | with fail-fast the first failing item aborts the run with its message, and no later item's request is sent |
| Execution.PolicyIrrelevantWithoutFailures | nodes/Gigstack.node.ts:1324-1333 | when no item fails, the two policies produce the same requests and records |
| Execution.IdleStepsSendNothing | nodes/Gigstack.node.ts:1029-1141 | a run whose items take no branch hands nothing to the transport |
| Execution.UnhandledOperationYieldsUndefined | nodes/Gigstack.node.ts:1318-1321 | an unhandled pair, such as payment "create", yields one undefined record per item under either policy and sends nothing |
| Execution.SentRequestsFollowOperation | nodes/Gigstack.node.ts:1021-1022 | every request sent is the builder of the one selected operation applied to that item's own parameters |

## Findings

| source | as written | input that shows it | evidently intended | confidence | as-written member | corrected member |
|---|---|---|---|---|---|---|
| nodes/Gigstack.node.ts:1232-1236 | metadata is folded into a plain `{}` object literal; `metadata["__proto__"] = value` calls the inherited prototype setter, which ignores a string and creates no key | metadata list `[{key: "__proto__", value: "1"}]` | the body's metadata is `{"__proto__": "1"}`: every key of the list is kept, last write wins | not executed; follows from the ECMAScript `__proto__` accessor of `Object.prototype` | Metadata.FoldMetadataAsWritten | Metadata.FoldMetadata |

`Metadata.ProtoKeyEntryIsDropped` shows the discrepancy on that input.
`Metadata.FoldMetadataAsWrittenDiffersOnlyAtProto` proves that this key is
the only one affected. The invoice body uses the corrected fold.

## Left out

- The HTTP transport (`this.helpers.request`). It is the `Transport`
  parameter: any total function from item index and request to a JSON reply
  or an error message. Timeouts, retries and the remote API's behaviour
  belong to it.
- Host parameter resolution (`getNodeParameter`). Each item's parameters
  arrive already resolved, as one `Result` per operation. A failure to
  resolve them is caught by the same handler as a transport error. Reading
  `resource` and `operation` at index 0 is assumed to succeed.
- Values of an undeclared type. The host is assumed to return values of the
  declared types. A `null` or a wrongly typed value passed through by the
  `as` casts is not modelled.
- `getCredentials`. It is a `Result<Credentials, string>` fetched once; its
  failure aborts the run. The `environment` field is carried but, as in the
  code, never consulted.
- `returnJsonArray`, `constructExecutionMetaData` and `prepareOutputData`
  are host code and not part of this model. Each item yields one record
  `(index, payload)`. The host's splitting of an array response into
  several records is not modelled.
- Numeric fields (rate, amount, total, discount, quantity) are only copied,
  so they are an opaque `Number` literal. Floating point is not modelled.
- The order of keys inside JSON objects. Bodies are maps.
- JSON serialisation of the body by the transport. The model stops at the
  JSON value.
- The declarative UI schema (nodes/Gigstack.node.ts:10-1016). Only the set
  of declared resource/operation pairs is used.
- credentials/GigstackApi.credentials.ts is static data and not part of
  this model.
- jest.config.js, gulpfile.js and the tests are build and test
  configuration.
- `error.message` of a thrown value that is not an `Error`. Messages are
  always strings here.
- Requests.InvoiceBody, Requests.BuildInvoiceCreate, Requests.InvoiceBodyEqualIff:
  the invoice body's `metadata` is built with the corrected fold
  (`Metadata.FoldMetadata`), not the code's object literal. For a metadata
  entry keyed `__proto__` the model's body keeps that key while the code's
  (nodes/Gigstack.node.ts:1232-1236) lacks it. So for the code, the "only
  if" half of `InvoiceBodyEqualIff` fails on metadata lists that differ
  only in such entries. `Metadata.FoldMetadataAsWrittenDiffersOnlyAtProto`
  states exactly how the two folds differ.
