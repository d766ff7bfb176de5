/** The per-item loop of the node's `execute`: the resource/operation pair
    read once, then for every input item, in order, the request built from
    that item's parameters, handed to the transport, and the response or
    the error packaged as one output record tagged with the item's index.
    A failure either becomes an `{error}` record (continue-on-fail) or
    aborts the whole run (fail-fast). */
module Execution {

  import opened Wrappers
  import opened JsonValues
  import opened Parameters
  import opened Requests

  /** The branch a resource/operation pair selects. */
  datatype Operation = PaymentGet | PaymentRegister | InvoiceCreate | Unhandled

  /** The resource/operation pairs the node declares to the host UI. */
  const DeclaredOperations: set<(string, string)> :=
    {("payment", "create"), ("payment", "get"), ("payment", "register"), ("invoice", "create")}

  /** Dispatch on the two strings: exactly three pairs have a branch. */
  function SelectOperation(resource: string, operation: string): (r: Operation)
    ensures r == PaymentGet <==> resource == "payment" && operation == "get"
    ensures r == PaymentRegister <==> resource == "payment" && operation == "register"
    ensures r == InvoiceCreate <==> resource == "invoice" && operation == "create"
  {
    if resource == "payment" && operation == "get" then PaymentGet
    else if resource == "payment" && operation == "register" then PaymentRegister
    else if resource == "invoice" && operation == "create" then InvoiceCreate
    else Unhandled
  }

  /** Of the declared pairs, only payment "create" has no branch. */
  lemma DeclaredButUnhandled()
    ensures forall pr :: pr in DeclaredOperations ==> (SelectOperation(pr.0, pr.1) == Unhandled <==> pr == ("payment", "create"))
  {
  }

  /** What reading the parameters of each operation at one item index gives:
      the resolved record, or the error the host raised. Only the record of
      the selected operation is ever consulted. */
  datatype ItemParameters = ItemParameters(
    paymentGet: Result<PaymentGetParams, string>,
    paymentRegister: Result<PaymentRegisterParams, string>,
    invoiceCreate: Result<InvoiceCreateParams, string>)

  /** The host's request helper: the JSON reply, or the message of the error
      it raised. The item index stands for everything else the reply may
      depend on (time, the remote state). */
  type Transport = (nat, Request) -> Result<Json, string>

  /** What every item of a run shares: the selected branch, the API key and
      the transport. */
  datatype Context = Context(op: Operation, apiKey: string, send: Transport)

  /** A request handed to the transport, tagged with its item. */
  datatype Sent = Sent(item: nat, request: Request)

  /** One output record; `None` stands for JavaScript's `undefined`. */
  datatype OutputItem = OutputItem(item: nat, json: Option<Json>)

  /** What one item does: the request it hands to the transport, if any,
      and its response or the message of the error it raised. */
  datatype ItemStep = ItemStep(sent: Option<Request>, outcome: Result<Option<Json>, string>)

  /** The record a captured error becomes. */
  function ErrorRecord(message: string): (r: Json)
    ensures Field(r, "error") == Some(Str(message))
    ensures r.Obj? && r.fields.Keys == {"error"}
  {
    Obj(map["error" := Str(message)])
  }

  /** `req` is what the builder of branch `op` makes of the resolved
      parameters `p`. */
  predicate BuiltBy(op: Operation, apiKey: string, p: ItemParameters, req: Request) {
    match op
    case PaymentGet => p.paymentGet.Success? && req == BuildPaymentGet(apiKey, p.paymentGet.value)
    case PaymentRegister => p.paymentRegister.Success? && req == BuildPaymentRegister(apiKey, p.paymentRegister.value)
    case InvoiceCreate => p.invoiceCreate.Success? && req == BuildInvoiceCreate(apiKey, p.invoiceCreate.value)
    case Unhandled => false
  }

  /** The request an item builds, or the error raised reading its
      parameters; `None` when the operation has no branch. */
  function ItemRequest(op: Operation, apiKey: string, p: ItemParameters): (r: Result<Option<Request>, string>)
    // without a branch nothing is read and nothing is built
    ensures op == Unhandled ==> r == Success(None)
    // with one, a request is built exactly when the selected parameters
    // resolve, and otherwise their error is raised
    ensures op == PaymentGet ==>
              (r.Success? <==> p.paymentGet.Success?)
              && (r.Success? ==> r.value == Some(BuildPaymentGet(apiKey, p.paymentGet.value)))
              && (r.Failure? ==> r.error == p.paymentGet.error)
    ensures op == PaymentRegister ==>
              (r.Success? <==> p.paymentRegister.Success?)
              && (r.Success? ==> r.value == Some(BuildPaymentRegister(apiKey, p.paymentRegister.value)))
              && (r.Failure? ==> r.error == p.paymentRegister.error)
    ensures op == InvoiceCreate ==>
              (r.Success? <==> p.invoiceCreate.Success?)
              && (r.Success? ==> r.value == Some(BuildInvoiceCreate(apiKey, p.invoiceCreate.value)))
              && (r.Failure? ==> r.error == p.invoiceCreate.error)
  {
    match op
    case PaymentGet =>
      (match p.paymentGet
       case Success(g) => Success(Some(BuildPaymentGet(apiKey, g)))
       case Failure(e) => Failure(e))
    case PaymentRegister =>
      (match p.paymentRegister
       case Success(g) => Success(Some(BuildPaymentRegister(apiKey, g)))
       case Failure(e) => Failure(e))
    case InvoiceCreate =>
      (match p.invoiceCreate
       case Success(g) => Success(Some(BuildInvoiceCreate(apiKey, g)))
       case Failure(e) => Failure(e))
    case Unhandled => Success(None)
  }

  /** The try/catch around one item: an error raised building the request
      is captured before anything is sent; otherwise the built request, if
      any, goes to the transport and its answer or error is the outcome. */
  function Attempt(request: Result<Option<Request>, string>, send: Transport, i: nat): (r: ItemStep)
    ensures request.Failure? ==> r == ItemStep(None, Failure(request.error))
    ensures request == Success(None) ==> r == ItemStep(None, Success(None))
    ensures r.sent.Some? <==> request.Success? && request.value.Some?
    ensures r.sent.Some? ==> r.sent == request.value
                             && (r.outcome.Success? <==> send(i, r.sent.value).Success?)
                             && (r.outcome.Success? ==> r.outcome.value == Some(send(i, r.sent.value).value))
                             && (r.outcome.Failure? ==> r.outcome.error == send(i, r.sent.value).error)
  {
    match request
    case Failure(e) => ItemStep(None, Failure(e))
    case Success(None) => ItemStep(None, Success(None))
    case Success(Some(req)) =>
      ItemStep(Some(req), match send(i, req)
                          case Success(resp) => Success(Some(resp))
                          case Failure(e) => Failure(e))
  }

  /** One pass of the loop body for item `i`. With no branch taken, nothing
      is sent and the response stays `undefined`. */
  function RunItem(ctx: Context, p: ItemParameters, i: nat): (r: ItemStep)
    ensures ctx.op == Unhandled ==> r == ItemStep(None, Success(None))
    ensures r.sent.Some? <==> ItemRequest(ctx.op, ctx.apiKey, p).Success? && ItemRequest(ctx.op, ctx.apiKey, p).value.Some?
  {
    Attempt(ItemRequest(ctx.op, ctx.apiKey, p), ctx.send, i)
  }

  /** The loop body applied to every item of a run, each at its own index.
      An item's step depends only on its own parameters and index, so the
      steps of items the loop never reaches are computed but never used. */
  function Steps(ctx: Context, items: seq<ItemParameters>): (r: seq<ItemStep>)
    ensures |r| == |items|
    ensures forall k :: 0 <= k < |items| ==> r[k] == RunItem(ctx, items[k], k)
  {
    seq(|items|, k requires 0 <= k < |items| => RunItem(ctx, items[k], k))
  }

  predicate Fails(steps: seq<ItemStep>, k: int)
    requires 0 <= k < |steps|
  {
    steps[k].outcome.Failure?
  }

  /** The output record of item `k` when its failure, if any, is captured. */
  function Payload(steps: seq<ItemStep>, k: int): Option<Json>
    requires 0 <= k < |steps|
  {
    match steps[k].outcome
    case Success(response) => response
    case Failure(e) => Some(ErrorRecord(e))
  }

  /** Reference definition: the first failing item at or after `i`. */
  function FirstFailure(steps: seq<ItemStep>, i: nat): (r: Option<nat>)
    requires i <= |steps|
    ensures r.Some? ==> i <= r.value < |steps| && Fails(steps, r.value)
    ensures r.Some? ==> forall m :: i <= m < r.value ==> !Fails(steps, m)
    ensures r.None? ==> forall k :: i <= k < |steps| ==> !Fails(steps, k)
    decreases |steps| - i
  {
    if i == |steps| then None
    else if Fails(steps, i) then Some(i)
    else FirstFailure(steps, i + 1)
  }

  /** One past the last item the loop reaches from `i`: the first failure
      under fail-fast, the end otherwise. */
  function Reached(steps: seq<ItemStep>, continueOnFail: bool, i: nat): (r: nat)
    requires i <= |steps|
    ensures i <= r <= |steps|
  {
    var ff := FirstFailure(steps, i);
    if !continueOnFail && ff.Some? then ff.value + 1 else |steps|
  }

  /** What a run produces: the requests handed to the transport, in order,
      and either the output records or the error that aborted the run. */
  datatype Run = Run(sent: seq<Sent>, result: Result<seq<OutputItem>, string>)

  /** The loop from item `i` on: each item's request, if it builds one, is
      logged; a failure is captured as a record under continue-on-fail and
      aborts the run otherwise. */
  function RunFrom(steps: seq<ItemStep>, continueOnFail: bool, i: nat): (r: Run)
    requires i <= |steps|
    ensures |r.sent| <= |steps| - i
    ensures r.result.Success? ==> |r.result.value| == |steps| - i
    decreases |steps| - i
  {
    if i == |steps| then Run([], Success([]))
    else
      var step := steps[i];
      var here := if step.sent.Some? then [Sent(i, step.sent.value)] else [];
      if step.outcome.Failure? && !continueOnFail then Run(here, Failure(step.outcome.error))
      else
        var rest := RunFrom(steps, continueOnFail, i + 1);
        Run(here + rest.sent,
            match rest.result
            case Success(outs) => Success([OutputItem(i, Payload(steps, i))] + outs)
            case Failure(e) => Failure(e))
  }

  /** The outcome of the loop against the reference definition of the first
      failure. */
  lemma {:induction false} RunFromOutcome(steps: seq<ItemStep>, continueOnFail: bool, i: nat)
    requires i <= |steps|
    // the run fails exactly under fail-fast with a failing item, with its message
    ensures var r := RunFrom(steps, continueOnFail, i);
            r.result.Failure? <==> !continueOnFail && FirstFailure(steps, i).Some?
    ensures var r := RunFrom(steps, continueOnFail, i);
            r.result.Failure? ==> r.result.error == steps[FirstFailure(steps, i).value].outcome.error
    // otherwise one record per item, in order, tagged with its index
    ensures var r := RunFrom(steps, continueOnFail, i);
            r.result.Success? ==>
              |r.result.value| == |steps| - i
              && forall k :: 0 <= k < |steps| - i ==> r.result.value[k] == OutputItem(i + k, Payload(steps, i + k))
    decreases |steps| - i
  {
    if i < |steps| && !(Fails(steps, i) && !continueOnFail) {
      RunFromOutcome(steps, continueOnFail, i + 1);
    }
  }

  /** The node's `execute`: the credentials are fetched once before the
      loop, and a failure there aborts the run before any item. */
  function Execute(resource: string, operation: string, credentials: Result<Credentials, string>,
                   items: seq<ItemParameters>, continueOnFail: bool, send: Transport): (r: Run)
    ensures credentials.Failure? ==> r == Run([], Failure(credentials.error))
    // otherwise at most one request per item, and one record per item on success
    ensures credentials.Success? ==>
              |r.sent| <= |items| && (r.result.Success? ==> |r.result.value| == |items|)
  {
    match credentials
    case Failure(e) => Run([], Failure(e))
    case Success(c) => RunFrom(Steps(Context(SelectOperation(resource, operation), c.apiKey, send), items), continueOnFail, 0)
  }

  /** Every request `execute` sends is the selected branch's builder
      applied to the API key and that item's own parameters. */
  lemma ExecuteSendsBuiltRequests(resource: string, operation: string, c: Credentials,
                                  items: seq<ItemParameters>, continueOnFail: bool, send: Transport)
    ensures var r := Execute(resource, operation, Success(c), items, continueOnFail, send);
            forall j :: 0 <= j < |r.sent| ==>
              r.sent[j].item < |items|
              && BuiltBy(SelectOperation(resource, operation), c.apiKey, items[r.sent[j].item], r.sent[j].request)
  {
    var op := SelectOperation(resource, operation);
    var steps := Steps(Context(op, c.apiKey, send), items);
    var r := Execute(resource, operation, Success(c), items, continueOnFail, send);
    assert r == RunFrom(steps, continueOnFail, 0);
    SentLogBounded(steps, continueOnFail, 0);
    forall j | 0 <= j < |r.sent|
      ensures r.sent[j].item < |items|
      ensures BuiltBy(op, c.apiKey, items[r.sent[j].item], r.sent[j].request)
    {
      var k := r.sent[j].item;
      assert steps[k].sent == Some(r.sent[j].request);
      assert ItemRequest(op, c.apiKey, items[k]) == Success(Some(r.sent[j].request));
    }
  }

  /** `execute` fails exactly under fail-fast with a failing item, with the
      first failure's message and nothing sent after that item. */
  lemma ExecuteFailsAtFirstFailure(resource: string, operation: string, c: Credentials,
                                   items: seq<ItemParameters>, continueOnFail: bool, send: Transport)
    ensures var steps := Steps(Context(SelectOperation(resource, operation), c.apiKey, send), items);
            var r := Execute(resource, operation, Success(c), items, continueOnFail, send);
            r.result.Failure? <==> !continueOnFail && exists k :: 0 <= k < |items| && Fails(steps, k)
    ensures var steps := Steps(Context(SelectOperation(resource, operation), c.apiKey, send), items);
            var r := Execute(resource, operation, Success(c), items, continueOnFail, send);
            r.result.Failure? ==>
              exists k :: 0 <= k < |items|
                && steps[k].outcome == Failure(r.result.error)
                && (forall m :: 0 <= m < k ==> !Fails(steps, m))
                && (forall j :: 0 <= j < |r.sent| ==> r.sent[j].item <= k)
  {
    var steps := Steps(Context(SelectOperation(resource, operation), c.apiKey, send), items);
    RunFromOutcome(steps, continueOnFail, 0);
    var ff := FirstFailure(steps, 0);
    if ff.Some? {
      assert Fails(steps, ff.value);
      if !continueOnFail {
        SentLogBounded(steps, continueOnFail, 0);
      }
    }
  }

  /** When `execute` succeeds there is one record per item, in order,
      holding its response or the `{error}` record of its failure. */
  lemma ExecuteRecordsEveryItem(resource: string, operation: string, c: Credentials,
                                items: seq<ItemParameters>, continueOnFail: bool, send: Transport)
    ensures var steps := Steps(Context(SelectOperation(resource, operation), c.apiKey, send), items);
            var r := Execute(resource, operation, Success(c), items, continueOnFail, send);
            r.result.Success? ==>
              |r.result.value| == |items|
              && forall k :: 0 <= k < |items| ==> r.result.value[k] == OutputItem(k, Payload(steps, k))
  {
    var steps := Steps(Context(SelectOperation(resource, operation), c.apiKey, send), items);
    RunFromOutcome(steps, continueOnFail, 0);
  }

  /** Every logged request belongs to an item the loop reaches and is the
      one that item builds. */
  lemma {:induction false} SentLogBounded(steps: seq<ItemStep>, continueOnFail: bool, i: nat)
    requires i <= |steps|
    ensures forall j :: 0 <= j < |RunFrom(steps, continueOnFail, i).sent| ==>
              i <= RunFrom(steps, continueOnFail, i).sent[j].item < Reached(steps, continueOnFail, i)
              && steps[RunFrom(steps, continueOnFail, i).sent[j].item].sent == Some(RunFrom(steps, continueOnFail, i).sent[j].request)
    decreases |steps| - i
  {
    if i < |steps| {
      if Fails(steps, i) && !continueOnFail {
        assert FirstFailure(steps, i) == Some(i);
      } else {
        var next := i + 1;
        SentLogBounded(steps, continueOnFail, next);
        assert Reached(steps, continueOnFail, i) == Reached(steps, continueOnFail, next);
      }
    }
  }

  /** A log in strictly increasing item order, of items from `i` on. */
  predicate IncreasingFrom(log: seq<Sent>, i: nat) {
    && (forall j :: 0 <= j < |log| ==> i <= log[j].item)
    && (forall j, j' :: 0 <= j < j' < |log| ==> log[j].item < log[j'].item)
  }

  /** The log is in strictly increasing item order. */
  lemma {:induction false} SentLogOrdered(steps: seq<ItemStep>, continueOnFail: bool, i: nat)
    requires i <= |steps|
    ensures IncreasingFrom(RunFrom(steps, continueOnFail, i).sent, i)
    decreases |steps| - i
  {
    if i < |steps| && !(Fails(steps, i) && !continueOnFail) {
      SentLogOrdered(steps, continueOnFail, i + 1);
    }
  }

  /** Every item the loop reaches that builds a request has it logged. */
  lemma {:induction false} SentLogComplete(steps: seq<ItemStep>, continueOnFail: bool, i: nat)
    requires i <= |steps|
    ensures var r := RunFrom(steps, continueOnFail, i);
            forall k :: i <= k < Reached(steps, continueOnFail, i) && steps[k].sent.Some? ==>
              Sent(k, steps[k].sent.value) in r.sent
    decreases |steps| - i
  {
    if i < |steps| && !(Fails(steps, i) && !continueOnFail) {
      SentLogComplete(steps, continueOnFail, i + 1);
      assert Reached(steps, continueOnFail, i) == Reached(steps, continueOnFail, i + 1);
    }
  }

  /** The log of a run holds the request of every item the loop reaches
      that builds one, once each, in item order, and nothing else: in
      particular no item after a fail-fast abort is attempted. */
  lemma SentLog(steps: seq<ItemStep>, continueOnFail: bool, i: nat)
    requires i <= |steps|
    ensures var r := RunFrom(steps, continueOnFail, i);
            forall j :: 0 <= j < |r.sent| ==>
              i <= r.sent[j].item < Reached(steps, continueOnFail, i)
              && steps[r.sent[j].item].sent == Some(r.sent[j].request)
    ensures var r := RunFrom(steps, continueOnFail, i);
            forall k :: i <= k < Reached(steps, continueOnFail, i) && steps[k].sent.Some? ==>
              Sent(k, steps[k].sent.value) in r.sent
    ensures var r := RunFrom(steps, continueOnFail, i);
            forall j, j' :: 0 <= j < j' < |r.sent| ==> r.sent[j].item < r.sent[j'].item
  {
    SentLogBounded(steps, continueOnFail, i);
    SentLogOrdered(steps, continueOnFail, i);
    SentLogComplete(steps, continueOnFail, i);
  }

  /** Under continue-on-fail every item yields exactly one record, tagged
      with its index and in order: the `{error}` record of its failure, or
      its response. */
  lemma ContinueOnFailRecordsEveryItem(steps: seq<ItemStep>)
    ensures var r := RunFrom(steps, true, 0);
            && r.result.Success?
            && |r.result.value| == |steps|
            && forall k :: 0 <= k < |steps| ==>
                 && r.result.value[k].item == k
                 && (Fails(steps, k) ==> r.result.value[k].json == Some(ErrorRecord(steps[k].outcome.error)))
                 && (!Fails(steps, k) ==> r.result.value[k].json == steps[k].outcome.value)
  {
    RunFromOutcome(steps, true, 0);
  }

  /** Under fail-fast the first failing item aborts the run with its
      message, and no request of a later item is handed to the transport. */
  lemma FailFastStopsAtFirstFailure(steps: seq<ItemStep>, k: nat)
    requires k < |steps| && Fails(steps, k)
    requires forall m :: 0 <= m < k ==> !Fails(steps, m)
    ensures RunFrom(steps, false, 0).result == Failure(steps[k].outcome.error)
    ensures forall j :: 0 <= j < |RunFrom(steps, false, 0).sent| ==> RunFrom(steps, false, 0).sent[j].item <= k
  {
    assert FirstFailure(steps, 0) == Some(k);
    RunFromOutcome(steps, false, 0);
    SentLog(steps, false, 0);
  }

  /** When no item fails the two policies cannot be told apart: same
      requests, same records. */
  lemma {:induction false} PolicyIrrelevantWithoutFailures(steps: seq<ItemStep>, i: nat)
    requires i <= |steps|
    requires forall k :: i <= k < |steps| ==> !Fails(steps, k)
    ensures RunFrom(steps, false, i) == RunFrom(steps, true, i)
    decreases |steps| - i
  {
    if i < |steps| {
      assert !Fails(steps, i);
      PolicyIrrelevantWithoutFailures(steps, i + 1);
    }
  }

  /** Items that send nothing and leave the response undefined send nothing
      as a run, under either policy. */
  lemma {:induction false} IdleStepsSendNothing(steps: seq<ItemStep>, continueOnFail: bool, i: nat)
    requires i <= |steps|
    requires forall k :: i <= k < |steps| ==> steps[k] == ItemStep(None, Success(None))
    ensures RunFrom(steps, continueOnFail, i).sent == []
    decreases |steps| - i
  {
    if i < |steps| {
      IdleStepsSendNothing(steps, continueOnFail, i + 1);
    }
  }

  /** An operation without a branch sends nothing and yields one
      `undefined` record per item, whatever the policy; payment "create"
      is such an operation. */
  lemma UnhandledOperationYieldsUndefined(resource: string, operation: string, c: Credentials,
                                          items: seq<ItemParameters>, continueOnFail: bool, send: Transport)
    requires SelectOperation(resource, operation) == Unhandled
    ensures var r := Execute(resource, operation, Success(c), items, continueOnFail, send);
            && r.sent == []
            && r.result.Success?
            && |r.result.value| == |items|
            && forall k :: 0 <= k < |items| ==> r.result.value[k] == OutputItem(k, None)
  {
    var steps := Steps(Context(Unhandled, c.apiKey, send), items);
    assert FirstFailure(steps, 0).None?;
    RunFromOutcome(steps, continueOnFail, 0);
    IdleStepsSendNothing(steps, continueOnFail, 0);
  }

  /** Every request handed to the transport is the selected operation's
      builder applied to that item's own parameters: the operation is
      chosen once for the whole run. */
  lemma SentRequestsFollowOperation(ctx: Context, continueOnFail: bool, items: seq<ItemParameters>)
    ensures var r := RunFrom(Steps(ctx, items), continueOnFail, 0);
            forall j :: 0 <= j < |r.sent| ==>
              && r.sent[j].item < |items|
              && ItemRequest(ctx.op, ctx.apiKey, items[r.sent[j].item]) == Success(Some(r.sent[j].request))
  {
    SentLog(Steps(ctx, items), continueOnFail, 0);
  }
}
