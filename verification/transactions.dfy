/** The transaction batch processor of src/clean-control-structure.js.

    Console output is modelled as a returned sequence of log entries; a thrown
    `Error` is modelled as a `Failure`/`Fail` value carrying the error object's
    `message`, `code` and `item` properties. */
module Transactions {
  import opened Wrappers

  /** The three payment-method constants at the top of the file. */
  const TypeCreditCard := "CREDIT_CARD"
  const TypePayPal := "PAYPAL"
  const TypePlan := "PLAN"

  const StatusOpen := "OPEN"
  const KindPayment := "PAYMENT"
  const KindRefund := "REFUND"

  const NoTransactionsProvided := "No transactions provided!"
  const InvalidTransactionType := "Invalid transaction type!"

  /** A transaction record. `kind` and `paymentMethod` are the record's `type` and
      `method` properties (both reserved words in Dafny). Status, kind and method
      stay strings, so that every value the source can meet, valid or not, is
      representable. */
  datatype Transaction = Transaction(id: string, kind: string, status: string, paymentMethod: string, amount: string)

  /** The payment methods the dispatch table knows. */
  datatype Method = CreditCard | PayPal | Plan

  datatype Operation = Payment | Refund

  /** The six print-only handlers. */
  datatype Handler =
    | CreditCardPayment | CreditCardRefund
    | PayPalPayment | PayPalRefund
    | PlanPayment | PlanRefund

  /** The `{ processPayment, processRefund }` pair; `None` is a `null` handler. */
  datatype Processors = Processors(processPayment: Option<Handler>, processRefund: Option<Handler>)

  /** An error message: a literal text, or the engine's TypeError for calling a
      null handler, whose wording is not modelled. */
  datatype Message = Text(text: string) | NullHandlerCall(operation: Operation)

  /** A thrown error object; absent `code`/`item` properties are `None`. */
  datatype Error = Error(message: Message, code: Option<int>, item: Option<Transaction>)

  /** One unit of console output: a handler's line, or a `showErrorMessage` call,
      whose `item` argument defaults to `{}` (here `None`). */
  datatype LogEntry = Line(text: string) | ErrorReport(message: Message, item: Option<Transaction>)

  // ---------------------------------------------------------------------------
  // Reference vocabulary: what each handler is meant to print.

  /** The method string that selects `m` in the dispatch table. */
  function MethodName(m: Method): string {
    match m
    case CreditCard => TypeCreditCard
    case PayPal => TypePayPal
    case Plan => TypePlan
  }

  /** True if `s` is one of the method strings the dispatch table recognises. */
  ghost predicate KnownMethod(s: string) {
    exists m :: MethodName(m) == s
  }

  function Label(m: Method): string {
    match m
    case CreditCard => "credit card"
    case PayPal => "PayPal"
    case Plan => "plan"
  }

  function Word(op: Operation): string {
    match op
    case Payment => "payment"
    case Refund => "refund"
  }

  /** The sentence a handler for method `m` and operation `op` prints before the amount. */
  function ExpectedPrefix(m: Method, op: Operation): string {
    "Processing " + Label(m) + " " + Word(op) + " for amount: "
  }

  /** The line a handler for method `m` and operation `op` prints for `amount`. */
  function ExpectedLine(m: Method, op: Operation, amount: string): string {
    ExpectedPrefix(m, op) + amount
  }

  function HandlerMethod(h: Handler): Method {
    match h
    case CreditCardPayment | CreditCardRefund => CreditCard
    case PayPalPayment | PayPalRefund => PayPal
    case PlanPayment | PlanRefund => Plan
  }

  function HandlerOperation(h: Handler): Operation {
    match h
    case CreditCardPayment | PayPalPayment | PlanPayment => Payment
    case CreditCardRefund | PayPalRefund | PlanRefund => Refund
  }

  lemma MethodNameInjective(m: Method, n: Method)
    ensures MethodName(m) == MethodName(n) <==> m == n
  {
  }

  // ---------------------------------------------------------------------------
  // The source's predicates.

  predicate IsOpen(t: Transaction) {
    t.status == StatusOpen
  }

  predicate IsPayment(t: Transaction) {
    t.kind == KindPayment
  }

  predicate IsRefund(t: Transaction) {
    t.kind == KindRefund
  }

  predicate UsesTransactionMethod(t: Transaction, name: string) {
    t.paymentMethod == name
  }

  /** The handler `processWithProcessor` picks: payment if the type is PAYMENT,
      refund otherwise. */
  function OperationOf(t: Transaction): Operation {
    if IsPayment(t) then Payment else Refund
  }

  /** No type is both PAYMENT and REFUND, so on a PAYMENT or REFUND transaction
      the `else` branch of `processWithProcessor` is taken exactly for REFUND. */
  lemma ValidatedElseIsRefund(t: Transaction)
    requires IsPayment(t) || IsRefund(t)
    ensures !(IsPayment(t) && IsRefund(t))
    ensures OperationOf(t) == Refund <==> IsRefund(t)
  {
  }

  // ---------------------------------------------------------------------------
  // Handlers and dispatch.

  /** The literal text each handler prints before the amount. */
  function HandlerPrefix(h: Handler): string {
    match h
    case CreditCardPayment => "Processing credit card payment for amount: "
    case CreditCardRefund => "Processing credit card refund for amount: "
    case PayPalPayment => "Processing PayPal payment for amount: "
    case PayPalRefund => "Processing PayPal refund for amount: "
    case PlanPayment => "Processing plan payment for amount: "
    case PlanRefund => "Processing plan refund for amount: "
  }

  // Each handler's literal text is the shared sentence shape filled in. The
  // six one-line lemmas only split this string arithmetic into small proof
  // obligations for the solver; HandlerPrefixSpelledOut combines them.

  lemma CreditCardPaymentPrefix()
    ensures ExpectedPrefix(CreditCard, Payment) == "Processing credit card payment for amount: "
  {
  }

  lemma CreditCardRefundPrefix()
    ensures ExpectedPrefix(CreditCard, Refund) == "Processing credit card refund for amount: "
  {
  }

  lemma PayPalPaymentPrefix()
    ensures ExpectedPrefix(PayPal, Payment) == "Processing PayPal payment for amount: "
  {
  }

  lemma PayPalRefundPrefix()
    ensures ExpectedPrefix(PayPal, Refund) == "Processing PayPal refund for amount: "
  {
  }

  lemma PlanPaymentPrefix()
    ensures ExpectedPrefix(Plan, Payment) == "Processing plan payment for amount: "
  {
  }

  lemma PlanRefundPrefix()
    ensures ExpectedPrefix(Plan, Refund) == "Processing plan refund for amount: "
  {
  }

  lemma HandlerPrefixSpelledOut(h: Handler)
    ensures HandlerPrefix(h) == ExpectedPrefix(HandlerMethod(h), HandlerOperation(h))
  {
    match h
    case CreditCardPayment => CreditCardPaymentPrefix();
    case CreditCardRefund => CreditCardRefundPrefix();
    case PayPalPayment => PayPalPaymentPrefix();
    case PayPalRefund => PayPalRefundPrefix();
    case PlanPayment => PlanPaymentPrefix();
    case PlanRefund => PlanRefundPrefix();
  }

  /** The one line a handler prints: its method's label, its operation and the
      amount, in the fixed sentence shape. */
  function HandlerLine(h: Handler, t: Transaction): (line: string)
    ensures line == ExpectedLine(HandlerMethod(h), HandlerOperation(h), t.amount)
  {
    HandlerPrefixSpelledOut(h);
    HandlerPrefix(h) + t.amount
  }

  /** The dispatch table: exact string match on the method, first match wins,
      and both handlers stay null when nothing matches. */
  function GetTransactionProcessors(t: Transaction): (p: Processors)
    ensures p.processPayment.Some? <==> KnownMethod(t.paymentMethod)
    ensures p.processRefund.Some? <==> KnownMethod(t.paymentMethod)
    ensures p.processPayment.Some? ==>
              && MethodName(HandlerMethod(p.processPayment.value)) == t.paymentMethod
              && HandlerOperation(p.processPayment.value) == Payment
    ensures p.processRefund.Some? ==>
              && MethodName(HandlerMethod(p.processRefund.value)) == t.paymentMethod
              && HandlerOperation(p.processRefund.value) == Refund
  {
    if UsesTransactionMethod(t, TypeCreditCard) then
      assert MethodName(CreditCard) == t.paymentMethod;
      Processors(Some(CreditCardPayment), Some(CreditCardRefund))
    else if UsesTransactionMethod(t, TypePayPal) then
      assert MethodName(PayPal) == t.paymentMethod;
      Processors(Some(PayPalPayment), Some(PayPalRefund))
    else if UsesTransactionMethod(t, TypePlan) then
      assert MethodName(Plan) == t.paymentMethod;
      Processors(Some(PlanPayment), Some(PlanRefund))
    else
      Processors(None, None)
  }

  /** Calling a handler slot: a present handler prints its line, a null one
      throws a TypeError that carries no `item` and no `code`. */
  function Call(h: Option<Handler>, op: Operation, t: Transaction): (r: Result<string, Error>)
    ensures r.Success? <==> h.Some?
    ensures h.Some? ==> r == Success(ExpectedLine(HandlerMethod(h.value), HandlerOperation(h.value), t.amount))
    ensures r.Failure? ==> r.error == Error(NullHandlerCall(op), None, None)
  {
    match h
    case Some(handler) => Success(HandlerLine(handler, t))
    case None => Failure(Error(NullHandlerCall(op), None, None))
  }

  /** `processWithProcessor`: look up the handler pair and call the one that
      matches the transaction's type. */
  function ProcessWithProcessor(t: Transaction): (r: Result<string, Error>)
    ensures r.Success? <==> KnownMethod(t.paymentMethod)
    ensures forall m :: MethodName(m) == t.paymentMethod ==>
              r == Success(ExpectedLine(m, OperationOf(t), t.amount))
    ensures !KnownMethod(t.paymentMethod) ==>
              r == Failure(Error(NullHandlerCall(OperationOf(t)), None, None))
  {
    var processors := GetTransactionProcessors(t);
    var r := if IsPayment(t) then Call(processors.processPayment, Payment, t)
             else Call(processors.processRefund, Refund, t);
    assert forall m :: MethodName(m) == t.paymentMethod ==> r == Success(ExpectedLine(m, OperationOf(t), t.amount)) by {
      forall m | MethodName(m) == t.paymentMethod
        ensures r == Success(ExpectedLine(m, OperationOf(t), t.amount))
      {
        var h := if IsPayment(t) then processors.processPayment.value else processors.processRefund.value;
        MethodNameInjective(HandlerMethod(h), m);
      }
    }
    r
  }

  // ---------------------------------------------------------------------------
  // Validation and per-item processing.

  /** `validateTransaction`: the status is checked first and its error carries no
      item; a bad type on an open transaction carries the transaction. */
  function ValidateTransaction(t: Transaction): (r: Outcome<Error>)
    ensures r.Pass? <==> IsOpen(t) && (IsPayment(t) || IsRefund(t))
    ensures r.Fail? ==> r.error.message == Text(InvalidTransactionType) && r.error.code == None
    ensures r.Fail? && !IsOpen(t) ==> r.error.item == None
    ensures r.Fail? && IsOpen(t) ==> r.error.item == Some(t)
  {
    if !IsOpen(t) then
      Fail(Error(Text(InvalidTransactionType), None, None))
    else if !IsPayment(t) && !IsRefund(t) then
      Fail(Error(Text(InvalidTransactionType), None, Some(t)))
    else
      Pass
  }

  /** `showErrorMessage`: the message, then the item, which defaults to `{}`. */
  function ShowErrorMessage(message: Message, item: Option<Transaction> := None): LogEntry {
    ErrorReport(message, item)
  }

  /** `processTransaction`: validate, dispatch, and catch whatever either throws,
      so that one transaction always yields exactly one log entry. */
  function ProcessTransaction(t: Transaction): (e: LogEntry)
    ensures !IsOpen(t) ==> e == ErrorReport(Text(InvalidTransactionType), None)
    ensures IsOpen(t) && !IsPayment(t) && !IsRefund(t) ==>
              e == ErrorReport(Text(InvalidTransactionType), Some(t))
    ensures forall m :: IsOpen(t) && (IsPayment(t) || IsRefund(t)) && MethodName(m) == t.paymentMethod ==>
              e == Line(ExpectedLine(m, OperationOf(t), t.amount))
    ensures IsOpen(t) && (IsPayment(t) || IsRefund(t)) && !KnownMethod(t.paymentMethod) ==>
              e == ErrorReport(NullHandlerCall(OperationOf(t)), None)
    ensures e.Line? <==> IsOpen(t) && (IsPayment(t) || IsRefund(t)) && KnownMethod(t.paymentMethod)
  {
    match ValidateTransaction(t)
    case Fail(err) => ShowErrorMessage(err.message, err.item)
    case Pass =>
      match ProcessWithProcessor(t)
      case Success(line) => Line(line)
      case Failure(err) => ShowErrorMessage(err.message, err.item)
  }

  /** The `for ... of` loop of `processTransactions`: entry `i` of the output is
      the output of transaction `i`, whatever the other transactions are. */
  function ProcessEach(ts: seq<Transaction>): (out: seq<LogEntry>)
    ensures |out| == |ts|
    ensures forall i :: 0 <= i < |ts| ==> out[i] == ProcessTransaction(ts[i])
  {
    if |ts| == 0 then []
    else ProcessEach(ts[..|ts| - 1]) + [ProcessTransaction(ts[|ts| - 1])]
  }

  lemma ProcessEachAppend(a: seq<Transaction>, b: seq<Transaction>)
    ensures ProcessEach(a + b) == ProcessEach(a) + ProcessEach(b)
  {
    var lhs, rhs := ProcessEach(a + b), ProcessEach(a) + ProcessEach(b);
    forall i | 0 <= i < |lhs|
      ensures lhs[i] == rhs[i]
    {
      if i < |a| {
        assert (a + b)[i] == a[i];
      } else {
        assert (a + b)[i] == b[i - |a|];
      }
    }
  }

  /** Replacing one transaction changes the entry at its position and nothing else. */
  lemma ProcessEachIsolated(ts: seq<Transaction>, i: int, u: Transaction)
    requires 0 <= i < |ts|
    ensures ProcessEach(ts[i := u]) == ProcessEach(ts)[i := ProcessTransaction(u)]
  {
  }

  // ---------------------------------------------------------------------------
  // The batch.

  /** `isEmpty`: an absent batch (`None`) or one with no transactions. */
  predicate IsEmpty(batch: Option<seq<Transaction>>) {
    batch.None? || |batch.value| == 0
  }

  /** `validateTransactions`: an empty batch throws the fatal error with code 1. */
  function ValidateTransactions(batch: Option<seq<Transaction>>): (r: Outcome<Error>)
    ensures r.Fail? <==> IsEmpty(batch)
    ensures r.Fail? ==> r.error == Error(Text(NoTransactionsProvided), Some(1), None)
  {
    if IsEmpty(batch) then Fail(Error(Text(NoTransactionsProvided), Some(1), None)) else Pass
  }

  /** `processTransactions`: the batch check comes first and, when it throws,
      nothing has been processed; otherwise every per-item error is caught inside
      the loop, so nothing escapes. */
  function ProcessTransactions(batch: Option<seq<Transaction>>): (r: Result<seq<LogEntry>, Error>)
    ensures r.Failure? <==> IsEmpty(batch)
    ensures r.Failure? ==> r.error == Error(Text(NoTransactionsProvided), Some(1), None)
    ensures r.Success? ==> |r.value| == |batch.value|
    ensures r.Success? ==> forall i :: 0 <= i < |batch.value| ==> r.value[i] == ProcessTransaction(batch.value[i])
  {
    match ValidateTransactions(batch)
    case Fail(err) => Failure(err)
    case Pass => Success(ProcessEach(batch.value))
  }

  /** `main`'s try/catch around `processTransactions`, with the batch as a
      parameter; the catch calls `showErrorMessage` with the message only. */
  function Run(batch: Option<seq<Transaction>>): (out: seq<LogEntry>)
    ensures IsEmpty(batch) ==> out == [ErrorReport(Text(NoTransactionsProvided), None)]
    ensures !IsEmpty(batch) ==> out == ProcessEach(batch.value)
  {
    match ProcessTransactions(batch)
    case Failure(err) => [ShowErrorMessage(err.message)]
    case Success(log) => log
  }

  /** The four literal transactions of `main`. */
  function SampleBatch(): seq<Transaction> {
    [ Transaction("t1", "PAYMENT", "OPEN", "CREDIT_CARD", "23.99"),
      Transaction("t2", "PAYMENT", "OPEN", "PAYPAL", "100.43"),
      Transaction("t3", "REFUND", "OPEN", "CREDIT_CARD", "10.99"),
      Transaction("t4", "PAYMENT", "CLOSED", "PLAN", "15.99") ]
  }

  /** The output `main` produces for its sample batch. */
  function SampleOutput(): seq<LogEntry> {
    [ Line("Processing credit card payment for amount: 23.99"),
      Line("Processing PayPal payment for amount: 100.43"),
      Line("Processing credit card refund for amount: 10.99"),
      ErrorReport(Text(InvalidTransactionType), None) ]
  }

  // SampleEntry0-2 only split the sample batch's string arithmetic into small
  // proof obligations for the solver; SampleBatchOutput combines them.

  lemma SampleEntry0()
    ensures ProcessTransaction(SampleBatch()[0]) == SampleOutput()[0]
  {
  }

  lemma SampleEntry1()
    ensures ProcessTransaction(SampleBatch()[1]) == SampleOutput()[1]
  {
  }

  lemma SampleEntry2()
    ensures ProcessTransaction(SampleBatch()[2]) == SampleOutput()[2]
  {
  }

  /** `main`'s batch prints three handler lines, for t1, t2 and t3, then one
      error report without an item for the closed t4. */
  lemma SampleBatchOutput()
    ensures Run(Some(SampleBatch())) == SampleOutput()
  {
    SampleEntry0();
    SampleEntry1();
    SampleEntry2();
    assert !IsOpen(SampleBatch()[3]);
    var out := Run(Some(SampleBatch()));
    assert |out| == 4;
    assert forall i :: 0 <= i < 4 ==> out[i] == SampleOutput()[i];
  }

  // ---------------------------------------------------------------------------
  // The per-method helpers `process{CreditCard,PayPal,Plan}Transaction`, which
  // `main` never calls. They check the type but neither the status nor the
  // method, and print nothing for a type that is neither PAYMENT nor REFUND.

  function ProcessMethodTransaction(m: Method, t: Transaction): (out: seq<LogEntry>)
    ensures IsPayment(t) || IsRefund(t) ==> out == [Line(ExpectedLine(m, OperationOf(t), t.amount))]
    ensures !IsPayment(t) && !IsRefund(t) ==> out == []
  {
    var (payment, refund) :=
      match m
      case CreditCard => (CreditCardPayment, CreditCardRefund)
      case PayPal => (PayPalPayment, PayPalRefund)
      case Plan => (PlanPayment, PlanRefund);
    if IsPayment(t) then [Line(HandlerLine(payment, t))]
    else if IsRefund(t) then [Line(HandlerLine(refund, t))]
    else []
  }

  /** For a PAYMENT or REFUND transaction whose method is `m`, the per-method
      helper prints the same line as the dispatch table. */
  lemma MethodHelperAgreesWithDispatch(m: Method, t: Transaction)
    requires IsPayment(t) || IsRefund(t)
    requires MethodName(m) == t.paymentMethod
    ensures ProcessWithProcessor(t).Success?
    ensures ProcessMethodTransaction(m, t) == [Line(ProcessWithProcessor(t).value)]
  {
  }
}
