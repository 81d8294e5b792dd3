/**
 * The checkout page of javascripts/payments.js, taken out of the browser:
 * the values it handles, its constants, and the pure decisions it makes.
 *
 * The `#main` element's class list is a set of strings, the confirmation
 * note and error message are strings, and every call that the modelled
 * handlers make into the payment SDK, the backend, the clock or the
 * browser is an `Effect` recorded in a trace. Responses of those calls
 * are inputs.
 */
module Payments {
  import opened Wrappers
  import opened Sequences

  // Class names the page puts on the `#main` element.
  const Loading := "loading"
  const CheckoutClass := "checkout"
  const Processing := "processing"
  const Success := "success"
  const Receiver := "receiver"
  const ErrorClass := "error"

  // Texts the page writes.
  const ReceiptNote :=
    "We just sent your receipt to your email address, and your items will be on their way shortly."
  const PendingNote :=
    "We\U{2019}ll send your receipt and ship your items as soon as your payment is confirmed."
  const ProcessingLabel := "Processing\U{2026}"
  const RedirectingLabel := "Redirecting\U{2026}"
  const TimeoutWarning := "Polling timed out."
  const StatementDescriptor := "Stripe Payments Demo"

  // Defaults of the status poller, in milliseconds.
  const PollTimeout := 30000
  const PollInterval := 500

  /** Payment-intent statuses after which the poller stops. */
  const EndStates := ["succeeded", "processing", "canceled"]

  datatype Intent = Intent(id: string, clientSecret: string, amount: int, currency: string, status: string)

  datatype SdkError = SdkError(message: string)

  /** A `{paymentIntent, error}` response; either part may be missing. */
  datatype Response = Response(paymentIntent: Option<Intent>, error: Option<SdkError>)

  /** A payment source as the SDK returns it (`redirect.url`, `metadata.paymentIntent` flattened). */
  datatype Source = Source(id: string, flow: string, redirectUrl: string, metadataPaymentIntent: string)

  /** The source-creation request the submit handler builds for a non-card method. */
  datatype SourceRequest = SourceRequest(
    kind: string, amount: int, currency: string,
    ownerName: string, ownerEmail: string,
    returnUrl: string, statementDescriptor: string,
    metadataPaymentIntent: string)

  /** One poll round: the clock reading taken after the status request, and its response. */
  datatype Observation = Observation(now: int, response: Response)

  /** An entry of the payment-method table. */
  datatype MethodInfo = MethodInfo(name: string, flow: string, countries: seq<string>, currencies: seq<string>)

  /** The store configuration the page reads: its currency and the enabled method names. */
  datatype Config = Config(currency: string, paymentMethods: seq<string>)

  /** How a card payment is confirmed. */
  datatype Confirmation =
    | WithPaymentMethod(methodId: string)   // payment-request method, `handleActions: false`
    | WithCard(name: string, email: string) // the card element with billing details
    | Plain                                 // only the client secret

  /** Calls the page makes to the outside, and faults it raises, in order. */
  datatype Effect =
    | ConfirmCardPayment(clientSecret: string, how: Confirmation)
    | CompletePaymentRequest(result: string)
    | CreateSource(request: SourceRequest)
    | RetrieveSource(sourceId: string, clientSecret: string)
    | CreatePaymentIntent
    | StatusRequest(intentId: string)
    | ScheduleRetry(delay: int)
    | Navigate(url: string)
    | Warn(message: string)
    | HandledPayment(response: Response)
    | TypeError   // a property read on `undefined`: the running handler stops here

  predicate IsHandled(e: Effect) { e.HandledPayment? }
  predicate IsRequest(e: Effect) { e.StatusRequest? }
  predicate IsCompletion(e: Effect) { e.CompletePaymentRequest? }
  predicate IsConfirmation(e: Effect) { e.ConfirmCardPayment? }

  /** What the confirmation screen shows: `#main`'s classes, the note and the error message. */
  datatype Screen = Screen(classes: set<string>, note: string, errorMessage: string) {
    function Add(cs: set<string>): Screen { this.(classes := classes + cs) }
    function Remove(cs: set<string>): Screen { this.(classes := classes - cs) }
  }

  predicate IsEndState(status: string) { status in EndStates }

  /**
   * handlePayment: the screen after a `{paymentIntent, error}` response, or None
   * when the response has neither part (reading `paymentIntent.status` throws).
   */
  function AfterPayment(s: Screen, r: Response): (t: Option<Screen>)
    ensures t.None? <==> Unreadable(r)
    // An error wins; the intent is not looked at and `success` is left alone.
    ensures r.error.Some? ==>
      t.Some? && t.value.errorMessage == r.error.value.message && t.value.note == s.note &&
      forall c :: c in t.value.classes <==> c == ErrorClass || (c in s.classes && c != Processing && c != Receiver)
    ensures r.error.None? && r.paymentIntent.Some? && r.paymentIntent.value.status == "succeeded" ==>
      t.Some? && t.value.note == ReceiptNote && t.value.errorMessage == s.errorMessage &&
      forall c :: c in t.value.classes <==> c == Success || (c in s.classes && c != Processing && c != Receiver)
    // `processing` differs from `succeeded` in the note and in keeping `receiver`.
    ensures r.error.None? && r.paymentIntent.Some? && r.paymentIntent.value.status == "processing" ==>
      t.Some? && t.value.note == PendingNote && t.value.errorMessage == s.errorMessage &&
      forall c :: c in t.value.classes <==> c == Success || (c in s.classes && c != Processing)
    ensures r.error.None? && r.paymentIntent.Some? && r.paymentIntent.value.status !in {"succeeded", "processing"} ==>
      t.Some? && t.value.note == s.note && t.value.errorMessage == s.errorMessage &&
      forall c :: c in t.value.classes <==> c == ErrorClass || (c in s.classes && c !in {Success, Processing, Receiver})
  {
    match r.error
    case Some(e) =>
      Some(s.Remove({Processing}).Remove({Receiver}).(errorMessage := e.message).Add({ErrorClass}))
    case None =>
      match r.paymentIntent
      case None => None
      case Some(pi) =>
        if pi.status == "succeeded" then
          Some(s.Remove({Processing}).Remove({Receiver}).(note := ReceiptNote).Add({Success}))
        else if pi.status == "processing" then
          Some(s.Remove({Processing}).(note := PendingNote).Add({Success}))
        else
          Some(s.Remove({Success}).Remove({Processing}).Remove({Receiver}).Add({ErrorClass}))
  }

  /** The screen once handlePayment has run, whether or not it threw. */
  function ScreenAfter(s: Screen, r: Response): Screen
  {
    match AfterPayment(s, r)
    case Some(t) => t
    case None => s
  }

  /** A response handlePayment cannot read: it has neither an error nor an intent. */
  predicate Unreadable(r: Response) { r.error.None? && r.paymentIntent.None? }

  /** The trace handlePayment leaves: its invocation, then the fault if it threw. */
  function PaymentEffects(r: Response): seq<Effect>
  {
    [HandledPayment(r)] + (if Unreadable(r) then [TypeError] else [])
  }

  // ---------------------------------------------------------------------------
  // pollPaymentIntentStatus

  /**
   * Whether the poller schedules another request after this observation:
   * the status is not an end state and the deadline fixed by the first call
   * has not passed. A response without an intent makes the test throw.
   */
  predicate KeepsPolling(o: Observation, start: int, timeout: int)
  {
    o.response.paymentIntent.Some? &&
    !IsEndState(o.response.paymentIntent.value.status) &&
    o.now < start + timeout
  }

  /** Index of the observation at which polling stops, or `|obs|` if it is still going. */
  function StopIndex(obs: seq<Observation>, start: int, timeout: int): nat
  {
    FirstFailing(obs, o => KeepsPolling(o, start, timeout))
  }

  /** `n` rounds that each request the status and schedule the next round. */
  function PollRounds(id: string, interval: int, n: nat): seq<Effect>
  {
    if n == 0 then [] else PollRounds(id, interval, n - 1) + [StatusRequest(id), ScheduleRetry(interval)]
  }

  /** What the last round does with the response it stopped on. */
  function FinalEffects(r: Response): seq<Effect>
  {
    match r.paymentIntent
    case None => [TypeError]
    case Some(pi) => PaymentEffects(r) + (if IsEndState(pi.status) then [] else [Warn(TimeoutWarning)])
  }

  /** The whole trace of one poll started on `id` at clock reading `start`. */
  function PollEffects(id: string, interval: int, start: int, timeout: int, obs: seq<Observation>): seq<Effect>
  {
    var k := StopIndex(obs, start, timeout);
    PollRounds(id, interval, k) + (if k == |obs| then [] else [StatusRequest(id)] + FinalEffects(obs[k].response))
  }

  /** The screen after polling: the stopping response handled once, if there is one. */
  function AfterPoll(s: Screen, start: int, timeout: int, obs: seq<Observation>): Screen
  {
    var k := StopIndex(obs, start, timeout);
    if k == |obs| || obs[k].response.paymentIntent.None? then s else ScreenAfter(s, obs[k].response)
  }

  // ---------------------------------------------------------------------------
  // handleSourceActiviation

  /** The trace of handleSourceActiviation, given the page's current intent. */
  function ActivationEffects(source: Source, intent: Option<Intent>, pollStart: int, obs: seq<Observation>): seq<Effect>
  {
    if source.flow == "redirect" then [Navigate(source.redirectUrl)]
    else if source.flow == "receiver" then
      match intent
      case None => [TypeError]
      case Some(pi) => PollEffects(pi.id, PollInterval, pollStart, PollTimeout, obs)
    else []
  }

  /** The screen after handleSourceActiviation. */
  function ActivationScreen(s: Screen, source: Source, intent: Option<Intent>, pollStart: int, obs: seq<Observation>): Screen
  {
    if source.flow == "receiver" then
      var shown := s.Add({Success, Receiver});
      if intent.None? then shown else AfterPoll(shown, pollStart, PollTimeout, obs)
    else s
  }

  // ---------------------------------------------------------------------------
  // Submit handler and payment-request handler

  /** The source request built for a non-card method from the current intent. */
  function SourceRequestFor(kind: string, pi: Intent, name: string, email: string, returnUrl: string): SourceRequest
  {
    SourceRequest(kind, pi.amount, pi.currency, name, email, returnUrl, StatementDescriptor, pi.id)
  }

  /** The trace of the `paymentmethod` handler of the payment request. */
  function PaymentRequestEffects(secret: string, methodId: string, first: Response, second: Response): seq<Effect>
  {
    [ConfirmCardPayment(secret, WithPaymentMethod(methodId))] +
    if first.error.Some? then
      [CompletePaymentRequest("fail")] + PaymentEffects(Response(None, first.error))
    else
      [CompletePaymentRequest("success"), ConfirmCardPayment(secret, Plain)] + PaymentEffects(second)
  }

  /** The screen after the `paymentmethod` handler. */
  function PaymentRequestScreen(s: Screen, first: Response, second: Response): Screen
  {
    if first.error.Some? then ScreenAfter(s, Response(None, first.error)) else ScreenAfter(s, second)
  }

  // ---------------------------------------------------------------------------
  // Start-up entry decision

  /** The branch the page takes at start-up. */
  datatype Entry =
    | ResumeSource(sourceId: string, clientSecret: string)
    | ResumeIntent(intentId: string)
    | NewCheckout

  /** `searchParams.get(name)`; a missing parameter reads as "", which is equally falsy. */
  function Param(query: map<string, string>, name: string): string
  {
    if name in query then query[name] else ""
  }

  function EntryBranch(query: map<string, string>): (e: Entry)
    ensures e.ResumeSource? <==> Param(query, "source") != "" && Param(query, "client_secret") != ""
    ensures e.ResumeSource? ==> e.sourceId == Param(query, "source") && e.clientSecret == Param(query, "client_secret")
    ensures e.ResumeIntent? <==>
      (Param(query, "source") == "" || Param(query, "client_secret") == "") && Param(query, "payment_intent") != ""
    ensures e.ResumeIntent? ==> e.intentId == Param(query, "payment_intent")
  {
    var source, secret, intent := Param(query, "source"), Param(query, "client_secret"), Param(query, "payment_intent");
    if source != "" && secret != "" then ResumeSource(source, secret)
    else if intent != "" then ResumeIntent(intent)
    else NewCheckout
  }

  // ---------------------------------------------------------------------------
  // Payment-method visibility and the submit button label

  /**
   * Whether the tab of payment input `value` is shown, or None when the lookup
   * `paymentMethods[value]` is made for a method missing from the table.
   */
  function Relevant(value: string, country: string, config: Config, table: map<string, MethodInfo>): (r: Option<bool>)
    ensures r.None? <==> value != "card" && value in config.paymentMethods && value !in table
    ensures r == Some(true) <==>
      value == "card" ||
      (value in config.paymentMethods && value in table &&
       country in table[value].countries && config.currency in table[value].currencies)
  {
    if value == "card" then Some(true)
    else if value !in config.paymentMethods then Some(false)
    else if value !in table then None
    else Some(country in table[value].countries && config.currency in table[value].currencies)
  }

  /** Index of the first input whose lookup throws, or the number of inputs. */
  function FirstUnknown(inputs: seq<string>, country: string, config: Config, table: map<string, MethodInfo>): nat
  {
    FirstFailing(inputs, v => Relevant(v, country, config, table).Some?)
  }

  /** Number of shown tabs. */
  function CountVisible(flags: seq<bool>): nat
  {
    Count(flags, IsShown)
  }

  predicate IsShown(flag: bool) { flag }

  /** updateButtonLabel: the label for the `selected` method, or None when it is not in the table. */
  function ButtonLabel(selected: string, amount: string, table: map<string, MethodInfo>): (r: Option<string>)
    ensures r.Some? <==> selected in table
    ensures r.Some? ==> |r.value| >= 4 + |amount| && r.value[..4 + |amount|] == "Pay " + amount
    ensures r.Some? && selected == "card" ==> r.value == "Pay " + amount
    ensures r.Some? && selected != "card" ==> r.value[4 + |amount|..] == " with " + table[selected].name
  {
    if selected !in table then None
    else
      var text := "Pay " + amount;
      Some(if selected != "card" then text + " with " + table[selected].name else text)
  }

  /** The trace updateButtonLabel leaves: nothing, or the rejected lookup. */
  function LabelEffects(selected: string, table: map<string, MethodInfo>): seq<Effect>
  {
    if selected in table then [] else [TypeError]
  }
}
