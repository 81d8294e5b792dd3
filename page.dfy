/**
 * The checkout page's mutable state and its handlers, from
 * javascripts/payments.js. Each handler changes the fields one step at a
 * time as the page does, and its contract ties the new state and the
 * trace of outside calls to the specification functions of `Payments`.
 */
module CheckoutPage {
  import opened Wrappers
  import opened Payments

  class Page {
    // The `#main` element's class list, the confirmation note and error message.
    var mainClasses: set<string>
    var note: string
    var errorMessage: string
    // The submit button.
    var buttonText: string
    var buttonDisabled: bool
    // The page-wide `paymentIntent` variable; None while it is undefined.
    var paymentIntent: Option<Intent>
    // The `input[name=payment]` values, whether each one's tab is shown,
    // whether the tab bar is shown, which input is checked and whether
    // the card details are shown.
    const inputs: seq<string>
    var itemVisible: seq<bool>
    var tabsVisible: bool
    var checked: Option<nat>
    var cardInfoVisible: bool
    // Calls to the outside and faults, in order.
    var trace: seq<Effect>

    ghost predicate Valid()
      reads this
    {
      |itemVisible| == |inputs|
    }

    function View(): Screen
      reads this
    {
      Screen(mainClasses, note, errorMessage)
    }

    constructor (classes: set<string>, inputs: seq<string>, shown: seq<bool>, buttonText: string)
      requires |shown| == |inputs|
      ensures Valid()
      ensures View() == Screen(classes, "", "") && this.inputs == inputs && itemVisible == shown
      ensures this.buttonText == buttonText && !buttonDisabled && paymentIntent.None?
      ensures !tabsVisible && checked.None? && !cardInfoVisible && trace == []
    {
      mainClasses, note, errorMessage := classes, "", "";
      this.buttonText, buttonDisabled := buttonText, false;
      paymentIntent := None;
      this.inputs, itemVisible := inputs, shown;
      tabsVisible, checked, cardInfoVisible := false, None, false;
      trace := [];
    }

    /** handlePayment: show the outcome of a `{paymentIntent, error}` response. */
    method HandlePayment(r: Response)
      modifies this`mainClasses, this`note, this`errorMessage, this`trace
      ensures View() == ScreenAfter(old(View()), r)
      ensures trace == old(trace) + PaymentEffects(r)
    {
      trace := trace + [HandledPayment(r)];
      if r.error.Some? {
        mainClasses := mainClasses - {Processing};
        mainClasses := mainClasses - {Receiver};
        errorMessage := r.error.value.message;
        mainClasses := mainClasses + {ErrorClass};
      } else if r.paymentIntent.None? {
        trace := trace + [TypeError];
      } else if r.paymentIntent.value.status == "succeeded" {
        mainClasses := mainClasses - {Processing};
        mainClasses := mainClasses - {Receiver};
        note := ReceiptNote;
        mainClasses := mainClasses + {Success};
      } else if r.paymentIntent.value.status == "processing" {
        mainClasses := mainClasses - {Processing};
        note := PendingNote;
        mainClasses := mainClasses + {Success};
      } else {
        mainClasses := mainClasses - {Success};
        mainClasses := mainClasses - {Processing};
        mainClasses := mainClasses - {Receiver};
        mainClasses := mainClasses + {ErrorClass};
      }
    }

    /**
     * pollPaymentIntentStatus: request the status of intent `id` once per
     * observation until one stops the polling. The self-rescheduling timer
     * is the loop; `start` is the clock reading of the first call.
     */
    method PollPaymentIntentStatus(id: string, timeout: int, interval: int, start: int, obs: seq<Observation>)
      modifies this`mainClasses, this`note, this`errorMessage, this`trace
      ensures View() == AfterPoll(old(View()), start, timeout, obs)
      ensures trace == old(trace) + PollEffects(id, interval, start, timeout, obs)
    {
      var i := 0;
      while i < |obs|
        invariant i <= StopIndex(obs, start, timeout)
        invariant View() == old(View())
        invariant trace == old(trace) + PollRounds(id, interval, i)
      {
        trace := trace + [StatusRequest(id)];
        var response := obs[i].response;
        if !KeepsPolling(obs[i], start, timeout) {
          if response.paymentIntent.None? {
            trace := trace + [TypeError];
          } else {
            HandlePayment(response);
            if !IsEndState(response.paymentIntent.value.status) {
              trace := trace + [Warn(TimeoutWarning)];
            }
          }
          return;
        }
        trace := trace + [ScheduleRetry(interval)];
        i := i + 1;
      }
    }

    /** handleSourceActiviation: act on the flow of a freshly created source. */
    method HandleSourceActivation(source: Source, pollStart: int, obs: seq<Observation>)
      modifies this`mainClasses, this`note, this`errorMessage, this`trace, this`buttonText
      ensures View() == ActivationScreen(old(View()), source, paymentIntent, pollStart, obs)
      ensures trace == old(trace) + ActivationEffects(source, paymentIntent, pollStart, obs)
      ensures buttonText == if source.flow == "redirect" then RedirectingLabel else old(buttonText)
    {
      if source.flow == "none" {
      } else if source.flow == "redirect" {
        buttonText := RedirectingLabel;
        trace := trace + [Navigate(source.redirectUrl)];
      } else if source.flow == "code_verification" {
      } else if source.flow == "receiver" {
        mainClasses := mainClasses + {Success, Receiver};
        match paymentIntent
        case None =>
          trace := trace + [TypeError];
        case Some(pi) =>
          PollPaymentIntentStatus(pi.id, PollTimeout, PollInterval, pollStart, obs);
      }
    }

    /**
     * The submit handler: confirm the intent with the card element, or create
     * a source for another method and act on its flow.
     */
    method Submit(selected: string, name: string, email: string, pageUrl: string,
                  cardResponse: Response, created: Option<Source>, pollStart: int, obs: seq<Observation>)
      modifies this`buttonDisabled, this`buttonText, this`mainClasses, this`note, this`errorMessage, this`trace
      ensures buttonDisabled
      ensures paymentIntent.None? ==>
        buttonText == ProcessingLabel && View() == old(View()) && trace == old(trace) + [TypeError]
      ensures paymentIntent.Some? && selected == "card" ==>
        buttonText == ProcessingLabel && View() == ScreenAfter(old(View()), cardResponse) &&
        trace == old(trace) + [ConfirmCardPayment(paymentIntent.value.clientSecret, WithCard(name, email))]
                            + PaymentEffects(cardResponse)
      ensures paymentIntent.Some? && selected != "card" ==>
        var request := SourceRequestFor(selected, paymentIntent.value, name, email, pageUrl);
        match created
        case None =>
          buttonText == ProcessingLabel && View() == old(View()) &&
          trace == old(trace) + [CreateSource(request), TypeError]
        case Some(source) =>
          buttonText == (if source.flow == "redirect" then RedirectingLabel else ProcessingLabel) &&
          View() == ActivationScreen(old(View()), source, paymentIntent, pollStart, obs) &&
          trace == old(trace) + [CreateSource(request)] + ActivationEffects(source, paymentIntent, pollStart, obs)
    {
      buttonDisabled := true;
      buttonText := ProcessingLabel;
      if paymentIntent.None? {
        trace := trace + [TypeError];
        return;
      }
      var pi := paymentIntent.value;
      if selected == "card" {
        trace := trace + [ConfirmCardPayment(pi.clientSecret, WithCard(name, email))];
        HandlePayment(cardResponse);
      } else {
        var request := SourceRequestFor(selected, pi, name, email, pageUrl);
        trace := trace + [CreateSource(request)];
        match created
        case None =>
          trace := trace + [TypeError];
        case Some(source) =>
          HandleSourceActivation(source, pollStart, obs);
      }
    }

    /**
     * The payment request's `paymentmethod` handler: confirm without handling
     * actions, acknowledge the browser sheet, then confirm again on success.
     */
    method OnPaymentMethod(methodId: string, first: Response, second: Response)
      modifies this`mainClasses, this`note, this`errorMessage, this`trace
      ensures paymentIntent.None? ==> View() == old(View()) && trace == old(trace) + [TypeError]
      ensures paymentIntent.Some? ==>
        View() == PaymentRequestScreen(old(View()), first, second) &&
        trace == old(trace) + PaymentRequestEffects(paymentIntent.value.clientSecret, methodId, first, second)
    {
      if paymentIntent.None? {
        trace := trace + [TypeError];
        return;
      }
      var secret := paymentIntent.value.clientSecret;
      trace := trace + [ConfirmCardPayment(secret, WithPaymentMethod(methodId))];
      if first.error.Some? {
        trace := trace + [CompletePaymentRequest("fail")];
        HandlePayment(Response(None, first.error));
      } else {
        trace := trace + [CompletePaymentRequest("success")];
        trace := trace + [ConfirmCardPayment(secret, Plain)];
        HandlePayment(second);
      }
    }

    /**
     * The start-up decision on the URL's query parameters: resume after a
     * source redirect, resume an intent, or start a new checkout.
     */
    method Start(query: map<string, string>, retrieved: Option<Source>, created: Option<Intent>,
                 pollStart: int, obs: seq<Observation>)
      modifies this`mainClasses, this`note, this`errorMessage, this`trace, this`paymentIntent
      ensures match EntryBranch(query)
        case ResumeSource(id, secret) =>
          var shown := old(View()).Add({CheckoutClass, Success, Processing});
          paymentIntent == old(paymentIntent) &&
          (match retrieved
           case None =>
             View() == shown && trace == old(trace) + [RetrieveSource(id, secret), TypeError]
           case Some(source) =>
             View() == AfterPoll(shown, pollStart, PollTimeout, obs).Remove({Loading}) &&
             trace == old(trace) + [RetrieveSource(id, secret)]
                                 + PollEffects(source.metadataPaymentIntent, PollInterval, pollStart, PollTimeout, obs))
        case ResumeIntent(id) =>
          paymentIntent == old(paymentIntent) &&
          View() == AfterPoll(old(View()), pollStart, PollTimeout, obs).Remove({Loading}) &&
          trace == old(trace) + PollEffects(id, PollInterval, pollStart, PollTimeout, obs)
        case NewCheckout =>
          paymentIntent == created &&
          View() == old(View()).Add({CheckoutClass}).Remove({Loading}) &&
          trace == old(trace) + [CreatePaymentIntent]
    {
      var source, secret, intent := Param(query, "source"), Param(query, "client_secret"), Param(query, "payment_intent");
      if source != "" && secret != "" {
        mainClasses := mainClasses + {CheckoutClass, Success, Processing};
        trace := trace + [RetrieveSource(source, secret)];
        if retrieved.None? {
          trace := trace + [TypeError];
          return;
        }
        PollPaymentIntentStatus(retrieved.value.metadataPaymentIntent, PollTimeout, PollInterval, pollStart, obs);
      } else if intent != "" {
        PollPaymentIntentStatus(intent, PollTimeout, PollInterval, pollStart, obs);
      } else {
        mainClasses := mainClasses + {CheckoutClass};
        trace := trace + [CreatePaymentIntent];
        paymentIntent := created;
      }
      mainClasses := mainClasses - {Loading};
    }

    /** updateButtonLabel: label the submit button for the selected method. */
    method UpdateButtonLabel(selected: string, amount: string, table: map<string, MethodInfo>)
      modifies this`buttonText, this`trace
      ensures buttonText == ButtonLabel(selected, amount, table).GetOr(old(buttonText))
      ensures trace == old(trace) + LabelEffects(selected, table)
    {
      if selected !in table {
        trace := trace + [TypeError];
        return;
      }
      var name := table[selected].name;
      var text := "Pay " + amount;
      if selected != "card" {
        text := "Pay " + amount + " with " + name;
      }
      buttonText := text;
    }

    /**
     * showRelevantPaymentMethods: show each payment tab that is relevant to
     * `country`, show the tab bar when more than one tab is shown, check the
     * first input and label the button for it.
     */
    method ShowRelevantPaymentMethods(country: string, config: Config, table: map<string, MethodInfo>, amount: string)
      requires Valid()
      modifies this`itemVisible, this`tabsVisible, this`checked, this`cardInfoVisible, this`buttonText, this`trace
      ensures Valid()
      ensures var k := FirstUnknown(inputs, country, config, table);
        (forall j :: 0 <= j < k ==> Relevant(inputs[j], country, config, table) == Some(itemVisible[j])) &&
        (forall j :: k <= j < |inputs| ==> itemVisible[j] == old(itemVisible[j]))
      ensures FirstUnknown(inputs, country, config, table) < |inputs| ==>
        tabsVisible == old(tabsVisible) && checked == old(checked) && cardInfoVisible == old(cardInfoVisible) &&
        buttonText == old(buttonText) && trace == old(trace) + [TypeError]
      ensures FirstUnknown(inputs, country, config, table) == |inputs| ==>
        tabsVisible == (CountVisible(itemVisible) > 1)
      ensures inputs == [] ==>
        checked == old(checked) && cardInfoVisible == old(cardInfoVisible) &&
        buttonText == old(buttonText) && trace == old(trace) + [TypeError]
      ensures inputs != [] && FirstUnknown(inputs, country, config, table) == |inputs| ==>
        checked == Some(0) && cardInfoVisible &&
        buttonText == ButtonLabel(inputs[0], amount, table).GetOr(old(buttonText)) &&
        trace == old(trace) + LabelEffects(inputs[0], table)
    {
      var i := 0;
      while i < |inputs|
        invariant i <= FirstUnknown(inputs, country, config, table)
        invariant |itemVisible| == |inputs|
        invariant forall j :: 0 <= j < i ==> Relevant(inputs[j], country, config, table) == Some(itemVisible[j])
        invariant forall j :: i <= j < |inputs| ==> itemVisible[j] == old(itemVisible[j])
        invariant trace == old(trace)
        modifies this`itemVisible, this`trace
      {
        var shown := Relevant(inputs[i], country, config, table);
        if shown.None? {
          trace := trace + [TypeError];
          return;
        }
        itemVisible := itemVisible[i := shown.value];
        i := i + 1;
      }
      tabsVisible := CountVisible(itemVisible) > 1;
      if inputs == [] {
        trace := trace + [TypeError];
        return;
      }
      checked := Some(0);
      cardInfoVisible := true;
      UpdateButtonLabel(inputs[0], amount, table);
    }
  }
}
