/**
 * Clients of the checkout page: start-up scenarios followed through the
 * handlers' contracts alone.
 */
module Scenarios {
  import opened Wrappers
  import opened Sequences
  import opened Payments
  import opened CheckoutPage

  /**
   * Returning with `?payment_intent=pi_123`: the page polls pi_123 once,
   * handles the `succeeded` response, shows the receipt note and drops
   * `loading`.
   */
  method ResumeIntentScenario(now: int)
  {
    var page := new Page({Loading}, ["card"], [false], "Pay");
    var query := map["payment_intent" := "pi_123"];
    var response := Response(Some(Intent("pi_123", "secret", 1050, "usd", "succeeded")), None);
    var obs := [Observation(now, response)];
    assert EntryBranch(query) == ResumeIntent("pi_123");
    assert !KeepsPolling(obs[0], now, PollTimeout);
    assert StopIndex(obs, now, PollTimeout) == 0;
    page.Start(query, None, None, now, obs);
    assert page.trace == [StatusRequest("pi_123"), HandledPayment(response)];
    assert page.note == ReceiptNote;
    assert page.mainClasses == {Success};
  }

  /**
   * Returning with `?source=src_1&client_secret=sec_1`: the page retrieves
   * the source and polls the intent named in its metadata, not `src_1`.
   * A `processing` status stops the poll with the pending note.
   */
  method ResumeSourceScenario(now: int)
  {
    var page := new Page({Loading}, ["card"], [false], "Pay");
    var query := map["source" := "src_1", "client_secret" := "sec_1"];
    var source := Source("src_1", "redirect", "https://bank.example", "pi_9");
    var response := Response(Some(Intent("pi_9", "secret", 1050, "usd", "processing")), None);
    var obs := [Observation(now, response)];
    assert EntryBranch(query) == ResumeSource("src_1", "sec_1");
    assert !KeepsPolling(obs[0], now, PollTimeout);
    assert StopIndex(obs, now, PollTimeout) == 0;
    page.Start(query, Some(source), None, now, obs);
    assert page.trace == [RetrieveSource("src_1", "sec_1"), StatusRequest("pi_9"), HandledPayment(response)];
    assert page.note == PendingNote;
    assert page.mainClasses == {CheckoutClass, Success};
  }

  /**
   * A receiver source whose intent stays `requires_payment_method`: one retry,
   * then the deadline passes, the last response is handled (the fallback
   * branch shows `error`) and the timeout warning is logged.
   */
  method ReceiverTimeoutScenario(start: int)
  {
    var page := new Page({CheckoutClass}, ["card"], [false], "Pay");
    var pi := Intent("pi_7", "secret_7", 1050, "usd", "requires_payment_method");
    page.Start(map[], None, Some(pi), start, []);
    assert page.paymentIntent == Some(pi);
    var source := Source("src_7", "receiver", "", "pi_7");
    var response := Response(Some(pi), None);
    var obs := [Observation(start + 10, response), Observation(start + PollTimeout, response)];
    assert KeepsPolling(obs[0], start, PollTimeout) && !KeepsPolling(obs[1], start, PollTimeout);
    assert StopIndex(obs, start, PollTimeout) == 1 by {
      assert obs[1..] == [obs[1]];
    }
    page.Submit("wechat", "Ann", "ann@example.com", "https://shop.example/", response, Some(source), start, obs);
    var request := SourceRequest("wechat", 1050, "usd", "Ann", "ann@example.com", "https://shop.example/", StatementDescriptor, "pi_7");
    assert page.trace == [CreatePaymentIntent, CreateSource(request), StatusRequest("pi_7"), ScheduleRetry(PollInterval),
                          StatusRequest("pi_7"), HandledPayment(response), Warn(TimeoutWarning)];
    assert page.mainClasses == {CheckoutClass, ErrorClass};
    assert page.buttonText == ProcessingLabel && page.buttonDisabled;
  }
}
