/**
 * Properties of the checkout decisions in `Payments`: how handlePayment
 * maps responses to screens, when the poller stops and what it leaves in
 * the trace, the order of the payment-request handler's calls, the source
 * flow dispatch and the tab-bar rule.
 */
module PaymentFacts {
  import opened Wrappers
  import opened Sequences
  import opened Payments

  // ---------------------------------------------------------------------------
  // handlePayment

  /** With an error present, the intent in the response makes no difference. */
  lemma ErrorIgnoresIntent(s: Screen, e: SdkError, p: Option<Intent>, q: Option<Intent>)
    ensures AfterPayment(s, Response(p, Some(e))) == AfterPayment(s, Response(q, Some(e)))
  {
  }

  /**
   * The error branch does not touch `success`: it is shown afterwards exactly
   * when it was shown before. After a resumed source redirect (`success` and
   * `processing` shown) an error therefore leaves both `success` and `error`.
   */
  lemma ErrorKeepsSuccess(s: Screen, r: Response)
    requires r.error.Some?
    ensures Success in ScreenAfter(s, r).classes <==> Success in s.classes
    ensures ErrorClass in ScreenAfter(s, r).classes
  {
  }

  /**
   * End statuses map to one category each: `succeeded` and `processing`
   * show `success` without `processing`; `canceled` and `requires_action`
   * show `error` without `success`.
   */
  lemma StatusCategories(s: Screen, pi: Intent)
    ensures pi.status in {"succeeded", "processing"} ==>
      var t := ScreenAfter(s, Response(Some(pi), None));
      Success in t.classes && Processing !in t.classes
    ensures pi.status in {"canceled", "requires_action"} ==>
      var t := ScreenAfter(s, Response(Some(pi), None));
      ErrorClass in t.classes && Success !in t.classes && Processing !in t.classes
  {
  }

  /**
   * Without `receiver` on the element, `succeeded` and `processing` produce
   * the same classes and error text and differ only in the note.
   */
  lemma SucceededVersusProcessing(s: Screen, a: Intent, b: Intent)
    requires a.status == "succeeded" && b.status == "processing"
    ensures var ta, tb := ScreenAfter(s, Response(Some(a), None)), ScreenAfter(s, Response(Some(b), None));
      ta.note == ReceiptNote && tb.note == PendingNote && ta.note != tb.note &&
      ta.errorMessage == tb.errorMessage &&
      (Receiver !in s.classes ==> ta.classes == tb.classes) &&
      (Receiver in s.classes ==> Receiver !in ta.classes && Receiver in tb.classes)
  {
    var ta, tb := ScreenAfter(s, Response(Some(a), None)), ScreenAfter(s, Response(Some(b), None));
    if Receiver !in s.classes {
      assert forall c :: c in ta.classes <==> c in tb.classes;
    }
  }

  /** Handling the same response twice shows the same screen as handling it once. */
  lemma HandlePaymentIdempotent(s: Screen, r: Response)
    ensures ScreenAfter(ScreenAfter(s, r), r) == ScreenAfter(s, r)
  {
  }

  // ---------------------------------------------------------------------------
  // pollPaymentIntentStatus

  /** The rounds before the stop alternate a request for `id` and a retry. */
  lemma {:induction false} PollRoundsShape(id: string, interval: int, n: nat)
    ensures |PollRounds(id, interval, n)| == 2 * n
    ensures forall e :: e in PollRounds(id, interval, n) ==> e == StatusRequest(id) || e == ScheduleRetry(interval)
    ensures Count(PollRounds(id, interval, n), IsRequest) == n
    ensures Count(PollRounds(id, interval, n), IsHandled) == 0
    ensures forall i :: 0 <= i < n ==>
      PollRounds(id, interval, n)[2 * i] == StatusRequest(id) &&
      PollRounds(id, interval, n)[2 * i + 1] == ScheduleRetry(interval)
  {
    if n > 0 {
      var before, round := PollRounds(id, interval, n - 1), [StatusRequest(id), ScheduleRetry(interval)];
      PollRoundsShape(id, interval, n - 1);
      CountConcat(before, round, IsRequest);
      CountConcat(before, round, IsHandled);
    }
  }

  /**
   * Another request follows observation `j` exactly when it and every
   * earlier observation kept polling: an intent with a status outside the
   * end states, read before the deadline fixed by the first call.
   */
  lemma PollContinuesIff(obs: seq<Observation>, start: int, timeout: int, j: nat)
    requires j < |obs|
    ensures j < StopIndex(obs, start, timeout) <==>
      forall i :: 0 <= i <= j ==>
        obs[i].response.paymentIntent.Some? &&
        !IsEndState(obs[i].response.paymentIntent.value.status) &&
        obs[i].now < start + timeout
  {
    var k := StopIndex(obs, start, timeout);
    if j < k {
      forall i | 0 <= i <= j
        ensures KeepsPolling(obs[i], start, timeout)
      {
      }
    } else {
      assert !KeepsPolling(obs[k], start, timeout);
    }
  }

  /** Every status request of a poll is for the intent it was started on. */
  lemma PollRequestsOnlyFor(id: string, interval: int, start: int, timeout: int, obs: seq<Observation>)
    ensures forall e :: e in PollEffects(id, interval, start, timeout, obs) && e.StatusRequest? ==> e.intentId == id
  {
    PollRoundsShape(id, interval, StopIndex(obs, start, timeout));
  }

  /**
   * One request per round up to and including the stopping one; when the
   * poll stops on a response with an intent, handlePayment runs exactly once,
   * on that response, and the timeout warning is emitted exactly when its
   * status is not an end state.
   */
  lemma PollOutcome(id: string, interval: int, start: int, timeout: int, obs: seq<Observation>)
    ensures var k, t := StopIndex(obs, start, timeout), PollEffects(id, interval, start, timeout, obs);
      Count(t, IsRequest) == (if k < |obs| then k + 1 else k) &&
      Count(t, IsHandled) == (if k < |obs| && obs[k].response.paymentIntent.Some? then 1 else 0) &&
      (k < |obs| && obs[k].response.paymentIntent.Some? ==> HandledPayment(obs[k].response) in t) &&
      (Warn(TimeoutWarning) in t <==>
         k < |obs| && obs[k].response.paymentIntent.Some? &&
         !IsEndState(obs[k].response.paymentIntent.value.status))
  {
    var k := StopIndex(obs, start, timeout);
    var rounds := PollRounds(id, interval, k);
    PollRoundsShape(id, interval, k);
    if k < |obs| {
      var r := obs[k].response;
      var tail := [StatusRequest(id)] + FinalEffects(r);
      CountConcat(rounds, tail, IsRequest);
      CountConcat(rounds, tail, IsHandled);
      match r.paymentIntent
      case None =>
      case Some(pi) =>
        var warning := if IsEndState(pi.status) then [] else [Warn(TimeoutWarning)];
        assert FinalEffects(r) == PaymentEffects(r) + warning;
        assert !Unreadable(r);
        assert PaymentEffects(r) == [HandledPayment(r)];
        assert tail == [StatusRequest(id), HandledPayment(r)] + warning;
        CountConcat([StatusRequest(id), HandledPayment(r)], warning, IsRequest);
        CountConcat([StatusRequest(id), HandledPayment(r)], warning, IsHandled);
    } else {
      assert PollEffects(id, interval, start, timeout, obs) == rounds;
    }
  }

  /** The poll stops no later than the first observation that does not keep it going. */
  lemma PollStopsBy(obs: seq<Observation>, start: int, timeout: int, j: nat)
    requires j < |obs|
    requires obs[j].now >= start + timeout || obs[j].response.paymentIntent.None? ||
             IsEndState(obs[j].response.paymentIntent.value.status)
    ensures StopIndex(obs, start, timeout) <= j
  {
    assert !KeepsPolling(obs[j], start, timeout);
  }

  // ---------------------------------------------------------------------------
  // The payment request's `paymentmethod` handler

  /**
   * The browser sheet is acknowledged exactly once, right after the first
   * confirmation and before handlePayment, with "fail" exactly when that
   * confirmation returned an error; the second confirmation happens only
   * without that error; handlePayment runs exactly once, last.
   */
  lemma PaymentRequestOrdering(secret: string, methodId: string, first: Response, second: Response)
    ensures var t := PaymentRequestEffects(secret, methodId, first, second);
      t[0] == ConfirmCardPayment(secret, WithPaymentMethod(methodId)) &&
      t[1] == CompletePaymentRequest(if first.error.Some? then "fail" else "success") &&
      Count(t, IsCompletion) == 1 &&
      Count(t, IsConfirmation) == (if first.error.Some? then 1 else 2) &&
      (first.error.None? ==> t[2] == ConfirmCardPayment(secret, Plain)) &&
      Count(t, IsHandled) == 1 &&
      t[if first.error.Some? then 2 else 3] == HandledPayment(if first.error.Some? then Response(None, first.error) else second)
  {
    var handled := if first.error.Some? then Response(None, first.error) else second;
    var confirm := [ConfirmCardPayment(secret, WithPaymentMethod(methodId))];
    var middle := if first.error.Some? then
        [CompletePaymentRequest("fail")]
      else
        [CompletePaymentRequest("success"), ConfirmCardPayment(secret, Plain)];
    var fault := if Unreadable(handled) then [TypeError] else [];
    var rest := middle + [HandledPayment(handled)] + fault;
    assert PaymentRequestEffects(secret, methodId, first, second) == confirm + rest;
    forall p | p in {IsCompletion, IsConfirmation, IsHandled}
      ensures Count(confirm + rest, p) == Count(confirm, p) + Count(middle, p) + Count([HandledPayment(handled)], p) + Count(fault, p)
    {
      CountConcat(confirm, rest, p);
      CountConcat(middle + [HandledPayment(handled)], fault, p);
      CountConcat(middle, [HandledPayment(handled)], p);
    }
    if first.error.None? {
      assert middle == [CompletePaymentRequest("success")] + [ConfirmCardPayment(secret, Plain)];
      forall p | p in {IsCompletion, IsConfirmation, IsHandled}
        ensures Count(middle, p) == Count([CompletePaymentRequest("success")], p) + Count([ConfirmCardPayment(secret, Plain)], p)
      {
        CountConcat([CompletePaymentRequest("success")], [ConfirmCardPayment(secret, Plain)], p);
      }
    }
  }

  // ---------------------------------------------------------------------------
  // handleSourceActiviation and the submit handler

  /**
   * Only `redirect` and `receiver` have effects: a redirect changes no class
   * and only navigates; a receiver shows `success` and `receiver` and polls
   * the page's intent; every other flow changes nothing.
   */
  lemma SourceFlowDispatch(s: Screen, source: Source, intent: Option<Intent>, pollStart: int, obs: seq<Observation>)
    ensures source.flow != "redirect" && source.flow != "receiver" ==>
      ActivationEffects(source, intent, pollStart, obs) == [] && ActivationScreen(s, source, intent, pollStart, obs) == s
    ensures source.flow == "redirect" ==>
      ActivationEffects(source, intent, pollStart, obs) == [Navigate(source.redirectUrl)] &&
      ActivationScreen(s, source, intent, pollStart, obs) == s
    ensures source.flow == "receiver" && intent.None? ==>
      ActivationEffects(source, intent, pollStart, obs) == [TypeError] &&
      ActivationScreen(s, source, intent, pollStart, obs) == s.Add({Success, Receiver})
    ensures source.flow == "receiver" && intent.Some? ==>
      (|obs| > 0 ==> ActivationEffects(source, intent, pollStart, obs)[0] == StatusRequest(intent.value.id)) &&
      (forall e :: e in ActivationEffects(source, intent, pollStart, obs) && e.StatusRequest? ==> e.intentId == intent.value.id) &&
      (StopIndex(obs, pollStart, PollTimeout) == |obs| ==>
         {Success, Receiver} <= ActivationScreen(s, source, intent, pollStart, obs).classes) &&
      (forall c :: c in s.classes + {Success, Receiver} && c !in {Success, Processing, Receiver, ErrorClass} ==>
         c in ActivationScreen(s, source, intent, pollStart, obs).classes)
  {
    if source.flow == "receiver" && intent.Some? {
      var id := intent.value.id;
      var k := StopIndex(obs, pollStart, PollTimeout);
      PollRequestsOnlyFor(id, PollInterval, pollStart, PollTimeout, obs);
      PollRoundsShape(id, PollInterval, k);
      if k > 0 {
        assert PollRounds(id, PollInterval, k)[2 * 0] == StatusRequest(id);
      }
    }
  }

  /**
   * For a non-card method in the receiver flow, the poll after submitting
   * asks for the same intent that the source request carried as metadata.
   */
  lemma ReceiverPollsRequestedIntent(kind: string, pi: Intent, name: string, email: string, returnUrl: string,
                                     source: Source, pollStart: int, obs: seq<Observation>)
    requires source.flow == "receiver"
    ensures forall e :: e in ActivationEffects(source, Some(pi), pollStart, obs) && e.StatusRequest? ==>
      e.intentId == SourceRequestFor(kind, pi, name, email, returnUrl).metadataPaymentIntent
  {
    PollRequestsOnlyFor(pi.id, PollInterval, pollStart, PollTimeout, obs);
  }

  // ---------------------------------------------------------------------------
  // Payment-method visibility

  /** The tab bar is shown exactly when two different tabs are shown. */
  lemma {:induction false} TabsRule(flags: seq<bool>)
    ensures CountVisible(flags) > 1 <==> exists i, j :: 0 <= i < j < |flags| && flags[i] && flags[j]
  {
    if flags != [] {
      var rest := flags[1..];
      assert CountVisible(flags) == (if flags[0] then 1 else 0) + CountVisible(rest);
      TabsRule(rest);
      AnyVisible(rest);
      if CountVisible(flags) > 1 {
        if flags[0] {
          var j :| 0 <= j < |rest| && rest[j];
          assert flags[0] && flags[j + 1];
        } else {
          var i, j :| 0 <= i < j < |rest| && rest[i] && rest[j];
          assert flags[i + 1] && flags[j + 1];
        }
      }
    }
  }

  /** Some tab is shown exactly when the count is positive. */
  lemma {:induction false} AnyVisible(flags: seq<bool>)
    ensures CountVisible(flags) > 0 <==> exists i :: 0 <= i < |flags| && flags[i]
  {
    if flags != [] {
      assert CountVisible(flags) == (if flags[0] then 1 else 0) + CountVisible(flags[1..]);
      AnyVisible(flags[1..]);
      if exists i :: 0 <= i < |flags| && flags[i] {
        var i :| 0 <= i < |flags| && flags[i];
        if i > 0 {
          assert flags[1..][i - 1];
        }
      }
      if exists i :: 0 <= i < |flags[1..]| && flags[1..][i] {
        var i :| 0 <= i < |flags[1..]| && flags[1..][i];
        assert flags[i + 1];
      }
    }
  }

  /** A non-card method whose country list lacks the country is never shown. */
  lemma CountryFilter(value: string, country: string, config: Config, table: map<string, MethodInfo>)
    requires value != "card" && value in table && country !in table[value].countries
    ensures Relevant(value, country, config, table) == Some(false)
  {
  }
}
