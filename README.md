# Checkout page model

A Dafny model of the checkout logic of the Stripe payments demo page
(`javascripts/payments.js`), taken out of the browser and the payment SDK.

The page keeps its state in the DOM. The model keeps it in one object,
`CheckoutPage.Page`:

- the `#main` element's class list is a `set<string>`;
- the confirmation note and error message are strings;
- the submit button's text and disabled flag are fields;
- the page-wide `paymentIntent` variable is an `Option<Intent>`;
- each payment input's tab visibility, the tab bar, the checked input and the card panel are fields;
- every call the modelled handlers make to the outside is appended to a `trace` of `Effect`s.

Those calls are `confirmCardPayment`, `createSource` and `retrieveSource` of the payment SDK, the payment-request `complete` callback, the store's payment-intent creation request, the backend's status endpoint, the timer, `window.location.replace` and `console.warn`.
Their answers are inputs of the handlers: SDK responses, retrieved or created sources, URL query parameters, and the `(now, response)` observations of each poll round.

A property read on `undefined` throws a `TypeError` in the page and stops the running handler.
The model records it as a `TypeError` effect and keeps every change the handler made before it.
Examples are a response with neither `error` nor `paymentIntent`, a submit before the intent exists, and a label lookup for a method missing from the table.

Module layout:

- `Wrappers`: `Option`.
- `Sequences`: first-failing index and counting over sequences.
- `Payments`: the data, the page's constants and texts, and the pure decisions. These are handlePayment's outcome, the poll stop rule, the source-flow dispatch, the entry branch, the visibility predicate and the button label. It also holds the specification functions the handlers are proved against.
- `CheckoutPage`: the `Page` class, one method per handler. Each method changes the fields step by step as the page does. Its `ensures` give the new screen and the new trace in terms of `Payments`.
- `PaymentFacts`: lemmas stating what the page promises.
- `Scenarios`: three start-up and submit runs followed through the method contracts.

Behaviour of the page worth noting:

- In the receiver flow, the poll uses the page-wide `paymentIntent.id` (payments.js:264). It does not use the id carried in the source's metadata.
- The `code_verification` flow does nothing.
- The fallback branch of handlePayment leaves the error message as it was.
- When retrieving the source after a redirect yields no source, reading `source.metadata` throws. In that case `loading` is never removed.

## Model

| member | source | states |
|---|---|---|
| `Payments.AfterPayment` | javascripts/payments.js:208-241 | For each branch, the class set after a response, given as membership for every class name. An error removes `processing` and `receiver`, adds `error`, sets the error text to the error's message and keeps `success` and the note. `succeeded` removes `processing` and `receiver`, adds `success` and sets the receipt note. `processing` removes only `processing`, adds `success` and sets the pending note. Any other status removes `success`, `processing` and `receiver`, adds `error` and keeps both texts. A response with neither part throws. |
| `CheckoutPage.Page.HandlePayment` | javascripts/payments.js:208-241 | Updates the class list and texts in the page's order. The new screen is `AfterPayment` of the old one; the trace gains the invocation, plus a fault when the response cannot be read. |
| `PaymentFacts.ErrorIgnoresIntent` | javascripts/payments.js:214-218 | When an error is present, the intent in the response does not affect the result. |
| `PaymentFacts.ErrorKeepsSuccess` | javascripts/payments.js:214-218 | For every screen and every response with an error, `success` is shown afterwards iff it was shown before, and `error` is shown. From the resumed-redirect screen an error therefore shows both `success` and `error`. |
| `PaymentFacts.StatusCategories` | javascripts/payments.js:219-240 | `succeeded`/`processing` show `success` without `processing`. `canceled`/`requires_action` show `error` without `success` or `processing`. |
| `PaymentFacts.SucceededVersusProcessing` | javascripts/payments.js:219-233 | `succeeded` and `processing` set different notes. Only `succeeded` removes `receiver`. Without `receiver` their classes and error text are equal. |
| `PaymentFacts.HandlePaymentIdempotent` | javascripts/payments.js:208-241 | Handling one response twice gives the same screen as handling it once. |
| `CheckoutPage.Page.PollPaymentIntentStatus` | javascripts/payments.js:280-296 | The self-rescheduling poll is a loop over the observations, with `start` fixed by the first call. The new screen is the old one with the stopping response handled once. The trace is one request per round, a retry after each continuing round, then the stopping round's effects. |
| `PaymentFacts.PollContinuesIff` | javascripts/payments.js:281-288 | Another request follows observation `j` iff every observation up to `j` had an intent with a status outside {succeeded, processing, canceled}, read before `start + timeout`. |
| `PaymentFacts.PollStopsBy` | javascripts/payments.js:282-290 | Polling stops at the latest at the first observation with an end status, a missing intent, or a clock at or past the deadline. |
| `PaymentFacts.PollRequestsOnlyFor` | javascripts/payments.js:284-288 | Every status request of a poll is for the intent id it was started on. |
| `PaymentFacts.PollOutcome` | javascripts/payments.js:286-295 | A poll makes `k + 1` requests when it stops at round `k`, and `k` while it is still going. handlePayment runs exactly once, on the stopping response, when that response has an intent. The timeout warning appears iff that status is not an end state. |
| `PaymentFacts.PollRoundsShape` | javascripts/payments.js:286-288 | The `n` rounds before the stop are `2n` effects. Round `i` is a request for the intent at position `2i`, followed by a retry after the interval at `2i+1`. They hold one request per round and no handlePayment. |
| `CheckoutPage.Page.HandleSourceActivation` | javascripts/payments.js:244-270 | Dispatches on `source.flow`. The new screen, trace and button text are given by the activation functions. |
| `PaymentFacts.SourceFlowDispatch` | javascripts/payments.js:247-269 | `redirect` only navigates to the source's redirect URL and changes no class. `none`, `code_verification` and unknown flows change nothing. `receiver` adds `success` and `receiver`. Without a page intent it then throws. With one, its first effect is a status request for that intent, every request is for it, `success` and `receiver` stay while the poll is still going, and classes other than the four status classes are kept. |
| `PaymentFacts.ReceiverPollsRequestedIntent` | javascripts/payments.js:184-199 | The source request carries the page's intent id as metadata. In the receiver flow (line 264), every poll request is for that same id. |
| `CheckoutPage.Page.Submit` | javascripts/payments.js:159-205 | Disables the button and shows "Processing…". A card payment confirms with the card element and billing details, then handles the response. Any other method builds the source request, creates the source and activates it. A missing intent or a missing source throws. |
| `CheckoutPage.Page.OnPaymentMethod` | javascripts/payments.js:104-129 | The new screen and trace of the payment-request handler are given by its specification functions. A missing intent throws before any call. |
| `PaymentFacts.PaymentRequestOrdering` | javascripts/payments.js:104-129 | `complete` is called exactly once, right after the first confirmation (made with `handleActions: false`) and before handlePayment. Its result is `fail` iff that confirmation returned an error. The second confirmation happens only without that error. handlePayment runs exactly once, on `{error}` or on the second response. |
| `Payments.EntryBranch` | javascripts/payments.js:300-314 | Non-empty `source` and `client_secret` take priority over `payment_intent`. Otherwise a non-empty `payment_intent` is resumed. Otherwise a new checkout starts. |
| `CheckoutPage.Page.Start` | javascripts/payments.js:298-322 | Source resume: adds `checkout`, `success` and `processing`, retrieves the source and polls its metadata intent. Intent resume: polls that intent and adds no class. New checkout: adds `checkout`, requests an intent and stores it. `loading` is removed on every path except a failed source retrieval. |
| `Payments.Relevant` | javascripts/payments.js:353-358 | An input is shown iff its value is `card`, or it is enabled and its table entry lists the country and the store currency. The lookup throws iff an enabled non-card method is missing from the table. |
| `PaymentFacts.CountryFilter` | javascripts/payments.js:355-358 | A non-card method whose countries lack the selected country is never shown. |
| `PaymentFacts.TabsRule` | javascripts/payments.js:362-364 | The visible-tab count exceeds one iff two different tabs are shown. |
| `CheckoutPage.Page.ShowRelevantPaymentMethods` | javascripts/payments.js:349-370 | Each tab before the first failing lookup is shown per `Relevant`, and later tabs are untouched. Without a failure: the tab bar is shown iff more than one tab is, the first input is checked, the card panel is shown and the button is labelled for the first input. No inputs at all throws. |
| `Payments.ButtonLabel` | javascripts/payments.js:338-346 | The label starts with "Pay {amount}". It is exactly that for `card`, and otherwise continues with " with {name}". It is undefined iff the method is missing from the table. |
| `CheckoutPage.Page.UpdateButtonLabel` | javascripts/payments.js:338-346 | The button shows `ButtonLabel` when it is defined. Otherwise the text is kept and the rejected lookup is recorded. |

## Left out

- `javascripts/store.js` is not part of this model. That covers the order and payment-intent `fetch` calls, the constant configuration, the floating-point `formatPrice` and the summary rendering. The formatted amount is an opaque string argument, the configuration a `Config` argument, and a created intent an input of `Start`.
- The page's set-up is not modelled at all: creating the SDK client and elements, creating and mounting the card element, building the payment request, `canMakePayment` and mounting the payment-request button (payments.js:32-101 and 131-145). They leave no effect in the trace, and no handler takes `canMakePayment`'s answer.
- The store calls `getConfig` and `getPaymentData` (payments.js:18 and 90) are not recorded. The configuration they yield is a `Config` argument.
- `confirmCardPayment`, `createSource` and `retrieveSource` are recorded as effects only. What the SDK does with them is not modelled; their answers are inputs.
- The element style object, the card `change` listener (payments.js:68-78) and the payment-method `change` listener (payments.js:374-385) are DOM-only and are not modelled.
- Timers and the clock are inputs. The interval appears only as the delay of each scheduled retry. The `start ? start : Date.now()` re-read for a first clock reading of 0 is not modelled.
- Concurrency is not modelled. A poll is started without being awaited. The model runs it to completion inside the handler that started it, so interleaving with later user events is not captured. At start-up the page removes `loading` after the poll's first request, and the model removes it after the poll. handlePayment never touches `loading`, so the final screen is the same.
- The enabled-method list is a sequence of names tested by membership. In the page it is the string `'card'`, and `.includes` on it is a substring test.
- Lookups in the payment-method table cover only its own keys. Names inherited by JavaScript objects, such as `toString`, are not modelled.
- Query strings are a map from parameter name to its first value. URL parsing and decoding are not modelled.
- The payment-method table is a `table` argument of `Relevant`, `ButtonLabel` and `ShowRelevantPaymentMethods`. The page's own table (payments.js:330-335) is a constant holding only `card`, without `countries` or `currencies`. With that table every enabled non-card input throws at line 357 and every non-card label throws at line 340.
- The tab-bar rule counts shown `li` items, assuming each payment input sits in its own `li` in the tab bar.
- `window.location.replace` and `console.warn` appear only as `Navigate` and `Warn` effects.
