# Payment settlement model

A Dafny model of the payment-settlement core of a music-store backend, with
proofs about it. A provider webhook (Stripe or Razorpay) passes a signature
gate and becomes an internal payment event. The event then changes four
stores:

- the set of claimed webhook event ids;
- the transactions (status and the stamps each status carries);
- the users (purchased songs and albums, purchase history);
- the artist subscriptions, keyed by (userId, artistId).

The repository settles payments in several ways side by side, and the model
keeps each one as written:

- **Transactional handlers** (`paymentEventService.js`, and the settlement half
  of `payment.service.js`). Each claims the event id first, outside the
  database session. It then takes one atomic step guarded by a conditional
  update (`status != paid`, `status != failed`).
  Modules: `Ledger`, `Settlement`, `TransactionRepository`,
  `SubscriptionRepository`, `UserRepository`, `PaymentEventService`,
  `PaymentService`.
- **The legacy service** (`services/paymentService.js`). It reads a document,
  changes it in memory and saves it.
  Module: `LegacyPaymentService`.
- **Event subscribers** (`onPaymentSuccess.js`, `onPaymentSucceeded.js`,
  `onPaymentFailed.js`, `onRefundIssued.js`, and the listeners in
  `paymentEvents.js`). They use a `"success"` status guard or overwrite the
  status unconditionally.
  Modules: `Subscribers`, `PaymentEvents`.
- **The webhook controller** (`webhook.controller.js`). It maps provider event
  names to internal topics. Each dispatch is appended to an output log.
  Module: `Webhook`.

Three smaller rule sets are modelled as well:

- the account rules of `userControllers.js` (module `Accounts`);
- the album catalogue service (module `Albums`);
- input coercion in `createSong` (module `Songs`).

Conventions:

- Every operation is a pure function from the state and the input to a result
  and a new state.
- Time is an integer number of milliseconds, and `now` is a parameter.
- A JavaScript string field that could be `undefined`, `null` or `""` is
  written `""`, so `a || b` is `Js.Or(a, b)`. A missing numeric provider field
  is `0`.
- A Mongo filter value that is `undefined` is sent as `null` (the driver's
  default, `ignoreUndefined: false`), and `null` matches documents that lack
  the field. With absent fields written `""`, a filter on an absent value
  therefore matches the records whose field is `""`, in every module alike.
  `findById(undefined)` matches nothing. Collections that `findOne` scans on a
  non-key field carry their natural order explicitly (an `order` parameter).
- HMAC-SHA256, bcrypt, sha256, Stripe's `constructEvent`, `JSON.parse`,
  `parseFloat` and `convertCurrencies` are function parameters. The result of
  each is taken as given.

Where the code and its own comments disagree, the model follows the code:

- The login cap is 4 sessions, although the message says 2.
- `payment.service.js` calls `WebhookRepo.logEvent`, which
  `webhookEvent.repository.js` does not define. It is modelled as the same
  event-id claim that `paymentEventService.js` uses: it proceeds with no id,
  reports "already processed" on a duplicate, and rethrows other errors.
- `likeSong`, `myProfile` and `forgotPassword` throw `NotFoundError`, which
  `userControllers.js` never imports. That still throws, only with a different
  error, so the model keeps these as error results (`UserNotFound`).

## Model

| member | source | states |
|---|---|---|
| Ledger.ClaimEvent | backend/features/payment/services/paymentEventService.js:40-55 | No event id proceeds and records nothing. A new id is recorded and proceeds. A recorded id reports a duplicate and changes nothing. Any other storage error is rethrown with nothing recorded. |
| Ledger.ClaimTwice | backend/features/payment/services/paymentEventService.js:43-50 | Claiming the same id a second time is a duplicate and changes nothing. |
| Settlement.ClaimStep | backend/features/payment/services/paymentEventService.js:64-65 | A handler goes on exactly when the claim succeeds, and then the claim is recorded. Otherwise it ends with "already processed" or the rethrown error, and no store changes. |
| Settlement.PeriodEnd | backend/features/payment/services/paymentEventService.js:129-135 | A period the named provider states is honoured, in whole seconds. Any other provider gets exactly 30 days from now, whatever the payload holds. The end is never anything but a stated provider period or now plus 30 days. |
| Settlement.PeriodEndReadsOwnField | backend/features/payment/services/paymentEventService.js:129-135 | Only the named provider's own field is read, so the other provider's period cannot change the result. A Stripe payment without a period gets 30 days. |
| TransactionRepository.MarkAsPaid | backend/features/payment/repositories/transaction.repository.js:5-18 | Matches exactly when the transaction exists and is not paid, so failed and refunded match too. It sets status, paidAt, provider and providerPayload, and nothing else. No match returns null with the store unchanged. |
| TransactionRepository.MarkAsFailed | backend/features/payment/repositories/transaction.repository.js:20-33 | Matches exactly when the transaction exists and has not failed, so paid matches too. It sets status, failedAt, failureReason and provider, and nothing else. |
| TransactionRepository.MarkAsPaidIdempotent | backend/features/payment/repositories/transaction.repository.js:7 | A second `markAsPaid` returns null and leaves the store as the first call left it. |
| TransactionRepository.MarkAsFailedIdempotent | backend/features/payment/repositories/transaction.repository.js:22 | A second `markAsFailed` returns null and leaves the store as the first call left it. |
| TransactionRepository.GuardsAllowReversal | backend/features/payment/repositories/transaction.repository.js:7-22 | A failed transaction can be paid, and the paid transaction can then be failed again. |
| SubscriptionRepository.CreateSubscription | backend/features/payment/repositories/subscription.repository.js:4-6 | A blind insert: the record is appended, and its pair's record count grows by one. |
| SubscriptionRepository.FindActiveSubscription | backend/features/payment/repositories/subscription.repository.js:8-14 | Returns a record of the pair whose validUntil is at least now. Returns nothing exactly when every record of the pair has expired. Status is not consulted. |
| SubscriptionRepository.UpsertSubscription | backend/features/payment/repositories/subscription.repository.js:17-40 | The pair's first record is updated in place; if there is none, one is inserted. The written record is active with the given validUntil, gateway, external id and transaction id. createdAt is set only on insert. A later lookup finds this record. The pair ends with at least one record and never gains a second. |
| SubscriptionRepository.UniqueCount | backend/features/payment/repositories/subscription.repository.js:26 | When no pair is duplicated, each pair has at most one record. |
| SubscriptionRepository.UpsertKeepsUnique | backend/features/payment/repositories/subscription.repository.js:26-38 | The upsert keeps the collection free of duplicate pairs, and its own pair ends with exactly one record. |
| SubscriptionRepository.UpsertOverwritesValidUntil | backend/features/payment/repositories/subscription.repository.js:32 | validUntil is overwritten, not maxed, so a later upsert with an earlier date shortens access. |
| SubscriptionRepository.UpsertKeepsCreatedAt | backend/features/payment/repositories/subscription.repository.js:36 | createdAt is the insert time and survives later upserts. |
| UserRepository.AddPurchase | backend/features/user/repositories/user.repository.js:4-19 | Only the named user changes, and only in the purchase fields. The history always gains the entry. `metadata.type` "song" or "album" adds `metadata.itemId`, or else the fallback item id, to that set with set semantics. Any other type leaves both sets. An absent or unknown user id changes nothing. |
| UserRepository.AddPurchaseTwice | backend/features/user/repositories/user.repository.js:13 | Repeating the call leaves the sets as they were after the first call, but appends the history row a second time. |
| Store.AddToSet | backend/features/user/repositories/user.repository.js:7-10 | `$addToSet`: the item is present afterwards, nothing else is added, and an existing item changes nothing. |
| Store.Pull | backend/features/payment/services/paymentEventService.js:230-234 | `$pull`: every copy of the item goes and every other element stays. |
| PaymentEventService.GrantPurchase | backend/features/payment/services/paymentEventService.js:89-119 | The payer is `payload.userId`, else the transaction's user. The history gains exactly one row, which records the transaction id and its amount. A song (checked first) or album id is added to its set without duplication. Only purchase fields change. |
| PaymentEventService.SubscribeArtist | backend/features/payment/services/paymentEventService.js:121-155 | For an artist subscription with a known artist, a lookup of (tx.userId, artist) afterwards finds an active record. It is valid until the provider period end or 30 days from now, and carries the gateway, external id and transaction. The pair never gains a second record. Otherwise nothing is written. |
| PaymentEventService.HandlePaymentSucceeded | backend/features/payment/services/paymentEventService.js:60-167 | A duplicate event id changes nothing. A missing transactionId throws after the claim. A missing or already-paid transaction is "already processed", with no user or subscription change. Any other status, failed and refunded included, becomes paid and the item is granted. |
| PaymentEventService.SucceededReplayIsNoOp | backend/features/payment/services/paymentEventService.js:64-87 | Delivering the same payload twice changes nothing the second time. The second reply is "already processed", or the same throw for a payload with neither event id nor transactionId. |
| PaymentEventService.FailedBecomesPaid | backend/features/payment/services/paymentEventService.js:77-81 | A failed transaction is settled as paid by a later success event. |
| PaymentEventService.MissingTransactionIdBurnsClaim | backend/features/payment/services/paymentEventService.js:64-70 | A delivery without transactionId throws with its event id claimed. A corrected redelivery under the same id is then dropped as already processed. |
| PaymentEventService.HandlePaymentFailed | backend/features/payment/services/paymentEventService.js:172-202 | After the claim, a missing transactionId is reported as "missing_transactionId". An already-failed or unknown transaction is "already processed". Any other status, paid included, becomes failed with the reason. Users and subscriptions do not change. |
| PaymentEventService.PaidBecomesFailed | backend/features/payment/services/paymentEventService.js:184-188 | A paid transaction is failed by a later failure event, and nothing it granted is revoked. |
| PaymentEventService.FailedReplayIsNoOp | backend/features/payment/services/paymentEventService.js:184-193 | Repeating a failure event is "already processed" and changes nothing. |
| PaymentEventService.MarkAsRefunded | backend/features/payment/services/paymentEventService.js:218-224 | Sets refunded, refundedAt and provider unless the transaction is already refunded or absent. |
| PaymentEventService.RevokePurchase | backend/features/payment/services/paymentEventService.js:226-247 | Pulls the item from the set its type names, keeping every other item. It appends one price-0 refund row. Only the named user changes, and an absent user changes nothing. |
| PaymentEventService.HandlePurchaseRefunded | backend/features/payment/services/paymentEventService.js:208-257 | Once claimed, the reply is ok whether or not a transaction matched. The transaction is marked refunded if present, the purchase is revoked, and subscriptions are untouched. |
| PaymentEventService.RefundRevokesGrantedSong | backend/features/payment/services/paymentEventService.js:226-250 | A refund after a song purchase takes the song out of the payer's set and keeps every other song and album. The history holds the purchase row and then the refund row. |
| PaymentEventService.RefundReplay | backend/features/payment/services/paymentEventService.js:208-257 | A redelivered refund with an event id is dropped and changes nothing. Without an event id it runs again: the transaction stays as it was, but the history gains a second refund row. |
| PaymentEventService.HandleSubscriptionCancelled | backend/features/payment/services/paymentEventService.js:263-285 | The first record matching the external id, or else (userId, artistId), becomes cancelled with cancelledAt = now. validUntil and every other field stay. No match changes nothing and returns no record. |
| PaymentEventService.CancellationKeepsAccess | backend/features/payment/services/paymentEventService.js:279 | After a cancellation, an access lookup for any pair at any time gives the same answer as before. |
| PaymentService.HandlePaymentSuccess | backend/features/payment/services/payment.service.js:98-161 | The event log is consulted only for a given id. The missing-transactionId throw comes after the event is logged. A null `markAsPaid` leaves user and subscription untouched. On success, the transaction's own user gets `addPurchase`, with a history row whose itemType is `metadata.type` alone. The subscription is upserted as in the event service. |
| PaymentService.HandlePaymentFailed | backend/features/payment/services/payment.service.js:163-183 | After the log, a missing transactionId is reported as "missing_transactionId". A null `markAsFailed` is "already processed". Otherwise the transaction is failed and nothing else changes. |
| PaymentService.SuccessVariantsAgreeOutsideUsers | backend/features/payment/services/payment.service.js:110-154 | The two transactional success handlers agree on the outcome, transactions, subscriptions and event log. |
| PaymentService.SuccessVariantsAgree | backend/features/payment/services/payment.service.js:119-128 | They agree on users too when metadata.type equals the transaction's item type and the payload names no other user. |
| PaymentService.SuccessVariantsDifferWithoutMetadata | backend/features/payment/services/payment.service.js:120-128 | Without metadata, only the event service grants a song bought through the transaction's item type. This one records a history row with no itemType. |
| PaymentService.FailureVariantsAgree | backend/features/payment/services/payment.service.js:163-183 | Both failure handlers are the same transition. |
| LegacyPaymentService.SelectQuery | backend/services/paymentService.js:19-48 | No gateway does no lookup. The per-gateway key priority is: Stripe stripeSubscriptionId, then paymentIntentId. Razorpay subscriptionId, then razorpayOrderId, then paymentId. PayPal subscriptionId, then paymentId matched against paypalOrderId. The filter stays `{}` exactly when a gateway other than Stripe has no usable id. Stripe with no id looks for a transaction without a payment intent. A usable id always gives a one-field filter on that id. |
| LegacyPaymentService.FindOne | backend/services/paymentService.js:51 | Returns the first stored transaction in natural order that satisfies the filter, or nothing when none does. |
| LegacyPaymentService.FirstMatchUnique | backend/services/paymentService.js:51 | There is at most one first match, so the transaction `findOne` returns is determined by the filter and the order. |
| LegacyPaymentService.SaveAsPaid | backend/services/paymentService.js:53-62 | A missing or already-paid transaction gives null and no change. Otherwise only the status becomes paid. |
| LegacyPaymentService.MarkTransactionPaidAsWritten | backend/services/paymentService.js:11-63 | No gateway returns null and changes nothing. Only the first match in natural order is considered: it is marked paid when unpaid, and when it is already paid nothing changes, whatever later matches exist. No match changes nothing. |
| LegacyPaymentService.MarkTransactionPaid | backend/services/paymentService.js:11-63 | The corrected lookup: without a usable id nothing is marked. With one, only the first transaction carrying it is considered, marked when unpaid and left alone when paid. Whatever is marked carries the id it was looked up by. |
| LegacyPaymentService.MarkPaidVersionsAgree | backend/services/paymentService.js:27-48 | With a usable id, the corrected lookup and the lookup as written agree. |
| LegacyPaymentService.MarkTransactionPaidTwice | backend/services/paymentService.js:53-57 | A second call with the same request marks nothing and changes nothing. |
| LegacyPaymentService.EmptyQueryMarksUnrelatedTransaction | backend/services/paymentService.js:33-41 | As written, a Razorpay callback with no id marks the first transaction in the collection paid. The corrected version does not. |
| LegacyPaymentService.PaidFirstMatchShadowsLater | backend/services/paymentService.js:51-58 | Of two transactions with one payment intent, a paid first one stops the lookup, so the later pending one stays pending. |
| LegacyPaymentService.StripeWithoutIdsMarksIntentlessTransaction | backend/services/paymentService.js:27-32 | As written, a Stripe callback with neither id marks the first transaction without a payment intent paid. The corrected version marks nothing. |
| LegacyPaymentService.CycleDays | backend/services/paymentService.js:5-9 | 90 days exactly for 3m and 180 exactly for 6m. A property every object inherits, such as "constructor", gives no number. Anything else gives 30. |
| LegacyPaymentService.ExternalIdAsWritten | backend/services/paymentService.js:110-113 | The external id is empty exactly when the metadata has none of externalSubscriptionId, razorpaySubscriptionId and paypalSubscriptionId. |
| LegacyPaymentService.ExternalId | backend/services/paymentService.js:110-117 | The completed chain is never empty. It continues through stripeSubscriptionId, paymentIntentId and razorpayOrderId to "unknown". |
| LegacyPaymentService.ExternalIdChainCutShort | backend/services/paymentService.js:113-114 | A Stripe subscription with no metadata ids gets no external id as written, and "sub_1" as intended. |
| LegacyPaymentService.AlreadyInHistory | backend/services/paymentService.js:74-78 | When the scan answers, it answers whether a row has the same (itemType, itemId). It throws only on a row of that type without an id, and it surely throws when the transaction has no id or no row matches first. |
| LegacyPaymentService.RecordPurchase | backend/services/paymentService.js:74-105 | Fails exactly when the history scan throws. Otherwise history gains a row only when no row has the same (itemType, itemId), a song or album id is added only if absent, and only purchase fields change. |
| LegacyPaymentService.LegacyValidUntil | backend/services/paymentService.js:108-131 | A fetched Stripe period end wins, in whole seconds. Without one, the date is invalid exactly for an inherited cycle name, and otherwise lies 30 to 180 days from now, with 30 for any cycle but 3m and 6m. |
| LegacyPaymentService.ApplyPurchase | backend/services/paymentService.js:67-161 | An unknown user changes nothing. A throw in the history scan, or an invalid date reaching the upsert, saves nothing. Otherwise the user gets the recorded purchase and an artist subscription is upserted on (userId, artistId). Transactions never change. |
| LegacyPaymentService.UpdateUserAfterPurchaseAsWritten | backend/services/paymentService.js:107-148 | The upserted subscription stores the external id as the chain is written. |
| LegacyPaymentService.UpdateUserAfterPurchase | backend/services/paymentService.js:67-161 | An unknown user or a throw changes nothing. Otherwise the purchase is in history afterwards. A subscription is active until the computed end and always has an external id. Other item types leave subscriptions alone. |
| LegacyPaymentService.UpdateUserTwice | backend/services/paymentService.js:74-105 | A repeated update is a no-op on users. |
| LegacyPaymentService.UnknownItemTypeOnlyHistory | backend/services/paymentService.js:154-158 | An unknown item type changes only the user's history. |
| LegacyPaymentService.InheritedCycleSavesNothing | backend/services/paymentService.js:108-134 | An artist subscription whose cycle is "constructor" saves nothing unless a Stripe period replaces the invalid date. With one, it is saved. |
| LegacyPaymentService.IdlessHistoryRowThrows | backend/services/paymentService.js:74-78 | A same-type history row without an id throws when it comes before the matching row. When the matching row comes first, the purchase is saved. |
| Webhook.StripeWebhook | backend/features/payment/controllers/webhook.controller.js:17-65 | A failed signature is 400 and dispatches nothing. `payment_intent.succeeded` dispatches exactly one PAYMENT_SUCCEEDED with transactionId, userId and the parsed metadata. `payment_failed` dispatches PAYMENT_FAILED. `charge.refunded` dispatches REFUND_ISSUED only with a transactionId. Anything else is acknowledged without a dispatch. |
| Webhook.RazorpayWebhook | backend/features/payment/controllers/webhook.controller.js:70-118 | A signature that differs from the HMAC of the body is 400 and dispatches nothing. `payment.captured` dispatches PAYMENT_SUCCEEDED with the payment entity id, the notes' userId and the notes' metadata parsed with a "{}" default. `payment.failed` dispatches PAYMENT_FAILED. `refund.processed` dispatches REFUND_ISSUED with the refund id. Anything else replies ok. |
| Webhook.StripeFailureFailsTransaction | backend/features/payment/controllers/webhook.controller.js:44-48 | A verified Stripe failure, once reacted to, leaves an existing transaction failed whatever its status, and users unchanged. |
| Webhook.ForgedRazorpayChangesNothing | backend/features/payment/controllers/webhook.controller.js:80-83 | A forged Razorpay signature changes no store, whatever the body says. |
| Subscribers.Entitle | backend/features/payment/subscribers/onPaymentSuccess.js:40-67 | A song or album id joins its set. An artist subscription appends a new record valid for 30 days, whatever already exists. Other types change nothing. |
| Subscribers.Join | backend/features/payment/subscribers/onPaymentSucceeded.js:26-31 | The item is present afterwards. With deduplication this is `$addToSet`, otherwise a bare push. |
| Subscribers.Succeed | backend/features/payment/subscribers/onPaymentSucceeded.js:11-39 | A missing or already "success" transaction changes nothing. Otherwise the status becomes "success" before the user lookup, so a missing user leaves the status changed with no entitlement. |
| Subscribers.OnPaymentSuccess | backend/features/payment/subscribers/onPaymentSuccess.js:14-75 | On a first success for an existing user, the status is "success" and the song or album id is added only if absent. |
| Subscribers.OnPaymentSucceeded | backend/features/payment/subscribers/onPaymentSucceeded.js:7-46 | On a first success for an existing user, the status is "success" and the song or album id is pushed unchecked. |
| Subscribers.SuccessSubscribersIgnoreReplay | backend/features/payment/subscribers/onPaymentSuccess.js:24-27 | Redelivering the same event to either success subscriber changes nothing. |
| Subscribers.DuplicatePush | backend/core/events/paymentEvents.js:73-78 | Two payments for one song leave one copy with the deduplicating subscriber and two with the pushing one. |
| Subscribers.SubscribersDuplicateSubscriptions | backend/features/payment/subscribers/onPaymentSuccess.js:56-63 | Two artist-subscription payments add two records for the pair: the subscribers never upsert. |
| Subscribers.Overwrite | backend/features/payment/subscribers/onPaymentFailed.js:14-22 | A missing transaction changes nothing. Otherwise only its status is set. |
| Subscribers.OnPaymentFailed | backend/features/payment/subscribers/onPaymentFailed.js:10-28 | An existing transaction ends failed whatever its prior status, paid included. Only its status changes, and other transactions are untouched. |
| Subscribers.OnRefundIssued | backend/features/payment/subscribers/onRefundIssued.js:11-30 | An existing transaction ends refunded whatever its prior status. Only its status changes. |
| Subscribers.FailureOverwritesSuccess | backend/features/payment/subscribers/onPaymentFailed.js:21-22 | A failure after a success overwrites it. |
| Subscribers.RefundKeepsEntitlements | backend/features/payment/subscribers/onRefundIssued.js:21-24 | A refund after a success leaves the granted song in place. |
| PaymentEvents.TopicOf | backend/core/events/eventTypes.js:3-15 | A wire name is read back as the topic that carries it. |
| PaymentEvents.TopicNamesDistinct | backend/core/events/eventTypes.js:3-15 | Every topic has its own wire name. |
| PaymentEvents.React | backend/core/events/paymentEvents.js:14-114 | PAYMENT_SUCCEEDED runs the pushing success subscriber. PAYMENT_FAILED and REFUND_ISSUED overwrite the status and nothing else. The other topics change no store. |
| PaymentEvents.ReactAll | backend/core/events/paymentEvents.js:14-114 | Reacting to a log changes no key set and no event record. |
| PaymentEvents.ReactAllAppend | backend/core/events/paymentEvents.js:14-114 | Reacting to two logs in turn is reacting to their concatenation. |
| PaymentEvents.StatusOnlyLogKeepsEntitlements | backend/core/events/paymentEvents.js:96-113 | A log without PAYMENT_SUCCEEDED leaves users and subscriptions unchanged. |
| PaymentEvents.LastOverwriteWins | backend/core/events/paymentEvents.js:96-113 | Of a failure and a refund for one transaction, the later one decides its status. |
| Accounts.FindByEmail | backend/controllers/userControllers.js:21 | Returns the first user in natural order with that email, or nothing when no user has it. An absent email matches the first user that has no email. |
| Accounts.RegisterUser | backend/controllers/userControllers.js:17-48 | An email already on file is rejected and nothing is created. Otherwise exactly one user with that email is added. |
| Accounts.RegisterKeepsEmailsUnique | backend/controllers/userControllers.js:21-35 | Registration keeps emails unique. |
| Accounts.PruneUser | backend/controllers/userControllers.js:75-78 | Removes exactly that user's sessions whose expiry has passed. |
| Accounts.Login | backend/controllers/userControllers.js:57-110 | Wrong credentials change nothing. Expired sessions go first. With 4 or more live sessions the login is refused, with the pruned state kept. Otherwise one session expiring 7 days from now is added. |
| Accounts.LoginRespectsCap | backend/controllers/userControllers.js:81-96 | After a successful login the user has at most 4 sessions, none expired. |
| Accounts.PruneAll | backend/controllers/userControllers.js:169 | Removes exactly the sessions of every user whose expiry has passed. |
| Accounts.Logout | backend/controllers/userControllers.js:158-204 | No token is an error with nothing changed. Otherwise every user's expired sessions go, then exactly the first of this user's sessions whose hash matches. No match is an error with no further deletion. |
| Accounts.LogoutRemovesOne | backend/controllers/userControllers.js:174-188 | A successful logout removes one session of that user, whose hash matches the token, and no other. |
| Accounts.LikeSong | backend/controllers/userControllers.js:216-244 | The song is removed if liked (reply false) and appended if not (reply true). No other song changes state. An unknown user is an error. |
| Accounts.LikeTwiceRestores | backend/controllers/userControllers.js:226-243 | Liking twice restores which songs are liked. |
| Accounts.NormalizeGenre | backend/controllers/userControllers.js:267 | A stored genre has no surrounding white space and no upper-case ASCII letter. |
| Accounts.NormalizeGenreIdempotent | backend/controllers/userControllers.js:267 | Normalising a normal genre changes nothing. |
| Accounts.NormalizeGenres | backend/controllers/userControllers.js:267 | Keeps length and order, and normalises each element. |
| Accounts.UpdatePreferredGenres | backend/controllers/userControllers.js:253-275 | A non-array is rejected before the user lookup. Otherwise only that user's genres change, to the normalised list, with the same length and order. |
| Accounts.UpdatePreferredGenresIdempotent | backend/controllers/userControllers.js:257-269 | Submitting the stored genres again stores the same list. |
| Accounts.ForgotPassword | backend/controllers/userControllers.js:284-307 | An unknown email is an error. Otherwise the user gets the token's sha256 and an expiry 15 minutes from now. |
| Accounts.ResetPassword | backend/controllers/userControllers.js:316-340 | Fails exactly when no user holds the token's hash with an expiry after now. Otherwise that user's password changes and both reset fields are cleared. |
| Accounts.ResetWindow | backend/controllers/userControllers.js:293-335 | After a reset request at t, the token works at t' exactly when t' < t + 15 minutes, and only once. |
| Albums.ProcessGenre | backend/src/api/albums/service.js:20-24 | An array is kept as sent. A string always gives at least one name, each comma-free with nothing left to trim. Anything else gives no genre. |
| Albums.GenreTextRoundTrip | backend/src/api/albums/service.js:20-24 | A genre list sent as comma-separated text comes back as the same list, when its names need no trimming. |
| Albums.Create | backend/src/api/albums/service.js:11-34 | A purchase-only album with a missing or non-positive price is rejected. The stored price is the given positive price for purchase-only albums and 0 otherwise. The genre is processed. Existing albums are untouched. |
| Albums.Paginate | backend/src/api/albums/service.js:37-45 | skip = (page - 1) * limit. For a positive limit, totalPages is the least page count that covers the total. A limit of 0 gives no number. |
| Albums.PagesCoverTotal | backend/src/api/albums/service.js:103-122 | Pages 1 to totalPages start inside the list, and every later page starts past its end. |
| Albums.GetAll | backend/src/api/albums/service.js:36-48 | page and limit default to 1 and 10. |
| Albums.Classify | backend/src/api/albums/service.js:97-99 | The identifier itself is the key either way. It is looked up by id exactly when it is 24 hexadecimal digits, either case, so any other length or any non-hex character means a slug lookup. |
| Albums.ClassifyExamples | backend/src/api/albums/service.js:97 | A 24-digit id is an id lookup in either case. One non-hex character, or a plain slug, gives a slug lookup. |
| Albums.ResolveArtist | backend/src/api/albums/service.js:96-101 | A hex identifier resolves only to the artist with that id. Any other identifier resolves to the first artist with that slug. Not found is an error. |
| Albums.ObjectIdLookingSlugUnreachable | backend/src/api/albums/service.js:97-99 | An artist whose slug looks like an object id cannot be found by that slug. |
| Albums.GetByArtist | backend/src/api/albums/service.js:96-125 | An unresolved artist is NotFound. Otherwise the result has the artist's id and the page's skip. |
| Albums.DeleteById | backend/src/api/albums/service.js:70-76 | An unknown id is NotFound and changes nothing. Otherwise the album goes, its songs lose their album, and every other song keeps its own. |
| Albums.DeleteLeavesDanglingSongs | backend/src/api/albums/service.js:70-94 | After a delete the id is gone: deleting or updating it again is NotFound. A listed song loses the album, but a song pointing at the album without being listed keeps the deleted id. |
| Albums.Apply | backend/src/api/albums/service.js:82-90 | Every field the body sends overwrites, including artist, slug, songs and cover, and every other field stays. An upload wins over a cover named in the body. A text genre is stored as trimmed, comma-free names. |
| Albums.ApplyEmptyPatch | backend/src/api/albums/service.js:82-90 | An empty body with no upload leaves the album as it was. |
| Albums.ApplyTwice | backend/src/api/albums/service.js:82-90 | Sending the same update twice stores what the first one stored. |
| Albums.Update | backend/src/api/albums/service.js:78-94 | An unknown id is NotFound and changes nothing. Otherwise exactly that album is replaced by the patched one. |
| Albums.UpdateSkipsPriceRule | backend/src/api/albums/service.js:78-92 | An update can make a free album purchase-only at price 0, which create would have rejected. |
| Songs.CoerceGenre | backend/controllers/songController2.js:31 | A string genre becomes an array of at least one trimmed, comma-free name. A non-string passes through unchanged. The result is never a string, and apart from an empty string its truthiness is kept. |
| Songs.CoerceAlbumOnly | backend/controllers/songController2.js:32 | The flag is set only for a truthy value. A boolean is kept. A string sets it exactly when it is "true". Any other value uses its truthiness. |
| Songs.CoercionsSettle | backend/controllers/songController2.js:31-32 | A coerced value coerces to itself. |
| Songs.StringFlagsAreNotTruthiness | backend/controllers/songController2.js:32 | "false" is truthy but coerces to false, and "TRUE" coerces to false. |
| Songs.GenreTextRoundTrip | backend/controllers/songController2.js:31 | A genre list sent as comma-separated text comes back as the same list, when its names need no trimming. |
| Songs.CreateSongRequest | backend/controllers/songController2.js:10-63 | A non-admin is rejected, and missing title, artist or duration is rejected, both before any upload or conversion. Conversion runs exactly when there is a base price. Without one, the stored basePrice is null and convertedPrices is []. |
| Songs.AdminGateFirst | backend/controllers/songController2.js:11 | A non-admin request is refused the same way whatever its body. |
| Js.Trim | backend/src/api/albums/service.js:23 | `trim` returns the infix left after dropping white space at both ends. |
| Js.TrimIdempotent | backend/controllers/userControllers.js:267 | Trimming twice is trimming once. |
| Js.Lower | backend/controllers/userControllers.js:267 | Lower-cases each character in place, keeping length. |
| Js.LowerIdempotent | backend/controllers/userControllers.js:267 | Lower-casing twice is lower-casing once. |
| Js.Split | backend/src/api/albums/service.js:23 | `split` returns at least one part, and no part holds the separator. |
| Js.JoinSplit | backend/src/api/albums/service.js:23 | Joining the parts of a split restores the string. |
| Js.SplitJoin | backend/src/api/albums/service.js:23 | Splitting a join of separator-free parts restores the parts. |
| Js.SplitTrim | backend/src/api/albums/service.js:23 | Each part of the split, trimmed, in order. |
| Js.SplitTrimJoin | backend/src/api/albums/service.js:23 | Comma-joined names that need no trimming come back unchanged. |

## Left out

- Mongo sessions and `withTransaction`: each handler is one atomic step. The event-id claim is a separate earlier step, because the source takes it outside the session.
- Concurrency: interleaved webhooks and retries are not modelled. The model only states what one call does and what a sequence of calls does.
- The event dispatcher (`eventDispatcher.js`, a thin wrapper over Node's EventEmitter) is an appended log of (topic, payload). `eventHandler.js`, `paymentEventHandlers.js` and `subscribers/index.js` only route to services that are not visible, and are not modelled.
- The email and logging-only subscribers (`onSubscriptionCreated`, `onPurchaseCompleted`, `onPurchaseRefunded`, `onSubscriptionCancelled`) hold no state logic.
- PaymentEvents.React: the PURCHASE_COMPLETED listener calls `updatePurchaseHistory`, whose handler file is not part of this model. React treats that topic as changing nothing.
- Provider SDK calls: payment initiation and refunds in `payment.service.js`. The Stripe subscription fetch in the legacy service is the `stripePeriodEnd` parameter. Stripe's `constructEvent` is an oracle.
- Crypto (HMAC-SHA256, bcrypt, sha256) is uninterpreted. The Razorpay signature comparison is not constant-time, which Dafny cannot express.
- Floating point: `convertCurrencies.js`, `priceInUSD.js` and `parseFloat` are parameters. Prices in the settlement stores are integers.
- Songs.CreateSongRequest: `parseFloat` is an oracle, so the stored amount is only known as that oracle's value.
- Errors from the database other than a duplicate key are one `ledgerFails` flag on the claim. Errors in the later database writes are not modelled.
- The subscribers swallow every error. The model has no error path for them, so nothing can propagate.
- Subscribers.NewSubscription: the subscriber inserts set only user, artist and validUntil. The subscription schema is not part of this model, so the stored status is `Unset` and createdAt is absent. The schema's `user`/`artist` field names are read as userId/artistId. The same reading applies to the `user`/`artist` filter of `findActiveSubscription`.
- LegacyPaymentService.ApplyPurchase: the legacy upsert is assumed to set createdAt on insert, as `setDefaultsOnInsert` would. The history row's duplicate `amount` field is dropped because it equals `price`. The upsert filter `{ userId, artistId }` with an absent id matches the records whose id is absent (null semantics); a driver configured with `ignoreUndefined` would drop that key and match on the other field alone, which the model does not promise. A failure of `user.save()` after a successful upsert is not modelled.
- SubscriptionRepository.UpsertSubscription: an absent userId or artistId is matched as null, so it finds the records that lack the field. Under `ignoreUndefined` the filter would lose that key instead, and the contract does not cover that driver setting.
- UserRepository.AddPurchase: an absent user id updates nothing, because `findByIdAndUpdate(undefined)` matches no document. That is the driver's behaviour for ids, independent of `ignoreUndefined`.
- PaymentEventService.SubscribeArtist: the upsert it makes inherits the null reading of an absent `tx.userId` from SubscriptionRepository.UpsertSubscription; the `ignoreUndefined` reading is not covered.
- PaymentEventService.HandleSubscriptionCancelled: the fallback filter `{ userId, artistId }` reads an absent value as null, matching the records that lack the field; under `ignoreUndefined` it would match on the other field alone, which the contract does not cover.
- PaymentService.HandlePaymentSuccess: the handlers read `tx.userId`, while `createStripePayment` and `createRazorpayPayment` in `payment.service.js` store the payer as `user`. The Transaction schema is not part of this model, so `tx.userId` is taken as stored; if the schema has no `userId` path, it is absent, no user is updated and the subscription upsert falls under the null reading above.
- LegacyPaymentService.CycleDays: only the twelve properties that `Object.prototype` defines are treated as inherited keys; properties that other code might add to the prototype are not.
- Accounts.UpdatePreferredGenres: array elements are modelled as strings. A non-string element (a number, null, an object) makes `g.trim()` throw a TypeError in the source, which the model cannot express and does not promise.
- Accounts.RegisterUser: the insert assigns a fresh id (`newId`). The duplicate-id error is a modelling addition for an id already in use; the source cannot produce it.
- Js.Lower: only the ASCII letters are lower-cased. JavaScript's `toLowerCase` maps all of Unicode.
- Albums.Paginate: a non-numeric page or limit would give NaN in JavaScript. Only integers are modelled, and a limit of 0 (Infinity or NaN) gives no page count.
- Albums.DeleteById: an id that is not a valid object id makes Mongo throw a cast error. The model treats it as not found.
- Albums.Create: the insert assigns a fresh id (`newId`). The model adds a duplicate-id error for an id already in use.
- `album.controller..js`, `index.js`, `repository.js` (sorting and the count query), `getById` access shaping and `getAllWithoutPagination`: the total album count is a parameter.
- `updateSong` calls functions that are not defined, and is not modelled. The Google OAuth redirect and `myProfile` are response shaping only.
- `features/subscription/*`, `webhookEvent.repository.js` and `payment.controller.js` reference undefined names or are HTTP glue.
- I/O and infrastructure: `server2.js`, `redisClient.js`, `queue/*` and `uploadMiddleware.js`. Uploads are URL parameters ("" for no file).

## Findings

| source | as written | input that shows it | evidently intended | confidence | as-written member | corrected member |
|---|---|---|---|---|---|---|
| backend/services/paymentService.js:110-117 | There is no logical-or operator after the PayPal id on line 113. Automatic semicolon insertion ends the declaration there, so the Stripe, payment-intent and order-id fallbacks and "unknown" are never used. | An artist-subscription transaction with stripeSubscriptionId "sub_1" and no metadata ids is stored with no external subscription id. | The chain continues to stripeSubscriptionId, paymentIntentId, razorpayOrderId and finally "unknown", so the id is never empty. | high; not executed | LegacyPaymentService.ExternalIdAsWritten, LegacyPaymentService.ExternalIdChainCutShort, LegacyPaymentService.UpdateUserAfterPurchaseAsWritten | LegacyPaymentService.ExternalId, LegacyPaymentService.UpdateUserAfterPurchase |
| backend/services/paymentService.js:19-51 | The query starts as `{}`. No branch replaces it for an unknown gateway or for Razorpay/PayPal with no id, so `findOne({})` returns the first transaction in the collection. Stripe with no id becomes `{ paymentIntentId: undefined }`, sent as null, which finds the first transaction without a payment intent. | A Razorpay callback with no ids and one pending transaction "t1": that transaction is marked paid. | A request without a usable lookup id marks nothing and returns null. | high for the empty filter, medium for the Stripe case (depends on the driver sending undefined as null); not executed | LegacyPaymentService.MarkTransactionPaidAsWritten, LegacyPaymentService.EmptyQueryMarksUnrelatedTransaction, LegacyPaymentService.StripeWithoutIdsMarksIntentlessTransaction | LegacyPaymentService.MarkTransactionPaid, LegacyPaymentService.MarkPaidVersionsAgree |
