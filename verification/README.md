# Payout orchestrator model

The repository is a payout orchestrator: an API service with idempotent creates and a Redis token bucket, an
orchestrator service that keeps payouts in Postgres and sends them through weighted or ranked providers with
fallback, and a webhook service that applies provider events once. This project models the parts where these
services can go wrong, and proves what they keep.

* **The payout protocol** (`PayoutDomain`, `PayoutTables`, `PayoutProtocol`). CreatePayout, CancelPayout and
  ApplyProviderUpdate as a transition system over the two shared tables. Each database statement, transaction
  and provider pass is one step; steps of different calls interleave freely. A reply can be lost after the
  statement took effect (an ambiguous commit), a statement can fail without effect, and a call can crash
  between any two steps. `ProtocolInvariant` holds the inductive invariant, `ProtocolTheorems` what follows for
  every run, `ProtocolAnswers` what the callers are told, `Finality` exactly when a canceled, completed or failed
  payout stays that way, and `ProtocolWitnesses` the runs that show the limits.
* **The service itself** (`PayoutStore`, `PayoutService`). The repositories and the RPC methods as classes whose
  methods change the tables statement by statement while other calls move in between; each is proved to be a
  run of one call of the protocol.
* **Replays** (`Canonical`, `ReplayMatch`, `CreateHandler`). The canonical text of a create request and a
  decoder for it, and what that means for replays through the API's create handler. The hash is an arbitrary
  function: results name the collision instead of assuming there is none.
* **The token bucket** (`RateLimit`, `RateLimitRuns`), with rounding to two decimals and key expiry; what the
  rounding costs (`ExactRate`); EXPIREs that fail (`RateLimitFaults`); and calls that overlap (`RateLimitOverlap`).
* **Routing and fallback** (`Fallback`, `SuccessTracker`, `Registry`, `Weights`, `Router`, `Orchestrator`),
  with the random draw as a parameter and the in-place loops on arrays; and what the success-based sort does to
  providers without enough samples (`Rotations`, `SortStability`).
* **Webhook deduplication** (`WebhookDedup`, `StripeHandler`) in front of ApplyProviderUpdate.

Things a reader may not expect:

* "Canceled" is not final. A send that was pending when the payout was canceled still writes its outcome, and so
  does a provider update that was under way; "completed" and "failed" are no better off. `StateIsFinalIff` says exactly
  when nothing can.
* The provider CHECK of the payouts table admits `stripe` and `crypto_sim` only, so a payout that `mock_card`
  accepted can never be recorded as sent; nor can one for which a provider returned an external id that another
  payout holds. `AcceptedSendIsRecordedIff` has the exact condition.
* A provider update that finds its payout by UUID can erase a recorded external id. It cannot replace one.
* The rate bound holds for every configuration once the rate is replaced by the larger of the configured rate
  and burst per 300 s. The condition 300 * rate >= burst is sufficient for the expiry to go unnoticed but, because of
  the rounding, not necessary; `ExpiryIsTransparentIff` has the exact one.
* Because stored tokens are rounded, more calls can be allowed than burst + rate * time. The default
  configuration, like every multiple of ten tokens a second, is exact. For whole numbers of tokens a second up to 100
  for each token of the burst but one, and enough to fill the bucket in 300 s, `PlainBoundIff` shows that no others
  are; far above, rates that fill the bucket in a millisecond are exact again.
* The comments at `services/orchestrator/internal/provider/router.go:204` and `:237` promise that providers
  without enough samples keep their order. The code rotates them, and the model follows the code;
  `UnrankedKeepOrderIff` says exactly when nothing is left of the rotations.
* Deduplication is at most once: an event whose first check or first forward failed half-way is acknowledged and
  not applied by any redelivery within the time to live. `FirstCheckDecides` has the exact condition.
* Two deliveries of one event are forwarded only if their checks are a time to live apart, but a forward can be
  delayed, and the forwards themselves can be closer by as much (`ForwardsApart`, `SentApartIff`).

## Model

| member | source | states |
|---|---|---|
| ProtocolInvariant.RunKeepsInv | services/orchestrator/internal/grpc/payout_service.go:55-412 | Every run of any number of create, cancel and provider-update calls, stepped in any order, with lost and dropped replies, from the empty tables, keeps the invariant: rows are well formed, keys and payouts correspond, the counts of sends, writes and cancels are bounded, every call in flight holds what it may hold, and no two calls are in the send phase of one payout. |
| ProtocolInvariant.NextKeepsInv | services/orchestrator/internal/grpc/payout_service.go:55-412 | One step of one call keeps that invariant, in any state that has it. |
| ProtocolInvariant.PerformCases | services/orchestrator/internal/persistence/sqlcgen/queries.sql.go:14-20 | The only ways a step touches the tables: nothing, one new payout together with its key, or one write to one existing row, which for a cancel was in a cancelable state. |
| ProtocolInvariant.PassDeliversOnce | services/orchestrator/internal/provider/orchestrator.go:80-136 | A pass over the providers contains at most one answer without an error, and the report names it. |
| ProtocolTheorems.OneSendPerKey | services/orchestrator/internal/grpc/payout_service.go:78-148 | In every run each idempotency key enters the send phase at most once, and at most one provider send made for it returns no error, even when a commit is ambiguous and the update that follows fails. |
| ProtocolTheorems.KeysMatchPayouts | services/orchestrator/internal/grpc/payout_service.go:78-106 | Every key names an existing payout, no two keys name the same one, and every payout has a key. |
| ProtocolTheorems.TablesOnlyGrow | services/orchestrator/internal/persistence/sqlcgen/queries.sql.go:143-148 | From any state, key entries never change, payouts are never removed, and a payout keeps its amount, currency and rail. |
| ProtocolTheorems.SameKeySamePayout | services/orchestrator/internal/grpc/payout_service.go:108-144 | All the successful answers for one key, first or replayed, name the payout of the key entry, and were asked for with the same request hash. |
| ProtocolTheorems.ConflictChangesNothing | services/orchestrator/internal/grpc/payout_service.go:93-133 | A create whose key is held with another hash changes no row. It is told ALREADY_EXISTS if and only if the database replied and the payout alone could have been inserted; otherwise it is told INTERNAL. |
| ProtocolTheorems.ConflictIsRefusedForGood | services/orchestrator/internal/grpc/payout_service.go:93-133 | A create that has not opened its transaction when its key is held with another hash is never answered with a payout, and none of its steps writes anything, in any continuation of any run. |
| ProtocolTheorems.StateMachine | services/orchestrator/internal/grpc/payout_service.go:172-220 | Only created, sent, failed, completed and canceled are reachable, and a step that changes a row follows an edge: the pending send of that payout writes sent or failed, and never over sent; a cancel goes from created or sent to canceled; a provider update writes completed, failed or canceled. |
| ProtocolTheorems.CreatedRowsAreBlank | services/orchestrator/internal/grpc/payout_service.go:82-88 | A created row has no provider and no external id, and created was written once for it. |
| ProtocolTheorems.CreatedNeverReentered | services/orchestrator/internal/grpc/payout_service.go:82-88 | Once a payout has left created, no continuation of the run brings it back. |
| ProtocolTheorems.SentOnceWithReference | services/orchestrator/internal/grpc/payout_service.go:172-195 | Sent is written at most once per payout and carries an external id; any external id in a row is one that the provider in the same row returned for that payout. |
| ProtocolTheorems.AtMostTwoCancels | services/orchestrator/internal/grpc/payout_service.go:283-340 | The successful cancels of a payout, as counted, are at most one plus the number of times it was written as sent, so at most two. |
| ProtocolTheorems.ReferenceNeverReplaced | services/orchestrator/internal/grpc/payout_service.go:369-373 | In any run a recorded external id may be erased and restored but is never replaced by another, and its provider comes back with it. |
| ProtocolTheorems.ReferenceLostIff | services/orchestrator/internal/grpc/payout_service.go:357-373 | In every reachable state a step changes a recorded external id, or the provider beside it, if and only if it is the write of a provider update for that payout whose snapshot has no external id and the database does not fail; and then it erases it. |
| ProtocolTheorems.ReferenceWrittenOnce | services/orchestrator/internal/grpc/payout_service.go:342-412 | When every provider update that resolves to a payout at all finds it by external id, whatever the reference looks like, an external id once recorded never changes, nor does the provider beside it. |
| ProtocolTheorems.PlainReferencesResolve | services/orchestrator/internal/grpc/payout_service.go:390-412 | References that do not parse as a UUID satisfy that condition. |
| ProtocolTheorems.RunKeepsFresh | services/orchestrator/internal/grpc/payout_service.go:357-373 | In such runs the snapshot that an update holds agrees with the row it is about to overwrite. |
| ProtocolTheorems.RecallFindsSender | services/orchestrator/internal/grpc/payout_service.go:320-333 | A provider is asked to cancel a payout only under the reference it returned itself, and no other provider ever returned one for that payout. |
| ProtocolTheorems.UnlistedProviderNeverRecorded | db/migrations/00002_create_payouts.sql:8 | A payout accepted by a provider outside the CHECK, such as mock_card, is never recorded as sent and never gets an external id, in any state of any run. |
| ProtocolTheorems.AcceptedSendIsRecordedIff | services/orchestrator/internal/grpc/payout_service.go:172-195 | A send that a provider accepted is recorded as sent, with its external id and provider, if and only if the database does not fail, the CHECK admits the provider and no other payout holds the external id; otherwise nothing is written. The client is told sent exactly when it was recorded and the reply arrived, and created otherwise. |
| Finality.StateIsFinalIff | services/orchestrator/internal/grpc/payout_service.go:170-412 | After any run, a payout that is canceled, completed or failed stays so in every continuation in which no new provider update begins if and only if no call threatens it: none is about to send it; none is about to record another outcome that the database takes, or will take once another payout has lost the external id to an update from a blank snapshot; and no update to another state has read it, will look it up, or will find it by an external id that it has or that another update can restore. |
| Finality.QuietStays | services/orchestrator/internal/grpc/payout_service.go:170-412 | Where no call threatens such a payout, none ever does, until a new provider update begins. |
| Finality.ThreatOverwrites | services/orchestrator/internal/grpc/payout_service.go:170-412 | Every threat can be carried out: some continuation without new updates takes the payout out of its state. |
| Finality.NewUpdateOverwrites | services/orchestrator/internal/grpc/payout_service.go:342-386 | A new provider update that names the payout by its UUID can always take it out of such a state. |
| Finality.RecordingOverwrites | services/orchestrator/internal/grpc/payout_service.go:178-189 | A pending record of another outcome that the database takes, or can come to take, leads out of the state. |
| Finality.SendingOverwrites | services/orchestrator/internal/grpc/payout_service.go:170-182 | A pending send always has a continuation that leads out of the state: it is accepted and recorded. |
| ProtocolWitnesses.CanceledThenSent | services/orchestrator/internal/grpc/payout_service.go:178-189 | A reachable state in which a cancel was answered with success and the payout is sent. |
| ProtocolWitnesses.TwoCancelsCanSucceed | services/orchestrator/internal/grpc/payout_service.go:283-340 | The bound of two successful cancels is reached. |
| ProtocolWitnesses.StaleSnapshotErasesReference | services/orchestrator/internal/grpc/payout_service.go:357-373 | A provider update that names its payout by UUID, with a snapshot from before the send was recorded, erases the external id and the provider. |
| ProtocolWitnesses.MockDeliveryIsLost | services/orchestrator/internal/grpc/payout_service.go:178-189 | mock_card accepts, the update is refused by the CHECK, the client is told created, and a cancel then succeeds with no provider being asked. |
| ProtocolAnswers.InvalidIff | services/orchestrator/internal/grpc/payout_service.go:61-66 | In every run a create is refused as invalid if and only if it came without a key or a hash, and a cancel if and only if it came without a reference or with one that is no UUID; a provider update is refused as invalid without a reference, and otherwise only for a status that is not one of the three. |
| ProtocolAnswers.FreeKeyOpens | services/orchestrator/internal/grpc/payout_service.go:78-106 | A create whose key is free commits its payout, in state created with the order that was asked for, and its key if and only if the amount is positive, the rail is card or crypto, the new id is free and the database does not fail; it goes on to its send phase if the reply arrives too. Everything else is an internal error. |
| ProtocolAnswers.RowsAreChecked | db/migrations/00002_create_payouts.sql:5-8 | Every row, in every run, has a positive amount, rail card or crypto, and provider stripe, crypto_sim or none. |
| ProtocolAnswers.SenderHoldsOrder | services/orchestrator/internal/grpc/payout_service.go:82-117 | A create in its send phase carries the amount, currency and rail that were asked for. |
| ProtocolAnswers.FailedPassIsRecordedIff | services/orchestrator/internal/grpc/payout_service.go:197-216 | A failed pass is recorded, as failed, without external id and with the provider tried last, if and only if the database does not fail and the CHECK admits that provider; the client is told failed exactly when it was recorded and the reply arrived, and created otherwise. |
| ProtocolAnswers.CreateIsToldItsState | services/orchestrator/internal/grpc/payout_service.go:117-144 | A create that is answered with a payout is told the state that its row has when the answer is made, sent or failed after its own send and any state as a replay, unless the record was refused or its reply lost; then it is told created. |
| ProtocolAnswers.ReplayIsToldItsState | services/orchestrator/internal/grpc/payout_service.go:136-144 | A replay is answered with the payout of its key and the state that the row has, or with an internal error when the read fails. |
| ProtocolAnswers.CancelReads | services/orchestrator/internal/grpc/payout_service.go:299-330 | What a cancel finds in every reachable state: an absent row is not found; a completed, failed or canceled one fails the precondition; a failed read is internal; from a created or sent one it goes on, asking the provider where there is one. |
| ProtocolAnswers.CancelWrites | services/orchestrator/internal/grpc/payout_service.go:333-339 | A cancel is answered with success exactly when its write is acknowledged and takes the row from created or sent to canceled; a write that fails, is lost, or finds another state is an internal error. |
| ProtocolAnswers.SuccessesAreCounted | services/orchestrator/internal/grpc/payout_service.go:333-339 | In every run the cancels of a payout that were answered with success are exactly as many as were counted. |
| ProtocolAnswers.AtMostTwoCancelsSucceed | services/orchestrator/internal/grpc/payout_service.go:283-340 | However many CancelPayout calls race, at most two of them per payout are ever answered with success, and at most one plus the number of times it was written as sent. |
| ProtocolAnswers.UpdateWritesItsStatus | services/orchestrator/internal/grpc/payout_service.go:363-373 | What a provider update is about to write, and what it writes, is completed exactly for payout_succeeded, failed exactly for payout_failed, and canceled exactly for payout_canceled, with the external id and provider of its snapshot and nothing else changed; it is answered with success only when the row has that state. |
| ProtocolAnswers.UnknownStatusDoesNothing | services/orchestrator/internal/grpc/payout_service.go:415-426 | An update with any other status is never answered with success, and none of its steps writes anything. |
| ProtocolAnswers.SuccessfulUpdateWrote | services/orchestrator/internal/grpc/payout_service.go:369-386 | An update that was answered with success has written the state that its status names. |
| ProtocolAnswers.UpdateResolves | services/orchestrator/internal/grpc/payout_service.go:390-412 | An update resolves by external id where that read works and finds a row, otherwise by the UUID where there is one; it is not found when neither finds a row, and a failed second read is an internal error. |
| PayoutStore.Store.CreateInTx | services/orchestrator/internal/grpc/payout_service.go:78-106 | The transaction changes the tables and ends exactly as the protocol step does: both rows, or neither after an error, a key conflict or a failed commit; a lost commit reply is an error with both rows written. |
| PayoutStore.Store.CreatePayout | services/orchestrator/internal/persistence/postgres/payout_repo.go:23-41 | The insert takes effect exactly when no constraint is violated. |
| PayoutStore.Store.TryInsertIdempotencyKey | services/orchestrator/internal/persistence/postgres/payout_repo.go:114-132 | The key is inserted exactly when it is absent; the entry that ends up there is returned. |
| PayoutStore.Store.UpdatePayoutState | services/orchestrator/internal/persistence/postgres/payout_repo.go:54-73 | The unconditional update, which does nothing when it fails, and returns the new row. |
| PayoutStore.Store.CancelPayout | services/orchestrator/internal/persistence/postgres/payout_repo.go:75-91 | The guarded update: it takes effect only from one of the states passed in, whatever they are. |
| PayoutStore.Store.GetPayout | services/orchestrator/internal/persistence/postgres/payout_repo.go:43-52 | Found, not found, and failed reads. |
| PayoutStore.Store.FindByExternalID | services/orchestrator/internal/persistence/postgres/payout_repo.go:93-102 | The one row with that external id, if there is one and the read does not fail. |
| PayoutTables.FindByRef | services/orchestrator/internal/persistence/sqlcgen/queries.sql.go:85-87 | Returns a row with that external id, and none only when there is none. |
| PayoutService.Server.CreatePayout | services/orchestrator/internal/grpc/payout_service.go:55-149 | The method is a run of one create call of the protocol, interleaved with any steps of others, and returns what that call answers; its pass over the providers is for the payout that was asked for, along a route of its rail, with the answers of the clients at their places. |
| PayoutService.Server.Replay | services/orchestrator/internal/grpc/payout_service.go:135-144 | The replay reads the payout of the key entry and answers with its state. |
| PayoutService.Server.SendPayoutWithOrchestrator | services/orchestrator/internal/grpc/payout_service.go:152-170 | From the committed payout through one pass over the providers of its rail to the recorded outcome, as the protocol has it. |
| PayoutService.Server.RecordOutcome | services/orchestrator/internal/grpc/payout_service.go:172-222 | Records sent with reference and provider, or failed with the last provider tried; the caller gets the snapshot back when the update fails. |
| PayoutService.Server.CancelPayout | services/orchestrator/internal/grpc/payout_service.go:283-340 | The method is a run of one cancel call of the protocol and returns what that call answers; a success has been counted. |
| PayoutService.Server.CancelRead | services/orchestrator/internal/grpc/payout_service.go:320-340 | A client registered under the provider of the snapshot is asked first, when it names one, and the guarded update follows whatever it said. |
| PayoutService.Server.ReadCancelable | services/orchestrator/internal/grpc/payout_service.go:299-318 | The read and the check of the state: the snapshot to go on with, or the refusal the protocol gives. |
| PayoutService.Server.IsCancelable | services/orchestrator/internal/grpc/payout_service.go:276-314 | The loop decides membership in the cancelable states. |
| PayoutService.Server.ApplyProviderUpdate | services/orchestrator/internal/grpc/payout_service.go:342-386 | The method is a run of one provider-update call of the protocol, begun by exactly this request, and returns what that call answers; on success the state that the status names has been written. |
| PayoutService.Server.FindPayoutByExternalIDOrID | services/orchestrator/internal/grpc/payout_service.go:390-412 | By external id, and after any failure of that by UUID when the reference parses as one; ends at the snapshot or at the answer the protocol gives. |
| PayoutService.OthersLeaveCallAlone | services/orchestrator/internal/grpc/payout_service.go:55-149 | Steps of other calls leave a call where it is: why a method may be reasoned about between its statements. |
| PayoutService.CancelReachesSender | services/orchestrator/internal/grpc/payout_service.go:320-333 | When names stay unique, the client that a payout's cancel is put to is the one that took the payout, the last that its pass tried, whatever registrations and toggles came in between, and it is asked under the external id that it returned. |
| Canonical.TextReadsBack | services/api/internal/http/router.go:83-88 | A decoder undoes the decimal printing and the quote escaping of the canonical text, for every amount, currency and rail and for every set of printable characters. |
| Canonical.TextIsInjective | services/api/internal/http/router.go:83-88 | The canonical text determines amount, currency and rail. |
| Canonical.TextOfPlainOrder | services/api/internal/http/router.go:86 | The text of an order whose currency and rail need no escapes, as it is written. |
| Canonical.Escapes | services/api/internal/http/router.go:86 | The escapes of quotes, backslashes and control characters that have one of their own. |
| Canonical.NoLeadingZero | services/api/internal/http/router.go:86 | Amounts are printed without leading zeros, negative ones with a sign. |
| Canonical.QuotedReadsBack | services/api/internal/http/router.go:86 | Quoted text reads back whatever follows it, all escapes included. |
| Canonical.CharReadsBack | services/api/internal/http/router.go:86 | Each escaped character reads back, and no escape starts with a quote. |
| Canonical.DecimalReadsBack | services/api/internal/http/router.go:86 | A printed amount reads back and contains no comma. |
| ReplayMatch.Api.HashesMatchRows | services/api/internal/http/router.go:114-123 | When all creates come through the API, every key entry holds the hash of the order that its payout row holds, in every run. |
| ReplayMatch.Api.SameHashIff | services/api/internal/http/router.go:83-88 | A request hash matches a row if and only if the orders are equal or their texts are a collision of the hash function, and never both. |
| ReplayMatch.Api.AcceptedMatchesStored | services/orchestrator/internal/grpc/payout_service.go:130-144 | Every create answered with a payout, first or replayed, asked for that payout's amount, currency and rail, unless the two texts are a collision of the hash function. |
| ReplayMatch.Api.TakenKeyDecides | services/orchestrator/internal/grpc/payout_service.go:130-136 | A create that meets a taken key, when its own row could be inserted and the database replies, goes on to the replay if the stored order is the requested one or collides with it, and is refused as a conflict otherwise. |
| CreateHandler.Handler.CreatePayout | services/api/internal/http/router.go:90-142 | 400 exactly for a missing key, an undecodable body, an amount that is not positive or a missing rail, and then nothing reaches the orchestrator; otherwise the order is sent on under its canonical hash, and the reply is 202 with the payout and state of the answer, 409 for ALREADY_EXISTS, and 502 for every other answer or none. A 202 names a payout that stores the order asked for (hash collisions apart, when all creates come through the API). |
| RateLimit.Limiter.Allow | services/api/internal/http/middleware/ratelimit.go:90-174 | One call reads, decides and writes its own key, with every Redis command working, failing, or taking effect without a reply, and touches no other key; without faults it decides and writes as the bucket rules say, expiry included. |
| RateLimit.FaultFreeCall | services/api/internal/http/middleware/ratelimit.go:106-164 | Calls without faults follow the bucket rules and keep the key expiring 300 s after the last write. |
| RateLimit.CallAnswers | services/api/internal/http/middleware/ratelimit.go:106-173 | A call is an error exactly when HMGET fails, or HMSET does on a whole token; it is allowed exactly when there is a whole token and neither does; and only a call that gets to HMSET changes the key. |
| RateLimit.LostExpireKeepsDeadline | services/api/internal/http/middleware/ratelimit.go:147-157 | After a lost EXPIRE the old deadline stays in force, and the bucket is full again when it comes, however few tokens the call left. |
| RateLimitFaults.BoundWithLostExpires | services/api/internal/http/middleware/ratelimit.go:133-157 | With EXPIREs that fail as they like, and whose calls are allowed all the same, 0.995 times the calls allowed in any window of any run is at most 2 * burst + (rate + burst/300) * time. |
| RateLimitFaults.LostExpiresAllowTwoBursts | services/api/internal/http/middleware/ratelimit.go:147-157 | The second burst is real: for every burst, at a token a second or more, two bursts are allowed within a millisecond. |
| RateLimit.BoundByCost | services/api/internal/http/middleware/ratelimit.go:133-157 | Whatever an allowed call is sure to take from the bucket, rounding included, times the calls allowed in any window of any run is at most burst plus time times the larger of the configured rate and burst per 300 s. |
| RateLimit.RateBound | services/api/internal/http/middleware/ratelimit.go:133-157 | For every configuration, every history and every window: 0.995 times the calls allowed is within that bound. |
| RateLimit.ConfiguredRateBound | services/api/internal/http/middleware/ratelimit.go:133-157 | With 300 * rate >= burst: 0.995 * allowed <= burst + rate * (t1 - t0), over any window of any run with a non-decreasing clock. |
| RateLimit.FinalKeepsInv | services/api/internal/http/middleware/ratelimit.go:133-154 | The stored tokens stay within [0, burst - 1] and the stored time does not pass the clock, over any run. |
| RateLimit.RoundBounds | services/api/internal/http/middleware/ratelimit.go:149 | Printing with two decimals moves a value by at most 0.005 and keeps it non-negative. |
| RateLimit.RoundIsNearest | services/api/internal/http/middleware/ratelimit.go:149 | Printing with two decimals gives the nearest hundredth, and of two nearest ones the even. |
| RateLimit.OtherKeys | services/api/internal/http/middleware/ratelimit.go:91 | Different keys have different Redis keys. |
| RateLimitRuns.PlainBoundFails | services/api/internal/http/middleware/ratelimit.go:149 | Without the 0.995 the bound can fail: a run at one token a second in which more calls are allowed than burst + rate * time. |
| ExactRate.PlainBoundIff | services/api/internal/http/middleware/ratelimit.go:133-154 | For a whole number of tokens a second, up to 100 for each token of the burst but one and enough to fill the bucket in 300 s, the bound without the 0.995 holds over every window of every run if and only if the rate is a multiple of ten. |
| ExactRate.TenfoldRateIsExact | services/api/internal/http/middleware/ratelimit.go:133-154 | At every multiple of ten tokens a second, for every burst, the bound without the 0.995 holds. |
| ExactRate.SingleTokenIsExact | services/api/internal/http/middleware/ratelimit.go:133-154 | For every rate, it holds with a burst of one or none. |
| ExactRate.FastRateIsExact | services/api/internal/http/middleware/ratelimit.go:133-154 | It holds at every rate that fills the bucket in a millisecond. |
| ExactRate.DefaultIsExact | services/api/internal/http/middleware/ratelimit.go:49-56 | It holds for the default configuration. |
| ExactRate.NoGainNoExcess | services/api/internal/http/middleware/ratelimit.go:149 | It holds wherever no call is ever rounded up. |
| ExactRate.GainsBreakBound | services/api/internal/http/middleware/ratelimit.go:149 | It fails wherever the bucket refills in 300 s and, from every amount below a token, some wait makes an allowed call round up by a fixed gain. |
| ExactRate.FractionBreaksBound | services/api/internal/http/middleware/ratelimit.go:149 | At any real rate that fills the bucket in 300 s, it fails if some wait refills between one token and burst - 1 and ends in more than half a hundredth. |
| RateLimitRuns.SteadyIsAllowed | services/api/internal/http/middleware/ratelimit.go:133-154 | At one token a second, calls every 996 ms are allowed for ever, because rounding restores what is missing. |
| RateLimitRuns.RejectionIsInvisible | services/api/internal/http/middleware/ratelimit.go:143-173 | Erasing a rejected call from a run leaves every other decision and the final bucket as they were. |
| RateLimitRuns.RejectionsAreInvisible | services/api/internal/http/middleware/ratelimit.go:143-173 | So does erasing any set of rejected calls at once. |
| RateLimitRuns.ExpiryIsTransparentIff | services/api/internal/http/middleware/ratelimit.go:157 | The 300 s expiry changes no decision in any run if and only if 300 s refill an empty bucket, up to the rounding of the first token taken from it. |
| RateLimitRuns.FastRefillIsTransparent | services/api/internal/http/middleware/ratelimit.go:157 | 300 * rate >= burst implies that condition. |
| RateLimitRuns.SlightlySlowRefillIsTransparent | services/api/internal/http/middleware/ratelimit.go:149-157 | It is not necessary: a configuration with 300 * rate < burst whose shortfall is rounded away. |
| RateLimitRuns.RetryAfterIff | services/api/internal/http/middleware/ratelimit.go:209-223 | A call one second after a rejection, with none in between, is allowed in every run if and only if rate >= 1 and burst >= 1. |
| RateLimitOverlap.OverlappingCallsShareAToken | services/api/internal/http/middleware/ratelimit.go:106-151 | With the read and the write as two steps: however many calls read before the first of them writes, all are allowed on the tokens that are there and together take one, so that nothing bounds the calls allowed at an instant. |
| RateLimitOverlap.CallInTurn | services/api/internal/http/middleware/ratelimit.go:106-151 | A call that nothing overlaps is the single step of the bucket. |
| Orchestrator.Service.SelectProviders | services/orchestrator/internal/provider/router.go:49-81 | No route exactly when the rail has no active provider; otherwise a permutation of the active entries, under every algorithm, draw and state of the tracker: in configuration order under priority, with the drawn provider first under weights, and sorted by the counts under success rates while no one else records. |
| Router.SelectByWeight | services/orchestrator/internal/provider/router.go:85-120 | The provider whose interval of the running total holds the draw comes first, and the others follow in their order. |
| Router.ChoicesFollowWeights | services/orchestrator/internal/provider/router.go:93-119 | For every provider, exactly as many draws of [0, total) as its effective weight put it first, and each of them leaves one order. |
| Router.WeightedChoicePermutes | services/orchestrator/internal/provider/router.go:109-119 | Such an order is a permutation of the providers. |
| Weights.CalculateEffectiveWeights | services/orchestrator/internal/provider/router.go:125-184 | The array of effective weights, for any configured weights. |
| Weights.EffectiveSum | services/orchestrator/internal/provider/router.go:138-183 | For non-negative weights the sum is exactly 100 when some provider is unset and the explicit total is below 100, none explicit included; otherwise it is the explicit total plus one for each unset provider. |
| Weights.EffectiveSumIsPositive | services/orchestrator/internal/provider/router.go:125-184 | Whatever is configured, negative weights included, the effective weights are non-negative and add up to more than 0. |
| Weights.WhoGetsNothing | services/orchestrator/internal/provider/router.go:153-183 | Explicit weights are kept. A provider gets 0 if and only if it is unset, is not the first unset one, and there are more unset providers than points left to share. |
| Weights.UnsetShareEvenly | services/orchestrator/internal/provider/router.go:153-181 | Unset providers get the same, except that the first gets on top what does not divide, less than one for each of them; where explicit weights total 100 or more each gets one. |
| Weights.NoneExplicit | services/orchestrator/internal/provider/router.go:138-146 | Where no weight is positive all share 100 equally, and the first gets what does not divide. |
| Weights.WeightedRandomIndex | services/orchestrator/internal/provider/router.go:187-201 | For a positive total, the index whose interval holds the draw, or the last index when none does; otherwise the uniform draw. |
| Weights.DrawIndex | services/orchestrator/internal/provider/router.go:93-99 | From selectByWeight the uniform branch and the fall-through are never taken: the total is positive and the draw ends inside an interval. |
| Weights.SelectionIsUnique | services/orchestrator/internal/provider/router.go:192-199 | A draw selects one provider only. |
| Weights.DrawsPerProvider | services/orchestrator/internal/provider/router.go:192-199 | Exactly weights[i] of the draws of [0, total) select provider i. |
| Router.View.SortIsCorrect | services/orchestrator/internal/provider/router.go:238-266 | The exchange sort yields a permutation in which providers with enough samples come first, by non-increasing success rate. |
| Router.View.SortOrders | services/orchestrator/internal/provider/router.go:238-266 | From any sorted prefix on, the remaining passes leave nothing behind a position that belongs before it. |
| Router.View.SortRanksByCounts | services/orchestrator/internal/provider/router.go:238-266 | In terms of the history of attempts: providers with at least one attempt and at least the minimum come first, and of two of them the one before has accepted no smaller a part of its attempts, compared by cross-multiplication. |
| SortStability.UnrankedKeepOrderIff | services/orchestrator/internal/provider/router.go:236-265 | Providers without enough samples keep their order if, for every m > 0, the number of providers with enough samples that stand behind exactly m of them is a multiple of m; and, where they differ from one another, only if. |
| SortStability.SortRotatesUnranked | services/orchestrator/internal/provider/router.go:236-265 | What the sort makes of their order: for each provider with enough samples, in turn, those that stood before it are rotated by one. |
| Rotations.TurnedBackIff | services/orchestrator/internal/provider/router.go:238-253 | Rotating prefixes that never get shorter restores a list if each is rotated a whole number of times around, and, where the elements differ, only then. |
| Router.View.SortIsNotStable | services/orchestrator/internal/provider/router.go:236-265 | The smallest case in which they do not: two providers without enough samples change places when one with enough is behind them. |
| Router.Sorter.SelectBySuccessRate | services/orchestrator/internal/provider/router.go:205-274 | In place, a permutation even when other payouts record samples between the comparisons; when none does, the exchange sort of the counts at the start. |
| Router.Sorter.PassInPlace | services/orchestrator/internal/provider/router.go:239-265 | The inner loop: always a permutation, and the specified pass when the counts stand still. |
| Orchestrator.Service.SendPayoutWithFallback | services/orchestrator/internal/provider/orchestrator.go:48-145 | The attempts are routed providers in order, each with the answer of the client at its place; the pass goes on after an error that is plain under its wrappers or allows a retry, and ends early only on a success or an error that forbids one; the result reports it; the tracker gains one sample for each attempt, in order, with the samples of other payouts anywhere in between, and nothing else when there are none. The registry may change meanwhile. |
| Orchestrator.AsRetryable | services/orchestrator/internal/provider/orchestrator.go:149-156 | An error that is plain under any wrappers is retried; otherwise the outermost RetryableError decides, whatever is inside it. |
| Fallback.RetriedIff | services/orchestrator/internal/provider/errors.go:7-13 | Under its wrappers every error is plain or a RetryableError, and it is retried unless that one says no. |
| Fallback.PassGoesOn | services/orchestrator/internal/provider/orchestrator.go:80-136 | Every attempt of a pass but the last was answered with an error that is plain under its wrappers or allows a retry. |
| Fallback.ReportSays | services/orchestrator/internal/provider/orchestrator.go:80-136 | The report lists the providers tried in order, succeeds exactly when the last attempt did, and then names its provider and external id. |
| Orchestrator.PassIsCounted | services/orchestrator/internal/provider/orchestrator.go:92-109 | A pass adds to a provider one success for each attempt that it accepted and one failure for each that it refused. |
| Orchestrator.ExhaustedPassTriedAll | services/orchestrator/internal/provider/orchestrator.go:80-136 | A pass without a success or a terminal error has tried every active provider of the rail. |
| Orchestrator.Service.CancelPayout | services/orchestrator/internal/provider/orchestrator.go:159-190 | Asks a client registered under the payout's provider and returns that client's error; no such client is an error. |
| SuccessTracker.CountsAreConserved | services/orchestrator/internal/provider/success_tracker.go:30-86 | After any history of attempts, for rails without a colon, the counts under a rail and provider equal the numbers of successes and failures in the history, and there is an entry if and only if there was an attempt. |
| SuccessTracker.KeyIsInjective | services/orchestrator/internal/provider/success_tracker.go:34 | Rails without a colon can be read back from the key. |
| SuccessTracker.ColonsCollide | services/orchestrator/internal/provider/success_tracker.go:34 | With a colon in the rail two pairs can share an entry. |
| SuccessTracker.EntryRateIsRatio | services/orchestrator/internal/provider/success_tracker.go:57-73 | The rate of a present entry is successes over attempts, never the default of 0.95. |
| SuccessTracker.NoAttemptsRate | services/orchestrator/internal/provider/success_tracker.go:57-66 | Without an attempt the rate is 0.95. |
| SuccessTracker.Tracker.RecordSuccess | services/orchestrator/internal/provider/success_tracker.go:30-40 | The map stays the one that the history, with this success added, determines. |
| SuccessTracker.Tracker.RecordFailure | services/orchestrator/internal/provider/success_tracker.go:43-53 | Likewise with this failure. |
| SuccessTracker.Tracker.GetSuccessRate | services/orchestrator/internal/provider/success_tracker.go:57-73 | The rate read from the map. |
| SuccessTracker.Tracker.GetStats | services/orchestrator/internal/provider/success_tracker.go:76-86 | The counts read from the map, and whether there is an entry. |
| Registry.LookupReachesSender | services/orchestrator/internal/provider/registry.go:34-94 | With names unique across rails, a lookup by the provider name of an entry reaches the client of that entry, in every order of the walk and after any registrations and toggles. |
| Registry.LookupReachesSenderIff | services/orchestrator/internal/provider/registry.go:34-94 | A lookup reaches the sender in every order of the walk if and only if on every rail the first entry of its name, where there is one, is the sender's client. |
| Registry.EntriesStay | services/orchestrator/internal/provider/registry.go:34-80 | An entry keeps its place, client and name through registrations and toggles. |
| Registry.ActivesInOrder | services/orchestrator/internal/provider/registry.go:51-64 | What is kept of a rail are exactly its active entries, each as often and in the order registered. |
| Registry.ToggleTakesEffect | services/orchestrator/internal/provider/registry.go:68-80 | A toggle gives the first entry of that name on the rail the flag asked for, and changes nothing else. |
| Registry.RegistrationComesLast | services/orchestrator/internal/provider/registry.go:34-37 | A registration comes last on its rail, and changes nothing else. |
| Registry.SharedNameIsAmbiguous | services/orchestrator/internal/provider/registry.go:85-94 | Without unique names two walks can return different clients. |
| Registry.Directory.RegisterWithMeta | services/orchestrator/internal/provider/registry.go:34-37 | Appends to the rail. |
| Registry.Directory.GetProviders | services/orchestrator/internal/provider/registry.go:51-64 | The active entries of the rail, in order. |
| Registry.Directory.SetActive | services/orchestrator/internal/provider/registry.go:68-80 | Toggles the first entry of that name on the rail and says whether there was one. |
| Registry.Directory.GetByProvider | services/orchestrator/internal/provider/registry.go:85-94 | The first entry of that name of some rail; none only when there is none. |
| WebhookDedup.ErasingRepeatsChangesNothing | services/webhook/internal/http/stripe_handler.go:97-122 | Within one time to live, any sequence of deliveries, interleaved with anything, with forwards and Redis requests that fail, leaves the orchestrator exactly as the sequence with the deliveries of repeated event ids erased. |
| WebhookDedup.ErasureSimulates | services/webhook/internal/http/stripe_handler.go:97-122 | The two runs agree in everything, the Redis keys and the other deliveries included, but for the answers of the erased deliveries, which are all answered. |
| WebhookDedup.ErasesRepeatsOnly | services/webhook/internal/dedup/dedup.go:42-61 | The erased sequence has no repeated event, and keeps every other delivery and every event id. |
| WebhookDedup.ForwardedOnce | services/webhook/internal/dedup/dedup.go:42-61 | A delivery is forwarded at most once, and two forwarded deliveries of one event were checked at least the time to live apart. |
| WebhookDedup.ForwardsApart | services/webhook/internal/http/stripe_handler.go:97-111 | Two forwards of one event are at least the time to live apart, less the delay of the first after its check. |
| WebhookDedup.SentApartIff | services/webhook/internal/http/stripe_handler.go:97-111 | If forwards may be delayed by so much, all forwards of an event are the time to live apart in every run if and only if the delay is none at all. |
| WebhookDedup.LateForwardRuns | services/webhook/internal/http/stripe_handler.go:97-111 | The run that shows it: checks the time to live apart, the first forward late, nothing in between. |
| WebhookDedup.RedeliveryIsAcknowledged | services/webhook/internal/http/stripe_handler.go:104-108 | A redelivery checked within the time to live is answered 200 and changes nothing else, whatever became of the admitted delivery. |
| WebhookDedup.FirstCheckDecides | services/webhook/internal/http/stripe_handler.go:97-115 | Within one time to live an event reaches the orchestrator if and only if the reply to the first check of it that ran arrived, and that very delivery was forwarded. |
| WebhookDedup.CheckTells | services/webhook/internal/dedup/dedup.go:42-61 | A check is answered 500 when Redis does not reply and 200 when the key was there, and is admitted otherwise. |
| WebhookDedup.ReplyTells | services/webhook/internal/http/stripe_handler.go:111-121 | A delivery whose RPC has been answered is answered 200 exactly when the RPC succeeded and its reply arrived, and 500 otherwise. |
| WebhookDedup.AcknowledgedMeansApplied | services/webhook/internal/http/stripe_handler.go:111-121 | In every run an admitted delivery that was answered 200 has an RPC that was answered with success. |
| WebhookDedup.ForwardsWhatWasReceived | services/webhook/internal/http/stripe_handler.go:125-134 | What is forwarded for a delivery is its own event: external id, what the UUID parser makes of it, and type. |
| WebhookDedup.FailedForwardIsFinal | services/webhook/internal/http/stripe_handler.go:111-115 | Once an admitted delivery has been answered without its event reaching the orchestrator, no delivery of that event checked within the time to live is forwarded, in any continuation. |
| WebhookDedup.LostReplyIsStuck | services/webhook/internal/dedup/dedup.go:46-49 | A SETNX that sets the key while its reply is lost leaves the key without an expiry that anyone will set. |
| WebhookDedup.LostExpireIsStuck | services/webhook/internal/dedup/dedup.go:56-57 | So does a lost EXPIRE. |
| WebhookDedup.FailedForwardLosesEvent | services/webhook/internal/http/stripe_handler.go:97-115 | Such a run: the event never reaches the orchestrator, and its redelivery is answered 200. |
| WebhookDedup.LostExpiryIsForever | services/webhook/internal/dedup/dedup.go:56-57 | While a key has no expiry and nobody is about to set one, no delivery of that event is admitted, in any continuation, however long. |
| StripeHandler.Handler.ServeHTTP | services/webhook/internal/http/stripe_handler.go:97-122 | The method is a run of one delivery of the dedup protocol, interleaved with any steps of other deliveries and calls, also while its RPC is under way, and returns the status that delivery is answered with. |
| StripeHandler.Handler.IsProcessed | services/webhook/internal/dedup/dedup.go:42-61 | SETNX and EXPIRE as the protocol has them; an error, a duplicate and a new event lead to 500, to 200 and on to the forward. |
| StripeHandler.TtlIsWholeSeconds | services/webhook/internal/dedup/dedup.go:30-38 | 24 hours when nothing is configured, and otherwise the whole seconds of what is. |
| StripeHandler.Handler.ForwardToOrchestrator | services/webhook/internal/http/stripe_handler.go:125-139 | The RPC is begun at most once, and success is returned only when the RPC was answered with success; the client may give up on it while it is still running. |

## Left out

- PayoutService.Server.Others: stands for every other call; the calls of a run are interleaved by this method and
  not by threads.
- SuccessTracker.Tracker.GetSuccessRate: exact quotients, not rounded 64-bit floats; two different ratios that
  round to the same float would compare as equal in the program.
- RateLimit.RateBound: for calls without Redis faults. When HMGET or HMSET fails the call is an error and the middleware
  lets the request through, which nothing bounds; an EXPIRE that fails is no error, and RateLimitFaults has the bound
  for that. Arithmetic is exact except for the rounding to two decimals. A call is one step; overlapping calls are in
  RateLimitOverlap.
- ExactRate.PlainBoundIff: for whole numbers of tokens a second within its range. For other rates
  ExactRate.NoGainNoExcess, ExactRate.GainsBreakBound and ExactRate.FractionBreaksBound bound the condition from both
  sides: whether the bound fails where some amounts can gain and others cannot depends on which amounts a run can
  reach.
- SortStability.UnrankedKeepOrderIff: the second half takes providers that differ from one another, since equal
  entries can change places unnoticed.
- Canonical.TextReadsBack: for strings of Unicode characters; the byte escapes that quoting uses for invalid
  UTF-8, which decoded JSON never contains, are not part of this model.
- A payout service without an orchestrator: the branch of sendPayoutWithOrchestrator for it is not modelled.
- A provider that acted on a send and returned an error nevertheless: nothing here counts such an action.
- SHA-256 itself, UUID parsing, Stripe's signature check and event parser, and what providers answer: parameters.
- The Redis key prefix of the dedup service, which is the same for all events.
- 64-bit overflow of amounts, counters, weights and timestamps.
- The GetPayout RPC and the API's read and cancel handlers: plain reads and pass-through.
- Logging, metrics, request ids, configuration, health endpoints and generated transport code.
- The deprecated in-process counters of the limiter.
