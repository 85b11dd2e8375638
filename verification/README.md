# Verification of the Nearby API's state machines and codec

A Dafny model of the Go service under `apps/api`: its small protocols over SQL tables and a
key store with lifetimes, and the byte format of the sponsor's multisignature. Each file is
one module.

- **Deposit events.** `DepositModel` has the tables, the upsert and the processor as a state
  machine whose steps are a delivery, a fetched batch, or one event of a batch under any
  store failure. `DepositDrain` shows that batching and bad events are invisible when nothing
  fails, `DepositOrder` exactly when the order within a second does not matter,
  `DepositProgress` how fast the queue drains and when it stalls, `DepositRuns` which inboxes
  can be drained and in which orders, `DepositProcessors` what several processors at once
  keep, `DepositStore` the methods and the loop as they are written, proved against that
  machine. `DepositLimits` holds concrete runs that fall outside the conditions.
  `WebhookInbox` is the delivery handler.
- **Multisignature.** `Uleb128` and `MultisigCodec` have the loops that write bytes and a
  parser as their specification. `Quorum` is the aggregator; `Sponsor` joins aggregator,
  bitmap and envelope with a verifier that walks the set bits.
- **Payment intents.** `PaymentModel` holds tables and checks; `PaymentSerial` has one call
  at a time, `PaymentInterleaved` every store call as its own step, and `PaymentOrderly` says
  exactly when the serial lifecycle survives interleaving.
- **Sessions and logins.** `Sessions` is token rotation and revocation, `SingleUse` how often
  one refresh token works, `Identities` the identity and salt part of a login, all at
  store-call granularity. `Clock` and `ReplayWindow` are the timestamp window and everything
  that claims a key in Redis.
- **Migrations.** `FileOrder` and `Migrations` are the runner with faults and crashes, run
  any number of times, also at once. `SqlTables` interprets the statements that migrations
  007 and 008 use, and `DepositSchema` proves them a do and undo pair.
- **Leaf names.** `LeafNames` gives the regular expression a meaning and compares it with
  the labels it is for.

`Wrappers` holds the shared result shapes. A write answers `Done`, `Refused` (no effect) or
`Lost` (it took effect although its caller was told otherwise).

Signing, verification, JSON, the hash of an address, the chain and the signer set's answers
are arbitrary functions or parameters. Stored token hashes and name hashes are taken to be
free of collisions. Clocks, drawn ids and drawn salts are parameters; fresh ids come from a
counter.

## Where the code does not do what one might expect

Each of these is proved, with the exact condition where there is one.

- The bitmap of a sponsored transaction always names the lowest positions. If the
  signature of an early operator does not verify and enough later ones do, the quorum is met
  and the envelope is then rejected by a verifier that reads the bitmap
  (`Sponsor.AcceptedIffNoGap`, `Sponsor.GapIsRejected`). Operators always sign, so this takes
  a configured key whose public half belongs to another seed, which
  apps/api/internal/avs/operator.go:36-50 does not check.
- An event with fifty unparsable events no newer than it may never be processed, and with
  fifty strictly older ones never is (`DepositProgress.ProcessedIff`,
  `DepositProgress.BlockedForever`, `DepositProgress.OldBadEventsStarve`), so an inbox with
  the latter cannot be drained (`DepositRuns.DrainableIff`).
- `created_at` counts seconds and the query leaves the rest of the order open; it matters
  exactly when events of one second disagree in the way `DepositOrder.TiesHarmless` says. A
  failed mark lets an older event set the status back, exactly when something processed in
  between has moved its deposit on (`DepositModel.ReprocessInRun`, `DepositLimits`).
- Every running API process has a ticker of its own (apps/api/cmd/api/main.go:166), and nothing
  keeps two of them from fetching one event. The second upsert of it can set the status back
  with no failure at all (`DepositLimits.TwoProcessorsRevertStatus`), under the same condition
  (`DepositProcessors.SecondUpsertIff`).
- The guard of a status change is read and not repeated in the UPDATE, and the errors of the
  status and payment writes of a submit are ignored. A cancel can overwrite a submit, two
  submits can both execute, and a single refused mark lets a later submit execute again.
  The exact condition is `PaymentOrderly.Safe`, by `PaymentOrderly.UnsafeIffCanBreak`.
- An idempotency key that is taken is answered with its intent without comparing users
  (`PaymentSerial.Service.CreateIntent`).
- `SessionRefreshResponse` (apps/api/internal/domain/auth/types.go:151-154) has no refresh
  token although TEST_GUIDE.md:77 promises one. The model follows the code: the rotated
  refresh token is told to nobody, so after a refresh no client can refresh the session again
  (`Sessions.RefreshIsOneShot`).
- A refresh token is single-use, as TEST_GUIDE.md:79 has it, once a refresh has taken effect
  (`SingleUse.SpentIsRefused`), but not while two refreshes overlap: it works twice exactly if
  it is read again before the first has written (`SingleUse.OverlapsIffCanSpendTwice`,
  `SingleUse.RefreshRace`).
- Logins of one identity can answer different salts, exactly if one misses the salt and draws
  its own while another is about to insert a different one (`Identities.RacesIffCanSplit`,
  `Identities.SaltRace`).
- The nonce lives 600 seconds and the window compares whole seconds, which leaves one second
  for a replay (`ReplayWindow.BothPassIff`). A key is taken to be gone at the instant its
  lifetime ends.
- `InWindow` alone takes a difference of 2^63 for a close one; the callers' division by 1000
  keeps it away (`Clock.WithinIsDistance`, `Clock.MillisecondsNeverOverflow`).

## Model

| member | source | states |
|---|---|---|
| Uleb128.AppendUleb128 | apps/api/internal/sui/multisig.go:65-78 | the loop appends the canonical LEB128 form to an untouched buffer and takes 1 to 10 bytes for any 64-bit value |
| Uleb128.RoundTrip | apps/api/internal/sui/multisig.go:65-78 | decoding an encoding followed by any bytes gives back the value and exactly those bytes |
| Uleb128.DecodeOnlyEncodings | apps/api/internal/sui/multisig.go:65-78 | whatever the decoder accepts is an encoding followed by the rest it returns |
| Uleb128.PrefixFree | apps/api/internal/sui/multisig.go:65-78 | no encoding is a proper prefix of another |
| Uleb128.EncodeIsForm | apps/api/internal/sui/multisig.go:65-78 | the encoding is a LEB128 form (section 7.6 of the DWARF Version 5 standard) of its value |
| Uleb128.EncodeIsShortest | apps/api/internal/sui/multisig.go:65-78 | no LEB128 form of the value, padded or not, is shorter |
| Uleb128.EncodeLength | apps/api/internal/sui/multisig.go:65-78 | a value below 128 to the power k takes 1 to k bytes |
| MultisigCodec.CombineMultisigSignature | apps/api/internal/sui/multisig.go:30-51 | the loops write the envelope: count, flagged signatures, bitmap, count, flagged weighted keys, threshold |
| MultisigCodec.AppendKeyBlock | apps/api/internal/sui/multisig.go:41-47 | the loop over the keys appends count, records and little-endian threshold to an untouched payload |
| MultisigCodec.EnvelopeRoundTrip | apps/api/internal/sui/multisig.go:30-51 | the parser recovers signatures, bitmap, keys and threshold of every envelope of 64-byte signatures and 32-byte keys |
| MultisigCodec.EnvelopeInjective | apps/api/internal/sui/multisig.go:30-51 | two multisignatures with one envelope are equal |
| MultisigCodec.ParseOnlyEnvelopes | apps/api/internal/sui/multisig.go:30-51 | the parser accepts nothing that the code could not have written |
| MultisigCodec.ParsesExactlyEnvelopes | apps/api/internal/sui/multisig.go:30-51 | the parser accepts a byte string if and only if it is an envelope |
| MultisigCodec.EnvelopeLayout | apps/api/internal/sui/multisig.go:30-51 | which byte stands where: 3, count, flag 0 and signature each, bitmap low byte first, count, flag 0, key and weight 1 each, threshold low byte first |
| MultisigCodec.AddressLayout | apps/api/internal/sui/multisig.go:13-28 | which byte of the preimage stands where: 3 and the key block |
| MultisigCodec.BuildMultisigAddress | apps/api/internal/sui/multisig.go:13-28 | the address is 0x and the hex form of the hash of flag and key block |
| MultisigCodec.AddressPreimageInjective | apps/api/internal/sui/multisig.go:13-28 | what is hashed determines keys, their order and the threshold |
| MultisigCodec.AddressDeterminesSigners | apps/api/internal/sui/multisig.go:13-28 | under a hash without collisions an address belongs to one signer set |
| MultisigCodec.HexEncode | apps/api/internal/sui/multisig.go:86-94 | the index loop fills two digits a byte, the high half first, each the lower-case hex digit of its value |
| MultisigCodec.HexInjective | apps/api/internal/sui/multisig.go:86-94 | two byte strings with one hex form are equal |
| Quorum.Aggregator.Authorize | apps/api/internal/avs/aggregator.go:25-68 | exactly the four actions are allowed; over the literal payload and the bytes of the domain before its JSON, the answer is one verifying signature of each of the first operators up to the threshold, or that the quorum is not met |
| Quorum.Aggregator.Collect | apps/api/internal/avs/aggregator.go:48-61 | the loop with break and continue collects the specified signatures |
| Quorum.Aggregator.PublicKeys | apps/api/internal/avs/aggregator.go:74-80 | one key for each operator, in list order |
| Quorum.SignersExact | apps/api/internal/avs/aggregator.go:49-61 | the chosen positions are strictly increasing and are exactly those of the operators that sign validly |
| Quorum.SignersCount | apps/api/internal/avs/aggregator.go:49-61 | their number is the number of operators that sign validly |
| Quorum.QuorumExact | apps/api/internal/avs/aggregator.go:48-67 | success if and only if at least threshold operators sign validly, and then one signature each of precisely the first such operators, all over one signing data |
| Quorum.AuthorizedIs | apps/api/internal/avs/aggregator.go:48-67 | the same in terms of signing and verification alone |
| Quorum.SignedIs | apps/api/internal/avs/aggregator.go:46-46 | the signing data is, byte by byte, the characters of the domain and then the JSON |
| Sponsor.OrNextBit | apps/api/internal/sui/sponsor.go:48-52 | or-ing the next bit into a mask of low bits gives the next mask, by bitwise definition |
| Sponsor.SetNextBit | apps/api/internal/sui/sponsor.go:48-52 | one turn of the bitmap loop on 16 bits, shifts beyond the width included |
| Sponsor.SetBitsOfMask | apps/api/internal/sui/sponsor.go:48-52 | the set bits of 2^n-1 are the positions 0 to n-1 |
| Sponsor.Service.constructor | apps/api/internal/sui/sponsor.go:19-29 | the threshold kept, for the address too, is the low 16 bits of the quorum threshold; the keys are the operators keys |
| Sponsor.Service.Combine | apps/api/internal/sui/sponsor.go:47-59 | the loop gives the envelope of all signatures with the lowest bits set, one for each |
| Sponsor.Service.SubmitSponsoredTransaction | apps/api/internal/sui/sponsor.go:35-67 | nonce, authorize, combine, execute: which error for which failure, and what is sent to the chain for the first 32 bytes |
| Sponsor.SigningDataIs | apps/api/internal/avs/aggregator.go:30-46 | what operators sign for a sponsorship is the JSON of the payload with the hash of the first 32 bytes as payload hash, the drawn nonce, both clock readings and the fixed texts, and there is none exactly if that payload does not marshal |
| Sponsor.SponsorMultisigExact | apps/api/internal/sui/sponsor.go:47-59 | the message sent has each signature in order, one low bit for each up to sixteen, all keys, and the low 16 bits of the threshold |
| Sponsor.SignersAreBitsIffNoGap | apps/api/internal/sui/sponsor.go:47-59 | the bitmap is 2^t-1 (t up to 16) and names the actual signers if and only if the first t operators all signed validly |
| Sponsor.AcceptsIff | apps/api/internal/sui/sponsor.go:47-59 | a verifier that reads the envelope and walks the set bits accepts if and only if the j-th signature verifies under the j-th key |
| Sponsor.AcceptedWithoutGap | apps/api/internal/sui/sponsor.go:47-59 | when the first t operators sign validly, the sponsored envelope is accepted end to end |
| Sponsor.AcceptedIffNoGap | apps/api/internal/sui/sponsor.go:47-59 | with unforgeable signatures that is the only accepted case |
| Sponsor.SubmitToVerifier | apps/api/internal/sui/sponsor.go:35-67 | against a chain that reads the envelope as that verifier does, a transaction goes through if and only if the first operators all sign, and is sent and rejected if and only if the quorum is met otherwise |
| Sponsor.GapIsRejected | apps/api/internal/sui/sponsor.go:35-67 | a service with five operators and threshold three, the key of the first configured with a public half of another seed so that its signatures do not verify, meets its quorum, sends the envelope and is rejected |
| DepositModel.LastHashExact | apps/api/internal/domain/deposit/store.go:144-158 | the merged hash is the newest non-empty one, and empty only if none was ever given |
| DepositModel.TypeOf | apps/api/internal/domain/deposit/processor.go:57-68 | which event type texts are processed, the kyc_link. prefix among them |
| DepositModel.ParsableExact | apps/api/internal/domain/deposit/processor.go:71-89 | only the payload of the own event type has to parse |
| DepositModel.WriteExact | apps/api/internal/domain/deposit/processor.go:70-166 | the row that an event asks for, field by field, and when it asks for one |
| DepositModel.ReplayClosedForm | apps/api/internal/domain/deposit/store.go:144-158 | a fold of upserts has, under each key, everything from the first row, the status of the last and the newest hash |
| DepositModel.EveryRunHasClosedForm | apps/api/internal/domain/deposit/processor.go:39-166 | under any faults, repeats, restarts and new routes, each deposit is that merge of its own processed events and its user is the user of its route |
| DepositModel.HashNeverCleared | apps/api/internal/domain/deposit/store.go:144-158 | along any run a row keeps all columns but status and hash, and a set hash never becomes null |
| DepositModel.RunInv | apps/api/internal/domain/deposit/processor.go:39-68 | in every reachable state the table is the replay of the log of processed events |
| DepositModel.ReprocessInvisibleIff | apps/api/internal/domain/deposit/processor.go:39-54 | processing an event again changes nothing if and only if nothing processed since has given its deposit another status or another hash |
| DepositModel.ReprocessInRun | apps/api/internal/domain/deposit/processor.go:46-52 | the same of any run, where the event comes up again after a failed mark or a restart; and if its route was added in between, if and only if its deposit was there already with that status and hash |
| DepositProcessors.UndisturbedTurn | apps/api/internal/domain/deposit/processor.go:45-53 | the store calls of one processor on one event with nothing in between are one step of the machine with one batch |
| DepositProcessors.SharedClosedForm | apps/api/internal/domain/deposit/processor.go:39-166 | with any number of processors whose store calls interleave, under any faults, each deposit is still the merge of the writes that were done under its key, with the user of its route |
| DepositProcessors.SharedHashNeverCleared | apps/api/internal/domain/deposit/store.go:144-158 | and along any such run a row keeps all columns but status and hash, and a set hash never becomes null |
| DepositProcessors.SecondUpsertIff | apps/api/internal/domain/deposit/processor.go:39-54 | an upsert of an event that any processor has done before changes nothing if and only if no entry since has given its deposit another status or another hash, or, if its route is new, if its deposit was there with both |
| DepositDrain.CalmRunInOrder | apps/api/internal/domain/deposit/processor.go:39-54 | without failures, events are processed once each and oldest first although batches skip bad events |
| DepositDrain.DrainIsOneFold | apps/api/internal/domain/deposit/processor.go:39-68 | batches of fifty and bad events are invisible: deposits are one fold over the processed events in created_at order, and once drained over exactly the parsable ones |
| DepositOrder.OrderIrrelevantIff | apps/api/internal/domain/deposit/store.go:95-118 | all orders consistent with created_at leave the same row under a key if and only if the writers of its oldest second agree on the fixed columns, of its newest on the status, and of the newest with a hash on the hash |
| DepositOrder.DrainsAgree | apps/api/internal/domain/deposit/store.go:95-118 | two runs that drain the same events, however interleaved, agree on every key whose ties are harmless in that sense |
| DepositRuns.OrderIsARun | apps/api/internal/domain/deposit/processor.go:39-54 | every such order is the order in which some run of deliveries and ticks drains the events, malformed rows among them, unless fifty malformed ones are of earlier seconds than a good one |
| DepositRuns.DrainableIff | apps/api/internal/domain/deposit/processor.go:39-54 | some run of deliveries and ticks drains an inbox if and only if no good event of it has fifty malformed ones of earlier seconds |
| DepositRuns.RunsAgreeIff | apps/api/internal/domain/deposit/processor.go:39-54 | over runs as well: all drains of the same events agree on a key if and only if its ties are harmless or the inbox cannot be drained at all |
| DepositProgress.TickAdvances | apps/api/internal/domain/deposit/processor.go:39-54 | one tick processes exactly the parsable events of its batch and touches no other row |
| DepositProgress.TickProgress | apps/api/internal/domain/deposit/processor.go:39-54 | with P bad and G good events a tick removes at least min(50-P, G) good ones and no bad one |
| DepositProgress.EventBound | apps/api/internal/domain/deposit/processor.go:39-54 | an event with B below 50 bad and G good rows no newer than it is processed within ceil(G/(50-B)) ticks |
| DepositProgress.ProcessedIff | apps/api/internal/domain/deposit/processor.go:39-54 | every long enough sequence of ticks processes an event if and only if fewer than fifty bad rows are no newer than it |
| DepositProgress.DrainBound | apps/api/internal/domain/deposit/processor.go:39-54 | with P below 50 and no deliveries, ceil(G/(50-P)) ticks process every good event, where P counts only the bad rows no newer than some good one |
| DepositProgress.BlockedForever | apps/api/internal/domain/deposit/processor.go:39-54 | an event with fifty malformed rows of an earlier second before it is never processed, whatever is delivered, fails or restarts |
| DepositProgress.BatchExists | apps/api/internal/domain/deposit/store.go:95-118 | the query always has an answer of the right size and order |
| DepositProgress.StallsIff | apps/api/internal/domain/deposit/store.go:95-118 | a tick can come up with bad events only if and only if nothing good waits or fifty bad events are no newer than every good one |
| DepositProgress.OldBadEventsStarve | apps/api/internal/domain/deposit/processor.go:39-54 | fifty malformed rows older than every good one stop the queue for good: under any faults, restarts and later deliveries no row is marked and the deposits stay as they are |
| DepositStore.Store.InsertWebhookEvent | apps/api/internal/domain/deposit/store.go:77-84 | inserts unless the id or the provider event id is taken or the write fails, and what its caller is told |
| DepositStore.Store.WebhookEventExists | apps/api/internal/domain/deposit/store.go:86-93 | true if and only if some row has the provider event id |
| DepositStore.Store.GetUnprocessedWebhookEvents | apps/api/internal/domain/deposit/store.go:95-118 | the rows returned are distinct, waiting, oldest first, and as many as the limit allows |
| DepositStore.Store.MarkWebhookEventProcessed | apps/api/internal/domain/deposit/store.go:120-126 | sets one flag, whatever its caller is told |
| DepositStore.Store.UpsertDeposit | apps/api/internal/domain/deposit/store.go:144-158 | insert, or update of status and non-null hash only |
| DepositStore.Processor.Process | apps/api/internal/domain/deposit/processor.go:56-69 | by event type and in payload fields: what is an error, what is ignored, which row is inserted or updated and with what, and what is logged |
| DepositStore.Processor.ProcessVirtualAccountActivity | apps/api/internal/domain/deposit/processor.go:70-118 | the branches of one virtual account event, in the fields of its payload |
| DepositStore.Processor.ProcessLiquidationDrain | apps/api/internal/domain/deposit/processor.go:120-166 | the branches of one drain, in the fields of its payload |
| DepositStore.Processor.ProcessAndMark | apps/api/internal/domain/deposit/processor.go:45-53 | the body of the loop is one step of the state machine, mark failures included |
| DepositStore.Processor.ProcessAll | apps/api/internal/domain/deposit/processor.go:39-54 | the loop over a fetched batch is a run of the state machine |
| DepositLimits.SameSecondIsAmbiguous | apps/api/internal/domain/deposit/store.go:95-101 | from an empty inbox, two runs of the same two deliveries of one second end with different statuses |
| DepositLimits.FailedMarkRevertsStatus | apps/api/internal/domain/deposit/processor.go:50-52 | from an empty inbox, a run with one failed mark sets the status back to that of the older event |
| DepositLimits.FiftyStop | apps/api/internal/domain/deposit/processor.go:39-54 | from an empty inbox, fifty malformed deliveries stop the queue, and a good event of the next second is blocked |
| DepositLimits.FiftyStarve | apps/api/internal/domain/deposit/processor.go:39-54 | whatever then is delivered, fails or restarts, that event is never processed |
| DepositLimits.TwoProcessorsRevertStatus | apps/api/internal/domain/deposit/processor.go:39-54 | two processors that both fetch an event can set the status back to it although no store call fails and every event is processed |
| WebhookInbox.WebhookHandler.HandleBridgeWebhook | apps/api/internal/domain/deposit/webhook.go:41-97 | which answer for which delivery: unreadable, not authentic, malformed, known, lost or stored, with the row that is stored; and it is what the step machine does when nothing comes in between |
| WebhookInbox.RunInv | apps/api/internal/domain/deposit/webhook.go:63-96 | in every interleaving provider event ids are unique and every 200 is backed by a row |
| WebhookInbox.AnsweredMeansStored | apps/api/internal/domain/deposit/webhook.go:68-96 | a delivery answered 200 was authentic and well formed and has exactly one row in every later state |
| WebhookInbox.LoserRetries | apps/api/internal/domain/deposit/webhook.go:68-96 | a delivery that loses the insert race is answered 500, and its retry 200 without a new row |
| WebhookInbox.UniqueRow | apps/api/internal/db/migrations/002_deposit.sql:28-35 | a provider event id has one row if it is stored at all |
| PaymentSerial.Service.CreateIntent | apps/api/internal/domain/payment/service.go:38-92 | exactly when it succeeds and the refusals in order; the stored intent for a known key whoever asks, or one new pending intent with the terms of the request; when the answer is the caller's own |
| PaymentSerial.KeysAreUnique | apps/api/internal/db/migrations/003_payment.sql:4-4 | in every serial run an idempotency key belongs to one intent |
| PaymentSerial.Service.SubmitIntent | apps/api/internal/domain/payment/service.go:115-171 | which error or answer for which state, and the exact new tables and executions |
| PaymentSerial.Service.CancelIntent | apps/api/internal/domain/payment/service.go:173-185 | refusals and the exact new tables |
| PaymentSerial.Service.UpdateIntentStatus | apps/api/internal/domain/payment/store.go:90-96 | sets status and digest whatever the old status is |
| PaymentSerial.Service.CreatePayment | apps/api/internal/domain/payment/store.go:98-107 | inserts unless the intent already has a payment |
| PaymentSerial.RunInv | apps/api/internal/domain/payment/service.go:38-185 | the lifecycle invariant in every serial run |
| PaymentSerial.Lifecycle | apps/api/internal/domain/payment/service.go:115-185 | an intent is handed to the chain at most once, has a payment exactly when submitted, which then carries its digest and its terms; otherwise it has no digest; pending and cancelled intents were never executed |
| PaymentSerial.SettledForever | apps/api/internal/domain/payment/service.go:115-185 | an intent that left pending never changes and is never executed again |
| PaymentInterleaved.RunKeeps | apps/api/internal/domain/payment/service.go:38-185 | whatever interleaves and fails: one intent per idempotency key, one payment per intent with its terms, terms never change, none returns to pending, a sponsor exactly in sponsored mode |
| PaymentInterleaved.EmptyIsGood | apps/api/internal/db/migrations/003_payment.sql:1-32 | the invariant of the interleaved runs holds of empty tables |
| PaymentInterleaved.UndisturbedSubmit | apps/api/internal/domain/payment/service.go:115-171 | the steps of a submit with nothing in between are the serial submit |
| PaymentInterleaved.UndisturbedCreate | apps/api/internal/domain/payment/service.go:38-92 | the steps of a create with nothing in between are the serial create |
| PaymentInterleaved.UndisturbedCancel | apps/api/internal/domain/payment/service.go:173-185 | the steps of a cancel with nothing in between are the serial cancel |
| PaymentInterleaved.FailedRead | apps/api/internal/domain/payment/service.go:38-185 | a store read that fails ends its call and changes nothing |
| PaymentInterleaved.FailedWrite | apps/api/internal/domain/payment/service.go:80-185 | what a refused write and one with a lost reply change, and that only a submit goes on |
| PaymentInterleaved.BothCanRead | apps/api/internal/domain/payment/service.go:116-128 | any live pending intent can be read by two calls before either goes on |
| PaymentInterleaved.CancelOverwritesSubmit | apps/api/internal/domain/payment/store.go:90-96 | such a cancel then leaves the intent cancelled, executed and paid |
| PaymentInterleaved.TwoSubmitsExecuteTwice | apps/api/internal/domain/payment/service.go:123-142 | two such submits both reach the chain |
| PaymentOrderly.OrderlyLifecycle | apps/api/internal/domain/payment/service.go:115-185 | the whole serial lifecycle of an intent survives every interleaved run in which no submit is admitted while another call is between its read and last write on it, no cancel while a submit is, and the writes of submits take effect |
| PaymentOrderly.UnsafeBreaks | apps/api/internal/domain/payment/service.go:115-185 | the other half: from the first step that does otherwise, every run can go on, with safe steps only, to execute the intent twice or to leave it in a state that no serial run reaches |
| PaymentOrderly.UnsafeIffCanBreak | apps/api/internal/domain/payment/service.go:115-185 | both halves as one equivalence, step by step |
| PaymentOrderly.RefusedMarkReexecutes | apps/api/internal/domain/payment/service.go:149-150 | with nothing in between: a submit whose ignored mark is refused leaves the intent pending, and a second submit executes it again |
| Sessions.Service.CreateSession | apps/api/internal/domain/auth/store.go:123-134 | inserts unless id or a hash is taken, and what its caller is told |
| Sessions.Service.UpdateSessionTokens | apps/api/internal/domain/auth/store.go:168-175 | replaces both hashes and both lifetimes of one session and keeps its status |
| Sessions.Service.RevokeSession | apps/api/internal/domain/auth/store.go:177-180 | makes one session revoked, nothing else, and says so |
| Sessions.Service.RefreshSession | apps/api/internal/domain/auth/service.go:283-324 | the refusals in order, and otherwise rotated tokens with only the access token handed out |
| Sessions.Service.RotateTokens | apps/api/internal/domain/auth/service.go:300-323 | both tokens are new and live 15 minutes and 30 days, and only the access token is handed out |
| Sessions.Service.VerifyAccessToken | apps/api/internal/domain/auth/service.go:493-538 | the refusals in order, and acceptance of the one session with that hash |
| Sessions.RunInv | apps/api/internal/db/migrations/001_auth.sql:47-61 | in every interleaving the hashes of all sessions are distinct, also across the two columns, and drawn tokens are fresh |
| Sessions.OneSessionPerToken | apps/api/internal/domain/auth/service.go:283-324 | no token resolves to two sessions in any reachable state |
| Sessions.LoginStores | apps/api/internal/domain/auth/service.go:249-269 | a login that takes effect stores an active session under both its tokens, for 15 minutes and 30 days, and nothing else |
| Sessions.RefreshReplaces | apps/api/internal/domain/auth/service.go:300-318 | a refresh that takes effect, even with a lost reply, replaces both tokens of its session, renews both lifetimes and leaves user, status and other sessions alone |
| Sessions.ReplacedForever | apps/api/internal/domain/auth/service.go:283-324 | a replaced token is stored nowhere in any later state |
| Sessions.ReplacedIsDenied | apps/api/internal/domain/auth/service.go:283-291 | reading a replaced token as access or refresh token is refused and changes nothing |
| SingleUse.SpentIsRefused | apps/api/internal/domain/auth/service.go:283-318 | once one refresh of a token has taken effect, in any run, every later read of it is refused and changes nothing |
| SingleUse.SpentOnce | apps/api/internal/domain/auth/service.go:283-318 | in every interleaved run in which no read of a token is admitted while another refresh that read it is about to write, each token is spent by one refresh at most |
| SingleUse.OverlapSpendsTwice | apps/api/internal/domain/auth/service.go:283-318 | the other half: after any run, such a read can go on to two refreshes of the token that both take effect and both answer |
| SingleUse.OverlapsIffCanSpendTwice | apps/api/internal/domain/auth/service.go:283-318 | both halves as one equivalence, step by step |
| SingleUse.RefreshRace | apps/api/internal/domain/auth/service.go:283-324 | from empty tables: a login, two refreshes that read its token before either writes, both succeed, and the access token told to the first is dead |
| Sessions.RevokedForever | apps/api/internal/domain/auth/service.go:326-328 | a revoked session stays revoked, also under a refresh that read it before and writes afterwards |
| Sessions.RevokedIsDenied | apps/api/internal/domain/auth/service.go:292-294 | no read accepts a revoked session or starts to refresh it |
| Sessions.RevocationIsFinal | apps/api/internal/domain/auth/service.go:326-328 | once a revocation has taken effect, in any run, no later read accepts the session or starts to refresh it |
| Sessions.ReadsExact | apps/api/internal/domain/auth/service.go:283-299 | a read accepts or starts to refresh a session exactly if it is not revoked and its lifetime is not over |
| Sessions.RefreshIsOneShot | apps/api/internal/domain/auth/service.go:300-323 | after a refresh no token that any client was ever told resolves to that session as a refresh token |
| Identities.AuthService.CreateOAuthIdentity | apps/api/internal/domain/auth/store.go:53-60 | inserts unless the identity is taken |
| Identities.AuthService.CreateUser | apps/api/internal/domain/auth/store.go:20-26 | inserts unless the user id is taken |
| Identities.AuthService.CreateZkLoginSalt | apps/api/internal/domain/auth/store.go:200-208 | inserts, or does nothing and reports success when the key is taken |
| Identities.AuthService.OAuthComplete | apps/api/internal/domain/auth/service.go:135-198 | exactly when the identity and salt part of a login succeeds, inactive users refused, with which user and salt and what is stored; and it is six steps of the machine |
| Identities.UndisturbedLogin | apps/api/internal/domain/auth/service.go:135-198 | a login with nothing in between answers what is stored, and a failed one spoils nothing |
| Identities.RunInv | apps/api/internal/db/migrations/001_auth.sql:8-19 | identity and salt rows are written once, belong to one user, and never change in any interleaving |
| Identities.OneUserPerIdentity | apps/api/internal/domain/auth/service.go:135-175 | all completed logins of an identity have its user, whatever interleaves |
| Identities.OneSaltPerIdentity | apps/api/internal/domain/auth/service.go:177-198 | in every interleaved run in which no login misses the salt while another of that identity is about to insert a different one, all completed logins have the one stored user and salt, for ever |
| Identities.RaceSplits | apps/api/internal/domain/auth/service.go:177-198 | the other half: after any run, such a miss can go on to two completed logins of one identity with different salts |
| Identities.RacesIffCanSplit | apps/api/internal/domain/auth/service.go:177-198 | both halves as one equivalence, step by step |
| Identities.SaltRace | apps/api/internal/domain/auth/service.go:177-198 | from empty tables, two first logins that both miss the salt complete with two different salts, one of them stored nowhere |
| Clock.InWindow | apps/api/internal/utils/time.go:17-24 | the subtraction and sign flip on wrapping 64-bit integers; within range it is the distance or a difference of 2^63 |
| Clock.WithinIsDistance | apps/api/internal/utils/time.go:17-24 | for clocks up to 2^62 the check is the distance, except that a difference of 2^63 counts as close |
| Clock.MillisecondsNeverOverflow | apps/api/internal/domain/auth/middleware.go:85-88 | seconds made from any int64 milliseconds never overflow the difference, and the check is exactly the distance |
| ReplayWindow.Middleware.VerifyHighFidelity | apps/api/internal/domain/auth/middleware.go:72-112 | passed or which refusal, each under its own condition, and the key claimed for 600 seconds |
| ReplayWindow.Middleware.Idempotency | apps/api/internal/middleware/idempotency.go:15-41 | passed or which refusal, each under its own condition, and the key claimed for 24 hours |
| ReplayWindow.NonceKeyInjective | apps/api/internal/domain/auth/middleware.go:90-90 | a nonce key stands for one integrity id and one nonce, so devices do not use up each other's nonces |
| ReplayWindow.PrefixesApart | apps/api/internal/middleware/idempotency.go:24-24 | nonce, idempotency and OAuth state keys never meet |
| ReplayWindow.PassesAreApart | apps/api/internal/domain/auth/middleware.go:90-97 | in any run over the shared key store, two passes of one key are at least its lifetime apart |
| ReplayWindow.IdempotencyKeysADayApart | apps/api/internal/middleware/idempotency.go:24-38 | two admitted requests with one idempotency key are at least 24 hours apart |
| ReplayWindow.ReplayWindowBound | apps/api/internal/domain/auth/middleware.go:20-97 | two passes with equal integrity id, nonce and timestamp are at least 600 and less than 601 seconds apart, in the first and the last second of the window |
| ReplayWindow.AtMostTwoPasses | apps/api/internal/domain/auth/middleware.go:72-97 | no such proof passes three times |
| ReplayWindow.BothPassIff | apps/api/internal/domain/auth/middleware.go:72-97 | with a free key and matching bodies both pass if and only if the instants are those |
| ReplayWindow.StateUsedOnce | apps/api/internal/domain/auth/service.go:95-99 | an OAuth state completes one login each time it is handed out |
| ReplayWindow.StateCompletesIff | apps/api/internal/domain/auth/service.go:75-99 | in any run a state completes a login if and only if Redis answers and it was handed out less than 600 seconds before and not taken since |
| FileOrder.SortIsSorted | apps/api/internal/db/migrate.go:36-36 | the sorted list is in byte order and a permutation |
| FileOrder.SortIsCanonical | apps/api/internal/db/migrate.go:25-36 | the order in which the directory is listed does not matter |
| FileOrder.LeqIsByteOrder | apps/api/internal/db/migrate.go:36-36 | the order compares the first characters that differ, and a prefix comes first |
| Migrations.FilesExact | apps/api/internal/db/migrate.go:30-36 | the files are exactly the entries that are not directories and end in .sql, in that order |
| Migrations.VersionExact | apps/api/internal/db/migrate.go:39-39 | the version is the name without .sql |
| Migrations.VersionsDistinct | apps/api/internal/db/migrate.go:30-39 | distinct file names give distinct versions |
| Migrations.Migrator.ListFiles | apps/api/internal/db/migrate.go:30-36 | the loop collects and sorts exactly the .sql files |
| Migrations.Migrator.Migrate | apps/api/internal/db/migrate.go:14-80 | the loop skips, applies and records as the specification of a run, under any fault |
| Migrations.Migrator.ApplyFile | apps/api/internal/db/migrate.go:50-76 | script and record take effect together, exactly if everything before the commit works and it is not refused |
| Migrations.AloneIsTheLoop | apps/api/internal/db/migrate.go:38-79 | a runner of the state machine that nobody interrupts comes to what the loop comes to |
| Migrations.RunAppliesPrefix | apps/api/internal/db/migrate.go:38-79 | one run extends the applied prefix, ends well only with all files applied, and changes nothing when all are |
| Migrations.CalmRunCompletes | apps/api/internal/db/migrate.go:38-79 | without faults a run ends well if and only if all scripts run in a row |
| Migrations.AlwaysAPrefix | apps/api/internal/db/migrate.go:38-79 | after any number of runs, in turn or at once, failing or crashing anywhere, the database is the first k files applied once in order and the records are those k |
| Migrations.CompleteIsStable | apps/api/internal/db/migrate.go:42-48 | once all files are applied no step of any run changes the database |
| SqlTables.Database.RunInTransaction | apps/api/internal/db/migrate.go:55-76 | a script takes effect as a whole or not at all |
| SqlTables.RenameUndone | apps/api/internal/db/migrations/008_deposit_revert_to_bridge.sql:2-3 | renaming a column back restores columns, constraints, indexes and rows |
| SqlTables.AddUndone | apps/api/internal/db/migrations/008_deposit_revert_to_bridge.sql:4-6 | dropping a column just added restores the table |
| SqlTables.RenamesCommute | apps/api/internal/db/migrations/008_deposit_revert_to_bridge.sql:2-3 | renames of different columns commute |
| SqlTables.ExecAlters | apps/api/internal/db/migrations/007_deposit_v2.sql:2-6 | a run of ALTER TABLE on one table changes no other table |
| SqlTables.ExecValid | apps/api/internal/db/migrations/007_deposit_v2.sql:1-18 | a script that runs through leaves no constraint, index or row with a column too many or too few |
| DepositSchema.LinksDown | apps/api/internal/db/migrations/008_deposit_revert_to_bridge.sql:2-6 | 008 undoes what 007 did to the links, for any rows |
| DepositSchema.RoutesUpFails | apps/api/internal/db/migrations/007_deposit_v2.sql:8-9 | 007 fails at the new provider check on the first route there is |
| DepositSchema.RoutesDown | apps/api/internal/db/migrations/008_deposit_revert_to_bridge.sql:8-12 | 008 restores the checks and columns of an empty route table |
| DepositSchema.DoThenUndo | apps/api/internal/db/migrations/007_deposit_v2.sql:1-18 | 007 goes through if and only if there is no deposit route, and then 008 restores every table, column, check, index and row |
| DepositSchema.Up007 | apps/api/internal/db/migrations/007_deposit_v2.sql:1-18 | what 007 makes of every column, check, index and row when there is no route, and that no other table changes |
| DepositSchema.RunBoth | apps/api/internal/db/migrations/008_deposit_revert_to_bridge.sql:1-18 | both in their transactions leave the tables as they were |
| LeafNames.RecognisesLabels | apps/api/internal/domain/names/service.go:14-14 | the regular expression, searched anywhere, matches exactly 1 to 63 of a-z, 0-9 and hyphen with no hyphen at either end |
| LeafNames.NormaliseTwice | apps/api/internal/domain/names/service.go:37-37 | normalising twice is normalising once |
| LeafNames.LabelIsNormal | apps/api/internal/domain/names/service.go:37-40 | an accepted label is its own normal form |
| LeafNames.TrimSpaceExact | apps/api/internal/domain/names/service.go:37-38 | trimming takes exactly the spaces around |
| LeafNames.NormaliseExact | apps/api/internal/domain/names/service.go:37-37 | the normal form is the text without the spaces around it, its capital letters lowered and other ASCII characters kept |
| LeafNames.SplitFullName | apps/api/internal/domain/names/service.go:55-55 | splitting the full name at its first dot recovers leaf and parent if and only if the leaf holds no dot |
| LeafNames.FullNameInjective | apps/api/internal/domain/names/service.go:55-56 | distinct accepted pairs are hashed from distinct texts |
| LeafNames.Service.RegisterLeaf | apps/api/internal/domain/names/service.go:36-102 | the refusals in order, and the one task stored under a free id and nonce |

## Left out

- HTTP, routing, logging and JSON text: a webhook body is a parsed record or a parse failure, and a request header that is missing or unreadable is one absent value.
- MultisigCodec.CombineMultisigSignature: up to its base64 step, which is library code, as is that of the transaction.
- Sponsor.Service.SubmitSponsoredTransaction: a transaction shorter than 32 bytes, on which the code panics, is not modelled; the hash of the JSON around the prefix is a parameter.
- Ed25519, RSA, SHA-256 and BLAKE2b internals, and whether the chain reads the envelope as the verifier here does.
- Negative quorum thresholds; operators that share a key or an id are allowed.
- Aliasing of Go slices: byte buffers are values that methods return longer.
- Bit masks are written with powers of two and remainders instead of machine words.
- The classes hold tables as maps from key to row; ids are numbers, and `created_at`, `updated_at`, `issued_at` and applied_at columns that no property speaks of are dropped, as are the unread status column of payments and the constant action, status and signer set columns of name tasks.
- Store reads inside one service call of the serial payment model do not fail; they may in the interleaved one. Drawing a token never fails.
- Foreign keys on users, devices and deposit routes outside the identity tables: rows there are never deleted.
- Rows of users, devices and integrity records in a session check: their lookups are parameters. Wallet binding, device and integrity inserts of a login come after the modelled part.
- The requirement of docs/architecture/002-arch-auth.md:514 for high-fidelity refresh: the route in apps/api/router/router.go:52-56 asks for a valid access token only, and the model starts behind the middleware.
- The text of timestamps and of the client's body hash: parsing and comparison are parameters. Requests are one instant on one clock, and Redis loses keys only by expiry or deletion.
- Isolation of concurrent migration transactions: each is taken to happen at one instant, and scripts do not touch schema_migrations. The text of scripts is handed to an arbitrary partial function.
- In the schema model: the order of columns, the creation of constraints other than checks, and uniqueness or foreign keys as conditions on rows; columns go by number. Migrations other than 002, 007 and 008 are any other tables.
- LeafNames.NormaliseTwice: the Unicode tables are a parameter, right on ASCII and such that lowering twice is lowering once and makes no spaces. The signer set's expiry is not negative.
- DepositDrain.DrainIsOneFold: for one processor, because with two it is false (DepositLimits.TwoProcessorsRevertStatus); DepositOrder, DepositRuns and DepositProgress have one processor too. A turn of its loop is one step there, and DepositProcessors.UndisturbedTurn connects it with single store calls.
- DepositProgress.DrainBound: assumes fewer than fifty bad rows no newer than some good one, because with more the queue may stall (DepositProgress.ProcessedIff).
- Identities.OneSaltPerIdentity: assumes a run without a race, because a race can lead to two salts (Identities.RaceSplits).
- SingleUse.SpentOnce: assumes a run without an overlap, because an overlap can spend a token twice (SingleUse.OverlapSpendsTwice).
- PaymentSerial.Service.SubmitIntent: an execution is a call to the sponsor that came back, so one that the signer set refuses, or that fails before the chain is asked, counts as an execution although nothing reaches the chain; so it does in PaymentInterleaved and PaymentOrderly.
- KYC state mapping, deposit options, pagination, getters, nearby sessions and assist, the mobile apps and build scripts: they would add easy members only.
