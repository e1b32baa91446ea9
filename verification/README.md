# Verification of the meta-transaction processor

A Dafny model of the processor that takes meta-transaction requests from a Kafka topic, submits each as an
Ethereum transaction from one of several wallets, follows it until it is confirmed, and reports its status.
`dafny verify dfyconfig.toml` checks the whole project.

## What is modelled

**One transition system.** `Watcher.Tick` is a program of single calls: to the database, the node, the signer and the
status producer. `Watcher` (module) names the call made at each program point (`Ask`) and the point each reply leads
to (`Next`). `System` runs one such watcher per wallet, one call at a time, interleaved with consumer inserts, cleaner
deletions and changes of the canonical chain, any of which may happen between two calls. Every call may fail, a write
that reports an error may or may not have taken effect, and a reorg may replace any part of the chain. A run is a list
of such steps from an empty table. Properties are about every run of any length, with any number of wallets.

**What is assumed.** `System.Terms` lists everything a property may ask of the environment, and each property's
`requires` says which of it is asked: store writes succeed (`writesSucceed`), a write that reports an error has not
taken effect (`errorsTrue`), the update after a successful first send takes effect (`submitStored`), an error from a
first send means the node did not take the transaction (`rejectionsTrue`), blocks at depth `confirmationBlocks` stay
and the height does not fall (`deepBlocksStay`), ids reach a wallet in increasing order (`idsAscend`), suggested
prices are bounded (`priceCap`). Built into every run: the reader sees the writer's writes; an id is not inserted
again once its row was removed; a chain holds at most one transaction per sender and nonce; the pending nonce of an
account is above every nonce it has in the chain; transaction hashes are injective and block hashes commit to the
block number. A receipt query may answer "not found" although the transaction is there.

**What a Tick does, said without its program.** `Notes` collects the replies a watcher got since it read the row in
hand. `Notes.TicksFollowRules` says, over every run, which call comes after each reply, with which arguments, and when
a Tick ends with an error, in terms of those replies, the configuration and plain arithmetic only. The laws of prices,
hashes, boosts and messages rest on it.

**The code as it is written.** `Tick` has `Watcher.Tick` as methods over a shared table that others change between any
two calls, proved to make exactly the calls of the step program. `Consumer`, `Cleaner`, `Models` and `Kms` hold the
consumer, the cleaner, the generated Insert, Update and Upsert with their query caches, and the KMS signer, in the
same form.

**Layout.** `Types`, `Watcher`, `System`: the model. `Rows`: the invariant of the table. `Traces`, `Orders`,
`Departures`, `Tracking`, `Ledger`: status messages, order, reorgs, conservation. `Notes`: the rules of a Tick.
`Prices`, `Sends`, `Boosts`, `Once`, `Finality`, `Nonces`: the transactions made and sent. `Reports`: what the
messages say is true. `Witnesses`: runs that show what the assumptions are for. `Solo`, `Serial`: whole Ticks and
serialisability. `Drain`: how long a wallet takes to empty. `Tick`, `Consumer`, `Cleaner`: the imperative code.
`CacheKeys`, `QueryCache`, `Upserts`, `Models`: the query caches. `BigEndian`, `Modular`, `Kms`: signatures.

Where the code and its words differ, the model follows the code:

- The comment at internal/ticker/loop.go:171 asks for an increase of at least 10% on each boost. `Prices.BoostStalls` says
  exactly when what is offered gives it: from 5 wei up, or when twice the suggestion does. Below 5 wei the bar alone does
  not move at all.
- The column `boosted_block_hash` receives the hash of the boosted transaction (internal/ticker/loop.go:241).
- The submit query at internal/ticker/loop.go:327-331 does not exclude submitted rows; `Rows.PickedIsPending` shows that
  it never meets one.
- The generated Update can report an error after the statement took effect
  (internal/models/meta_transaction_requests.go:796-799). After a first send (internal/ticker/loop.go:441-451) this leaves
  the request submitted and never announced: `Witnesses.MinedUnannounced` is a run in which its first message is Mined, and
  `Orders.TracesAreOrdered` says exactly which requests this happens to. After a boost (internal/ticker/loop.go:246-253)
  it leaves a transaction stored that is never sent: `Boosts.SentIfReported` says exactly which.
- `Kms.GivesUpEarly`: on every curve there are valid signatures for which `Sign` fails. Recovery with V = 0 meets the
  identity and returns an error, so V = 1, which is right, is not tried. `Kms.SignExact` gives the exact condition.
- `Upserts.OptionsBreakTransparency`: options of `Upsert` shape the query but are missing from its cache key.
  `Upserts.UpdateSetIsLost` is an update set that is silently ignored. The processor passes no options.

## Model

| member | source | states |
|---|---|---|
| Rows.Reachable | internal/ticker/loop.go:102-459 | every reachable state, whatever fails, with writes that take effect and then report an error, and however watchers, inserts, deletions and reorgs interleave, satisfies the table invariant |
| Rows.OneSubmittedPerWallet | internal/ticker/loop.go:103-107 | the comment made a theorem: two submitted rows of one wallet are the same row |
| Rows.PickedIsPending | internal/ticker/loop.go:324-331 | when the submit query runs the wallet has no submitted row, so the row it picks has neither hash nor nonce |
| Rows.StoredRowsAreConsistent | internal/ticker/loop.go:435-448 | submission columns are null together, mined columns too, mined or boosted implies submitted, the mined number is that of the mined hash, and the hash is that of a transaction over the row's own nonce, price and inserted payload |
| Rows.UpdateStoresMemory | internal/ticker/loop.go:140-148 | despite its column list an Update leaves the stored row equal to the one in memory, also the second Update of a Tick |
| Rows.ListsAreExact | internal/ticker/loop.go:246 | apart from updated_at, the three column lists of Update name exactly the columns that the assignments before them can change |
| Rows.BornIsForEver | internal/consumer/consumer.go:79-83 | over every run what was first inserted under an id stays, wallet included, and every stored version is of that request, whatever duplicates arrive |
| Notes.TicksFollowRules | internal/ticker/loop.go:102-459 | over every run, whatever fails: what a watcher does after any reply (which call with which arguments, or the end of the Tick and its error) follows from the replies since it read the row in hand; sender, gas limit, price, nonce, columns, hashes and messages are spelled out |
| Traces.PhaseIsGrammar | internal/ticker/loop.go:259-305 | the automaton used as invariant accepts exactly the words of the message grammar |
| Traces.TracesAreLawful | internal/ticker/loop.go:205-212 | when writes succeed each request's messages are a prefix of Failed, of Submitted Mined* Failed, or of Submitted Mined+ Confirmed |
| Orders.TracesAreOrdered | internal/ticker/loop.go:297-304 | whatever fails, a Confirmed has an earlier Mined, a row a watcher deleted an earlier terminal message, and a Mined has an earlier Submitted if and only if the request's submission was not stored by an Update that reported an error |
| Orders.NoneQuiet | internal/models/meta_transaction_requests.go:796-799 | there is no such request when a write that reports an error has not taken effect |
| Witnesses.MinedUnannounced | internal/ticker/loop.go:441-451 | a run with one late error in which Mined is the request's first message |
| Ledger.Conservation | internal/rpc/meta_transaction_api.go:31-48 | in every run, whatever fails, the ids ever inserted are the disjoint union of pending, active, confirmed, failed and cleaned ones, as sets and in number |
| Departures.FirstInFirstOut | internal/ticker/loop.go:327-331 | if ids reach a wallet in increasing order, its requests get their first message in strictly increasing id order |
| Tracking.ReorgsAreTracked | internal/ticker/loop.go:133-148 | an error-free Tick that opened with a row saw a receipt answer for it, and the stored mined block of a surviving row is that of the receipt, or null if it saw none |
| Finality.ConfirmedIsForEver | internal/ticker/loop.go:277-299 | if deep blocks stay, a transaction reported Confirmed is in the chain at every later moment, although head and receipt are read at different moments |
| Prices.BarStalls | internal/ticker/loop.go:172-173 | the bar is p + floor(p/5); it is 10% more exactly from 5 wei up (or at 0), and more at all exactly from 5 wei up |
| Prices.BoostStalls | internal/ticker/loop.go:167-177 | what a boost offers is at least p + floor(p/5), at least twice the suggestion, and one of the two; it is 10% more exactly when p is 0 or at least 5 or twice the suggestion is, and more at all exactly from 5 wei up or when twice the suggestion is |
| Prices.LadderGrows | internal/ticker/loop.go:167-177 | k boosts from 5 wei up raise the price strictly and at least 1.1^k-fold |
| Prices.LadderCapped | internal/ticker/loop.go:175-177 | with suggestions up to S the price after k boosts is at most 1.2^k times 2S |
| Boosts.PricesClimb | internal/ticker/loop.go:215-253 | over every run, whatever fails, the versions of a request differ in gas price and gas only; with s the price suggested in its own Tick, the first offers 2s, and each boost of p at least p + floor(p/5), at least 2s, and one of the two; the exact condition for 10% more and both bounds over k boosts hold |
| Boosts.SentIfReported | internal/ticker/loop.go:246-253 | what was sent are, by their hashes and in order, the first version and exactly those boosts whose Update reported success, but for one that is sent next |
| Boosts.SentAreVersions | internal/ticker/loop.go:246-253 | so the hashes sent are those of all versions, but for one that is sent next, when errors are true |
| Boosts.BoostsArePaced | internal/ticker/loop.go:150-155 | a stored submitted row has the full hash and the head of its last version and the submission head of its first; k boosts of it took at least k * boostAfterBlocks blocks, with reorgs, failed sends and failed writes |
| Boosts.PriceByBlocks | internal/ticker/loop.go:150-177 | so the price of a stored row is bounded by the blocks since its submission, whatever fails |
| Boosts.BoostDecision | internal/ticker/loop.go:138-163 | with no receipt, and the Update that clears the mined columns, if any, reporting success, the Tick asks for a price if and only if boosting is enabled and its head is at least boostAfterBlocks above the head of the last version; otherwise it ends without an error |
| Boosts.NoBoostsWhenDisabled | internal/ticker/loop.go:156-159 | with boosting disabled no replacement is sent in any run |
| Reports.MessagesAreTrue | internal/ticker/loop.go:264-299 | every Submitted has the hash of an earlier first submission of that request that went through; every Mined and Confirmed the hash of a version of it for which a Tick got a receipt, Confirmed with the success and logs of that receipt; every Failed the reason of a refused estimation |
| Once.AtMostOnce | internal/ticker/loop.go:430-451 | all transactions the node accepted for one request share sender and nonce, so no valid chain holds two of them |
| Witnesses.LostUpdate | internal/ticker/loop.go:441-451 | without a stored first submission: a run in which the node accepts one request under two nonces |
| Witnesses.FalseRejection | internal/ticker/loop.go:430-433 | with a rejection that is not true: the same |
| Nonces.NoncesAscend | internal/ticker/loop.go:353-357 | of two submissions of one wallet the later has the higher nonce if the earlier's request was confirmed |
| Solo.RunAgree | internal/ticker/loop.go:104-107 | a Tick runs alike on tables that agree on its wallet's rows |
| Solo.RunElsewhere | internal/ticker/loop.go:327-331 | a Tick leaves the rows, messages and sends of other wallets alone |
| Solo.RunArrival | internal/consumer/consumer.go:72-80 | until it has picked a row, a Tick runs as if a row arriving meanwhile had been there from the start |
| Serial.Serialisable | cmd/meta-transaction-processor/main.go:141-163 | every cleaner-free interleaving ending between Ticks has a serial order of whole Ticks and arrivals with the same table, messages and sends per wallet, and the same replies to every watcher |
| Serial.SameTicks | cmd/meta-transaction-processor/main.go:150-156 | the Ticks of that order are those of the run, call by call |
| Serial.SameArrivals | internal/consumer/consumer.go:80 | its arrivals are the run's inserts, for each wallet the same rows in the same order |
| Drain.TicksDrain | internal/ticker/loop.go:259-321 | in a run of the whole system every undisturbed Tick of a wallet uses up one of the Ticks it needs, whatever the others do |
| Drain.Drains | internal/ticker/loop.go:260-459 | in every run, from any moment between two of its Ticks, a wallet with n rows whose own calls go smoothly is empty after 1 + n * max(2, confirmationBlocks + 1) more Ticks, with all other wallets interleaving call by call |
| Tick.Watcher.Tick | internal/ticker/loop.go:102-459 | the code, with others changing everything between its calls, makes exactly the calls of the step program and reports an error just when that does |
| Tick.Watcher.Follow | internal/ticker/loop.go:112-138 | the branch for an active row ends the Tick or leaves the wallet free for another |
| Tick.Watcher.Missing | internal/ticker/loop.go:138-158 | no receipt: the calls are those of the step program, which Boosts.BoostDecision pins |
| Tick.Watcher.Included | internal/ticker/loop.go:259-321 | a receipt: the calls are those of the step program, which Notes.TicksFollowRules and Reports.MessagesAreTrue pin |
| Tick.Watcher.Boost | internal/ticker/loop.go:160-217 | the in-place computation of the price and the calls are those of the step program, which Boosts.PricesClimb and Notes.TicksFollowRules pin; a revert fails the request |
| Tick.Watcher.Replace | internal/ticker/loop.go:219-253 | a replacement is stored before it is sent |
| Tick.Watcher.SubmitNext | internal/ticker/loop.go:327-337 | the wallet's least id is chosen, or the Tick ends |
| Tick.Watcher.Deliver | internal/ticker/loop.go:430-458 | a first submission is stored, then reported, only after the node took it; Boosts.BoostsArePaced and Reports.MessagesAreTrue pin the hash |
| Tick.CallIsStep | internal/ticker/loop.go:102-459 | a recorded call is an enabled step of the transition system with the same outcome |
| Consumer.Session.ConsumeClaim | internal/consumer/consumer.go:44-90 | every well-formed message below the marked offset was inserted; a failed upsert leaves its message unmarked and first in line |
| Consumer.New | internal/consumer/consumer.go:92-110 | nothing below the committed offset is lost over any number of sessions, however they end |
| Consumer.DuplicatesChangeNothing | internal/consumer/consumer.go:79-83 | no insert of the consumer changes a row that is there, its wallet included |
| Consumer.StepIsInsert | internal/consumer/consumer.go:72-80 | each insert of the consumer is an insert step of the transition system |
| Consumer.IdsApart | internal/consumer/consumer.go:60-64 | ids of 27 bytes are told apart and ordered by the numbers that stand for them |
| BigEndian.ValueOrders | migrations/20221108132539_create_transaction_table.sql:6 | strings of one length are equal, or ordered byte by byte, as their numbers are |
| Cleaner.Database.CleanStuckMetaTransactions | internal/rpc/meta_transaction_api.go:31-48 | it fails if and only if the table was empty when read or a call failed, and then deletes nothing; otherwise exactly the id that was oldest when read is deleted |
| Cleaner.DeletionIsClean | internal/rpc/meta_transaction_api.go:40-47 | the deletion is a cleaning step of the transition system, or none if the row is gone |
| CacheKeys.PrefixFree | internal/models/meta_transaction_requests.go:299 | no column name begins another, or begins with a dot, digit or sign |
| CacheKeys.TextDecodes | internal/models/boil_types.go:38-40 | names written one after the other up to a dot or the end are read back in one way |
| CacheKeys.CacheKeyInjective | internal/models/boil_types.go:34-52 | two calls share a makeCacheKey key if and only if kind, columns and non-zero defaults are the same |
| CacheKeys.OtherNamesCollide | internal/models/boil_types.go:38-40 | for names in general they may collide: "i", "d" and "id" |
| CacheKeys.UpsertKeyInjective | internal/models/meta_transaction_requests.go:896-922 | two Upserts share a key if and only if they agree in all that is keyed |
| QueryCache.TransparentIffKeyTells | internal/models/meta_transaction_requests.go:677-736 | a cache used this way is transparent in all interleavings of any callers if and only if calls with one key have one plan |
| QueryCache.CachesAreTransparent | internal/models/meta_transaction_requests.go:755-805 | so the three caches always execute the plan an uncached call would build |
| Upserts.HarmlessExact | internal/models/psql_upsert.go:61-91 | an option leaves the query of a call as it is if and only if it is absent or spells out the default: the conflict target, and the update set on calls that update |
| Upserts.OptionsBreakTransparency | internal/models/psql_upsert.go:14-31 | with options the cache is transparent in all interleavings if and only if every option is harmless to every call |
| Upserts.UpdateSetIsLost | internal/models/meta_transaction_requests.go:896-958 | two Upserts that update on conflict, the second with an update set: it executes the first one's query |
| Upserts.PlanSays | internal/models/meta_transaction_requests.go:930-970 | the query built is the text of an insertion of the inferred columns that on a conflict does nothing if and only if it is not to update, and otherwise overwrites the inferred columns; its parameters and results are bound to the fields of just the inserted and returned columns; returned are the columns not both inserted and updated |
| Upserts.TextTells | internal/models/psql_upsert.go:53-99 | two statements with one text are one statement: inserted, target, overwritten and returned columns are read back from it |
| Upserts.PositionFinds | internal/models/meta_transaction_requests.go:299 | the field a column is bound to is the one that holds it |
| Upserts.ConsumerInserts | internal/consumer/consumer.go:80 | the query of the consumer's call is the text of a statement that, executed on any table, leaves the row of a known id as it is and adds the row of a new one |
| Models.MakeCacheKey | internal/models/boil_types.go:34-52 | the two loops write exactly the key |
| Models.MakeUpsertKey | internal/models/meta_transaction_requests.go:896-922 | the in-line loops write exactly the key |
| Models.Cache.Run | internal/models/meta_transaction_requests.go:677-736 | look up, build on a miss, execute, store: the plan executed is the uncached one while others use the cache, and a plan is stored only on a miss that succeeded |
| Models.Insert | internal/models/meta_transaction_requests.go:675-738 | executes the plan an uncached call would build while others use the cache, and stores it only if it found none and the execution succeeded |
| Models.Update | internal/models/meta_transaction_requests.go:755-807 | the same for Update |
| Models.Upsert | internal/models/meta_transaction_requests.go:894-1002 | the same for Upsert without options; the query executed is the text of the statement asked for, and there is none if and only if it is to update no column |
| Kms.NegatedVerifies | internal/sender/kms.go:52-56 | (r, s) verifies if and only if (r, N - s) does, in section 4.1.4 of SEC 1 |
| Kms.CandidateIsVerifyPoint | internal/sender/kms.go:62 | a candidate point recovers the key (section 4.1.6 of SEC 1) if and only if verification meets that point |
| Kms.RecoverExact | internal/sender/kms.go:62-79 | recovery with V in {0, 1} gives the key if and only if the signature verifies at a point with x below N and parity V |
| Kms.RawVerifies | internal/sender/kms.go:41 | what a signer makes with nonce k verifies, at the nonce's point |
| Kms.LowSForm | internal/sender/kms.go:19-20 | the corrected s lies in 1..N/2, is s or N - s, is not corrected again, and verifies if and only if s does (the low-s rule of EIP-2) |
| Kms.KmsSender.Sign | internal/sender/kms.go:41-81 | the buffer filled in place and retried yields what the search over V specifies, for any reply of the KMS |
| Kms.SignExact | internal/sender/kms.go:52-81 | for any two numbers, Sign succeeds if and only if the corrected pair verifies at a point with x below N and not (V = 1 is right and 2z + r key = 0 mod N); V is the point's parity |
| Kms.SignSound | internal/sender/kms.go:58-69 | returned bytes are 65, decode to r and the corrected s, verify, and recover to the sender's key; s is low for every reply in range, and for others if and only if S lies between -N/2 and N + N/2 |
| Kms.SignCompletes | internal/sender/kms.go:62-81 | for every signature made with a nonce, success is characterised by that nonce's point, and the result is given byte for byte |
| Kms.GivesUpEarly | internal/sender/kms.go:62-65 | on every curve, every odd point with x below N and every low s give a digest and a key whose valid signature Sign fails on |

## Left out

- Transport: Kafka, Postgres, gRPC, AWS KMS and Ethereum RPC are a table, a list of messages, an offset and replies that
  may be anything their interface allows. JSON, ASN.1, hex and transaction encoding are library code.
- Logging, metrics, settings, migrations as code, charts and contract bindings: no behaviour to state.
- Timestamps: `updated_at` is a column name only, and `created_at` only orders rows for the cleaner.
- Sizes: `nonce`, `gas_price` and block numbers are unbounded; the doubled gas limit does not wrap at 64 bits.
- Ids are numbers, the big-endian value of their 27 bytes; the database is taken to order them byte by byte, which its
  collation decides.
- Error data of a failed gas estimation is a byte string that is part of the reply.
- Re-insertion: an id whose row was removed is not inserted again, so a redelivery after that is not modelled.
- Once.AtMostOnce: needs the update after a successful first send to take effect, and a rejected first send to be truly
  rejected; without either the code can submit a request twice under two nonces, as `Witnesses` shows.
- Nonces.NoncesAscend: needs the update after a successful first send to take effect, because otherwise the same request
  is sent again, possibly with the same nonce.
- Serial.Serialisable: excludes the cleaner, which can delete a row in the middle of a Tick.
- Drain.Drains: only for runs in which no boost is needed, because the code polls the latest hash only and an included
  earlier version goes unseen.
- Whether a Failed request was executed: an earlier version may still be in the mempool, so nothing is claimed.
- Tick: a sender index beyond the configured senders, a nil receiver of the generated methods, hooks, debug output,
  `UpdateAll`, reloads and the where-helpers.
- Consumer.New: the endless loop of sessions is a given number of them, after which the context is cancelled; a message
  channel closed by the broker is not modelled.
- Models.Insert: how a plan of Insert or Update is built is a parameter, and for Upsert how the library infers the column
  lists; only that they are functions of the keyed arguments matters.
- Upserts.ConsumerInserts: that an inferred insertion names the columns without a default and the non-zero ones of the
  rest, `created_at` among them, is library behaviour and is required; `Execute` takes the id for the only unique column.
- Kms.KmsSender.Sign: the curve is a cyclic group of odd prime order below 2^256 given by x-coordinates and parities, a
  point being its multiple of the generator; a public key is compared as a point, not as its encoding.
- Cleaner.Database.CleanStuckMetaTransactions: the transition system lets the cleaner delete any row, not only the oldest.
