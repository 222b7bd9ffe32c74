# Push-bet-data webhook, modelled in Dafny

The GPlus seamless-wallet provider pushes batches of betting transactions to
`POST /v1/api/seamless/pushbetdata`. `PushBetDataController::pushBetData`
validates the request, then walks the batch in order. It skips a transaction
that has no truthy `member_account` or `wager_code`. It stops the whole batch
with `MemberNotExist` at the first unknown member, and keeps the rows already
written. Every other transaction is upserted into the `push_bets` ledger,
keyed by `transaction_id` (the wager code). The response always carries
`before_balance` and `balance` of 0.

The model is a set of pure functions:

- `options.dfy` (`Options`): the optional value used for absent/null request keys.
- `php.dfy` (`Php`): PHP and Laravel value semantics the controller relies on.
  This covers string truthiness ("" and "0" are false), `empty` on integers,
  `??`, `floor($ms / 1000)` and `trim` as used by the `required` rule.
- `push_bet.dfy` (`PushBet`): the request, transaction, row and response types.
  It also holds validation, the timestamp normalisation, the update and insert
  paths, the upsert into a `map<string, Record>` store, the fold over the
  batch (`Process`) and the endpoint (`PushBetData`).
- `push_bet_properties.dfy` (`PushBetProperties`): properties relating several
  calls. Re-delivery is idempotent for one row, one store and a whole batch.
  The insert defaults equal an update of an all-default row. A batch splits
  into a prefix and the rest. A skip writes nothing. An abort keeps exactly
  the prefix.
- `scenarios.dfy` (`Scenarios`): concrete deliveries and what they leave in the ledger.

The controller's `??` falls back only on an absent or null key, so an
explicit `""` or `0` overwrites the stored value. Transaction fields are
therefore `Option<T>`. The controller requires `request_time`, divides
provider timestamps by 1000, and skips a transaction without a truthy
`member_account` or `wager_code`.

The timestamp normalisation deserves a note. `floor($ms / 1000)` is Dafny's
`ms / 1000`, because Euclidean division by a positive divisor rounds toward
minus infinity, as PHP's `floor` does. The stored result is then gated by PHP
truthiness. So a value that is absent, 0, or in 1..999 leaves the stored value
untouched on update and null on insert. A negative value floors to a non-zero
number of seconds and is kept. `request_time` passes `required` even when it
is 0, but line 64 then turns 0 into null.

## Model

| member | source | states |
|---|---|---|
| Php.Coalesce | app/Http/Controllers/Api/V1/gplus/Webhook/PushBetDataController.php:72-86 | `??` yields the incoming value when the key is present and non-null, otherwise the fallback |
| Php.FloorSeconds | app/Http/Controllers/Api/V1/gplus/Webhook/PushBetDataController.php:62-63 | the result `r` is the floor of ms/1000: `r*1000 <= ms < r*1000 + 1000` |
| Php.TrimLeft | app/Http/Controllers/Api/V1/gplus/Webhook/PushBetDataController.php:27 | the result is a suffix of the input, only blank characters were dropped, and it does not start with a blank |
| Php.TrimRight | app/Http/Controllers/Api/V1/gplus/Webhook/PushBetDataController.php:27 | the result is a prefix of the input, only blank characters were dropped, and it does not end with a blank |
| Php.TrimEmptyIffAllBlank | app/Http/Controllers/Api/V1/gplus/Webhook/PushBetDataController.php:27 | `trim($s) === ''` holds exactly when every character of `s` is one PHP's trim removes |
| Php.RequiredStringIsTrimCheck | app/Http/Controllers/Api/V1/gplus/Webhook/PushBetDataController.php:27 | the `required` test used for `operator_code` agrees with Laravel's "present and `trim` not empty" in both directions |
| PushBet.ProviderStamp | app/Http/Controllers/Api/V1/gplus/Webhook/PushBetDataController.php:62-63 | a provider timestamp that is absent, 0 or in 0..999 ms keeps the prior value; any other becomes a non-zero floor(ms/1000) seconds |
| PushBet.Update | app/Http/Controllers/Api/V1/gplus/Webhook/PushBetDataController.php:70-87 | every optional field takes the incoming value when present, else keeps the stored one; `status` and `wager_status` both follow `wager_status`; `member_account`, `operator_code` and `meta` are always overwritten; a request time that is absent or 0 keeps the stored value, and so does a provider timestamp that is absent or in 0..999 ms; the key never changes |
| PushBet.Insert | app/Http/Controllers/Api/V1/gplus/Webhook/PushBetDataController.php:90-108 | the new row is keyed by the wager code; absent `product_code` and `amount` become 0, absent strings '', `status` = `wager_status` = incoming `wager_status` or ''; `request_time` holds the request time, and is null exactly when that is absent or 0; each provider timestamp is null exactly when absent or in 0..999 ms, and otherwise holds floor(ms/1000) seconds |
| PushBet.Upsert | app/Http/Controllers/Api/V1/gplus/Webhook/PushBetDataController.php:67-109 | the key is added if missing; an existing key takes the update path, a new one the insert path; every other row is unchanged; rows stay filed under their own `transaction_id` |
| PushBet.Process | app/Http/Controllers/Api/V1/gplus/Webhook/PushBetDataController.php:41-110 | the loop ends in Success exactly when no admitted transaction names an unknown member, else MemberNotExist; it only adds keys, and only the batch's wager codes; rows whose key the batch never names are untouched; on Success every admitted wager code has a row |
| PushBet.Respond | app/Http/Controllers/Api/V1/gplus/Webhook/PushBetDataController.php:112-117 | every response shape carries the chosen code and `before_balance` = `balance` = 0 |
| PushBet.PushBetData | app/Http/Controllers/Api/V1/gplus/Webhook/PushBetDataController.php:20-118 | the code is InternalServerError exactly when validation fails, and then the store is unchanged; it is Success exactly when the request validates and every admitted member is known; balances are 0; no row is ever removed; rows stay well keyed |
| PushBetProperties.InsertIsUpdateOfBlank | app/Http/Controllers/Api/V1/gplus/Webhook/PushBetDataController.php:88-108 | inserting a transaction equals updating the all-default row for its key: the defaults do not depend on the transaction |
| PushBetProperties.UpdateIdempotent | app/Http/Controllers/Api/V1/gplus/Webhook/PushBetDataController.php:70-87 | updating a row twice with the same transaction equals updating it once |
| PushBetProperties.UpdateAfterInsert | app/Http/Controllers/Api/V1/gplus/Webhook/PushBetDataController.php:67-109 | update-with-fallback over the row a transaction inserted reproduces that row |
| PushBetProperties.UpsertIdempotent | app/Http/Controllers/Api/V1/gplus/Webhook/PushBetDataController.php:67-109 | upserting the same transaction twice leaves the store as upserting it once |
| PushBetProperties.UpdateKeepsShadow | app/Http/Controllers/Api/V1/gplus/Webhook/PushBetDataController.php:70-87 | two rows that an update by `a` makes equal stay equal under `a` after any other update in between |
| PushBetProperties.UpsertIsUpdateOfBase | app/Http/Controllers/Api/V1/gplus/Webhook/PushBetDataController.php:67-109 | the upserted row is the update of the stored row, or of the blank row when the key is new |
| PushBetProperties.ShadowAwayFromKey | app/Http/Controllers/Api/V1/gplus/Webhook/PushBetDataController.php:67-109 | away from `a`'s key, stores that `a`'s upsert makes equal hold the same keys and rows after any upsert |
| PushBetProperties.ShadowOnKey | app/Http/Controllers/Api/V1/gplus/Webhook/PushBetDataController.php:67-109 | on `a`'s key, stores that `a`'s upsert makes equal give the same row when `a` follows another upsert |
| PushBetProperties.UpsertKeepsShadow | app/Http/Controllers/Api/V1/gplus/Webhook/PushBetDataController.php:67-109 | stores that `a`'s upsert makes equal stay equal under `a` after any other upsert in between |
| PushBetProperties.ProcessAppend | app/Http/Controllers/Api/V1/gplus/Webhook/PushBetDataController.php:41-110 | processing `a + b` is processing `a`, then `b` from the store `a` left, unless `a` aborted, in which case it is `a`'s outcome |
| PushBetProperties.SkippedTransactionIsNoOp | app/Http/Controllers/Api/V1/gplus/Webhook/PushBetDataController.php:42-48 | a transaction without a truthy `member_account` or `wager_code`, anywhere in the batch, changes neither the code nor the store |
| PushBetProperties.UnknownMemberAbortsBatch | app/Http/Controllers/Api/V1/gplus/Webhook/PushBetDataController.php:50-59 | at the first admitted transaction with an unknown member the result is MemberNotExist with exactly the store the earlier transactions left; later transactions are not applied |
| PushBetProperties.CodeIgnoresStore | app/Http/Controllers/Api/V1/gplus/Webhook/PushBetDataController.php:41-59 | how the loop ends depends only on the batch and the users, not on the ledger |
| PushBetProperties.ProcessKeepsShadow | app/Http/Controllers/Api/V1/gplus/Webhook/PushBetDataController.php:41-110 | stores that `a`'s upsert makes equal stay equal under `a` after processing any batch |
| PushBetProperties.ProcessRedelivery | app/Http/Controllers/Api/V1/gplus/Webhook/PushBetDataController.php:41-110 | processing a batch again on the store it produced gives the same code and the same store |
| PushBetProperties.PushBetDataRedelivery | app/Http/Controllers/Api/V1/gplus/Webhook/PushBetDataController.php:20-118 | delivering the same request twice gives the same response and the same ledger, over the columns this endpoint writes, as delivering it once |
| Scenarios.FirstDeliveryInserts | app/Http/Controllers/Api/V1/gplus/Webhook/PushBetDataController.php:88-108 | a known member with an unseen wager code yields Success and one new row with the given amount and currency, `settle_at` in seconds and no provider creation time |
| Scenarios.RedeliveryMergesFields | app/Http/Controllers/Api/V1/gplus/Webhook/PushBetDataController.php:68-87 | re-delivering a wager code with a new amount and no currency updates the amount and keeps the currency |
| Scenarios.UnknownFirstMemberStopsBatch | app/Http/Controllers/Api/V1/gplus/Webhook/PushBetDataController.php:50-59 | an unknown first member yields MemberNotExist and the second, known, transaction is not written |
| Scenarios.ZeroMemberNameIsSkipped | app/Http/Controllers/Api/V1/gplus/Webhook/PushBetDataController.php:42-48 | a transaction whose `member_account` is "0" is skipped even if "0" is a user name |
| Scenarios.BlankOperatorCodeFailsValidation | app/Http/Controllers/Api/V1/gplus/Webhook/PushBetDataController.php:26-38 | an `operator_code` of only blanks fails validation with "Validation failed" and writes nothing |

## Left out

- Logging (lines 22, 32, 46, 52): a side effect only.
- HTTP and JSON: the response is modelled as its code, message and the two balances.
- Balances: the float `0.0` balances are the integer 0. `bet_amount` and `product_code` are integers, so float amounts are not modelled.
- Enum values: the numeric values of `SeamlessWalletCode` are not part of this model; the three cases are opaque.
- Database: the Eloquent queries become a set of user names and a map keyed by `transaction_id`. Matching is exact, so database collation (case or trailing-space insensitive matching) is not modelled.
- PushBetProperties.PushBetDataRedelivery: the columns Eloquent fills by itself (the auto-increment id, and `created_at`/`updated_at` from the clock) are not modelled, so re-delivery idempotence covers only the columns this endpoint writes.
- Stored rows are assumed to have non-null columns except the three timestamps, as this endpoint writes them. A row created elsewhere with null columns is not modelled.
- `meta`: it holds the raw transaction value instead of `json_encode($tx)`. Transaction keys other than the thirteen the controller reads are not modelled.
- Timestamps: the Carbon objects of `now()->setTimestamp(...)` are epoch seconds. PHP float precision of `$ms / 1000` for values beyond 2^53 is not modelled.
- `request_time` is a natural number, so `floor` of it is the identity; fractional and negative request times are not modelled.
- Types: fields are typed (strings, integers). Laravel's `string` rule rejecting a non-string `operator_code`, and PHP coercion of mistyped transaction fields, are not modelled.
- Global middleware (input trimming, empty-string-to-null) is not part of this model. The request is taken as the controller receives it.
- Concurrency: two simultaneous deliveries of the same transaction, and their lost updates, lie outside this sequential code. Unhandled database faults are not modelled either.
