# A Dafny model of the explorer's indexing core

The block explorer indexes the events of a Penumbra chain into Postgres and
serves the resulting tables over HTTP. This project models the explorer's
sequential logic and proves properties about it:

- **Codec** (`sql.dfy`, module `Sql`). A 128-bit `Amount` is stored as a
  Postgres NUMERIC. Writing goes through a non-negative big integer. Reading
  takes the decimal's unscaled digits and turns their minimal little-endian
  bytes into a 16-byte array. An asset identifier is stored as 32 bytes,
  verbatim.
- **Dex component** (`dex.dfy`, module `Dex`). Circuit-breaker credit and
  debit events are decoded from the event envelope. Each successful event
  appends one signed row to `dex_value_circuit_breaker_change`: `+` the
  checked change for a credit, `−` for a debit.
- **Pagination** (`pagination.dfy`, module `Pagination`). Covers the `i64`
  cursor's `distance_between`, the filling of missing bounds and `limit`.
- **Validators** (`validator.dfy`, module `ValidatorComponent`). Rows of
  `stake_validator_set` become validator values. The funding-stream loop sums
  the community-pool rates and collects the address streams, which are then
  stably sorted by descending rate.
- **Content negotiation** (`web_common.dfy`, module `WebCommon`). The
  `accepts_json` prefix test on the `Accept` header.

`ints.dfy` holds the fixed-width integer types and `wrappers.dfy` the
`Option`/`Result` types.

Calls into other crates are passed in as functions: `from_event`,
`AssetId::try_from`, `Amount::try_from`, `serde_json::from_str` and the asset
identifier's own validity check. In `Dex` they are the fields of a `Decoders`
value.

Details of the code's behaviour the model keeps exactly:

- The conversion error text is "failed to convert BigInt into SQLAmount".
- The debit error reads "balance increased after dex credit".
- A failing `AssetId::try_from` or `Amount::try_from` propagates its own
  error, which does not name the field.
- Decoding an amount uses the decimal's unscaled digits only.

## Model

| member | source | states |
|---|---|---|
| Sql.ToLeBytes | src/sql.rs:28 | `to_le_bytes` gives exactly 16 bytes whose little-endian value is the amount |
| Sql.FromLeBytes | src/sql.rs:38 | `from_le_bytes` of 16 bytes is the amount they denote, always below 2^128 |
| Sql.LeBytesRoundTrip | src/sql.rs:28-38 | reading back the 16 bytes of an amount gives the amount |
| Sql.LeValueMinimalLe | src/sql.rs:33 | the big integer's minimal little-endian bytes denote its magnitude |
| Sql.MinimalLeLength | src/sql.rs:33-37 | the minimal encoding of n fits in k bytes exactly when n < 256^k |
| Sql.ToBigInt | src/sql.rs:27-29 | `to_bigint` is non-negative, equals the amount, and equals the sum of bytes[i]·256^i over its 16 little-endian bytes |
| Sql.FromBigInt | src/sql.rs:31-39 | `from_bigint` succeeds exactly when 2^120 ≤ abs(v) < 2^128, and then yields abs(v); the sign is dropped |
| Sql.FromBigIntIgnoresSign | src/sql.rs:33-36 | a negative big integer converts exactly as its absolute value does |
| Sql.FromBigIntRejectsOutsideRange | src/sql.rs:37 | magnitudes below 2^120 or at least 2^128 give `None` |
| Sql.BigIntRoundTrip | src/sql.rs:27-39 | for 2^120 ≤ a < 2^128, `from_bigint(to_bigint(a)) == Some(a)` |
| Sql.BigIntRoundTripFailsBelow | src/sql.rs:37 | for a < 2^120, `from_bigint(to_bigint(a)) == None` |
| Sql.Encode | src/sql.rs:54-61 | the written decimal has scale 0, unscaled digits equal to the amount, and no fractional part |
| Sql.Decode | src/sql.rs:63-75 | a non-integer decimal fails with "not an integer"; otherwise the result is Ok exactly when the unscaled digits' magnitude is in [2^120, 2^128), it is that magnitude, and every other failure is the conversion error |
| Sql.AmountRoundTrip | src/sql.rs:54-75 | for every amount a in [2^120, 2^128), `Decode(Encode(a)) == Ok(a)` |
| Sql.SmallAmountUnreadable | src/sql.rs:71-73 | for every amount a below 2^120, `Decode(Encode(a))` fails with the conversion error |
| Sql.DecodeIgnoresScale | src/sql.rs:71 | integer-valued decimals with the same unscaled digits decode alike, whatever their exponent |
| Sql.EncodeAssetId | src/sql.rs:109-116 | the asset id column holds the identifier's 32 bytes verbatim |
| Sql.DecodeAssetId | src/sql.rs:118-126 | decoding succeeds exactly when the column has 32 bytes the identifier's check accepts, and returns those bytes |
| Sql.AssetIdRoundTrip | src/sql.rs:109-126 | every valid identifier written and read back is unchanged |
| Sql.SmallAmountCounterexample | src/sql.rs:37 | the amount 5 is written as decimal 5 and is refused on reading, while the corrected decoder reads 5 |
| Sql.ScaleCounterexample | src/sql.rs:71 | the integer decimal 2^120·10 written with scale −1 decodes to 2^120, while the corrected decoder reads 10·2^120 |
| Sql.FromBigIntPadded | src/sql.rs:31-39 | corrected conversion: succeeds exactly when abs(v) < 2^128, yielding abs(v) |
| Sql.DecodeIntended | src/sql.rs:63-75 | corrected decoding by the decimal's integer value: Ok exactly when that value's magnitude is below 2^128 |
| Sql.AmountRoundTripIntended | src/sql.rs:10-12 | with the corrections, every amount in [0, 2^128) round-trips |
| Dex.Fields | src/component/dex.rs:95-107 | decoding the fields succeeds exactly when asset_id, previous_balance and new_balance are all present and convert, and yields the converted values; otherwise the first field that is absent or fails to convert, in the order asset_id, previous_balance, new_balance, decides the error: an absent one yields `MissingField` naming it, and a failing conversion yields `ConversionFailed` with that conversion's own error |
| Dex.TryFrom | src/component/dex.rs:87-129 | a kind outside `NAMES` fails with `UnrecognizedKind(kind)`; a payload that does not parse is malformed; otherwise success holds exactly when every field is present and converts, the variant matches the kind, and the event carries exactly the decoded fields |
| Dex.MissingFieldNamed | src/component/dex.rs:95-124 | once the message parses, an absent asset_id gives `MissingField("asset_id")`; an absent previous_balance after an asset_id that converts gives `MissingField("previous_balance")`; an absent new_balance after two fields that convert gives `MissingField("new_balance")` |
| Dex.Component.constructor | src/component/dex.rs:137-140 | `Component::new` keeps exactly the kinds of `NAMES` |
| Dex.Component.IsRelevant | src/component/dex.rs:160-162 | `is_relevant(s)` holds exactly when s is the credit or the debit kind |
| Dex.RelevanceAgreesWithDecoder | src/component/dex.rs:90-128 | a kind is relevant exactly when the decoder does not reject it as unrecognized |
| Dex.CheckedSub | src/component/dex.rs:44 | `checked_sub(a, b)` succeeds exactly when b ≤ a, and then b + result == a |
| Dex.Change | src/component/dex.rs:38-70 | the checked change succeeds exactly when a credit does not decrease, or a debit does not increase, the balance; then previous + signed change == new; otherwise the error is `BalanceDecreased` or `BalanceIncreased` with both balances |
| Dex.ChangeSign | src/component/dex.rs:44-70 | a credit's change is ≥ 0, a debit's ≤ 0, and an unchanged balance gives 0 |
| Dex.Transaction.Insert | src/component/dex.rs:49-58 | an insert appends exactly one row and changes nothing else |
| Dex.Index | src/component/dex.rs:37-84 | `index` succeeds exactly when the direction is permitted; it then appends exactly the row (asset_id, new − previous); on failure it returns the change's error and writes nothing |
| Dex.IndexEvent | src/component/dex.rs:164-172 | `index_event` fails with the decoder's error, or with the change's error, and then writes nothing; otherwise it appends exactly one row (asset_id, new − previous) |
| Dex.BalanceTransitionExamples | src/component/dex.rs:44-70 | credit 10→15 records 5; credit 15→10 fails; debit 15→10 records −5; debit 10→15 fails |
| Dex.DebitMessage | src/component/dex.rs:66-70 | for previous 10 and new 15, the debit's error text is "balance increased after dex credit: previous: 10, new: 15" |
| Pagination.WrappingSub | src/pagination.rs:24 | `overflowing_sub(..).0` is congruent to a − b modulo 2^64 and stays in the i64 range |
| Pagination.UnsignedAbs | src/pagination.rs:24 | `unsigned_abs` is the exact absolute value, even of `i64::MIN` |
| Pagination.DistanceBetween | src/pagination.rs:23-25 | the `+ 1` never overflows u64 (the result is at most 2^63 + 1); up to 2^63 apart the result is abs(a − b) + 1, further apart it wraps to 2^64 − abs(a − b) + 1 |
| Pagination.DistanceToSelf | src/pagination.rs:23-25 | `distance_between(a, a) == 1` |
| Pagination.DistanceOnCursorRange | src/pagination.rs:19-25 | on [MIN, MAX] = [0, i64::MAX] the distance is abs(a − b) + 1 |
| Pagination.DistanceSymmetric | src/pagination.rs:24 | the distance is symmetric for all i64 bounds |
| Pagination.DistanceWrapsBelowMin | src/pagination.rs:24 | bounds below MIN can wrap: `distance_between(i64::MAX, i64::MIN) == 2` |
| Pagination.FromRaw | src/pagination.rs:53-59 | a missing start becomes 0, a missing stop becomes i64::MAX, and present bounds are kept |
| Pagination.FromRequest | src/pagination.rs:76-81 | a query that does not parse gives the range [0, i64::MAX] |
| Pagination.Limit | src/pagination.rs:64-66 | `limit(n)` is at most n and at most the inclusive span, and equals one of them |
| Pagination.LimitWithoutBounds | src/pagination.rs:53-66 | with no bounds, `limit(n) == min(n, 2^63)` |
| Pagination.LimitWithinSpan | src/pagination.rs:64-66 | for non-negative bounds, the limit is at most abs(stop − start) + 1 |
| ValidatorComponent.PoolRateSumPrefix | src/component/validator.rs:90-92 | the community-pool sum over a prefix is at most the sum over all streams |
| ValidatorComponent.AddressStreamsCount | src/component/validator.rs:82-89 | each funding stream appears among the address streams as often as the matching to-address stream appears in the input |
| ValidatorComponent.InsertByRateFacts | src/component/validator.rs:95 | inserting one stream adds exactly that stream to the multiset |
| ValidatorComponent.InsertByRateSorted | src/component/validator.rs:95 | inserting one stream keeps a non-increasing sequence non-increasing |
| ValidatorComponent.InsertByRateWithRate | src/component/validator.rs:95 | an inserted stream goes before the streams of equal rate and does not reorder any rate class |
| ValidatorComponent.SortByRateDescCorrect | src/component/validator.rs:95 | the sort yields a permutation of its input in non-increasing rate order |
| ValidatorComponent.SortByRateDescStable | src/component/validator.rs:95 | for every rate, the streams of that rate keep their input order |
| ValidatorComponent.FlattenFundingStreams | src/component/validator.rs:79-97 | the loop returns the sum of the community-pool rates, and the address streams sorted by non-increasing rate: a permutation of the input's address streams with equal rates in input order |
| ValidatorComponent.FromRow | src/component/validator.rs:64-109 | a definition that does not parse gives `ColumnDecode` with index "3"; otherwise identity, name and voting power are the row's columns 0–2, description, website and enabled come from the definition, and the funding streams and pool rate are those of the loop |
| ValidatorComponent.SummaryFromRow | src/component/validator.rs:22-29 | the summary copies the name, the identity key bytes and the voting power unchanged |
| WebCommon.Get | src/web/common.rs:9 | `headers.get` finds a value exactly when a header of that name exists, and the value is the one stored under the first header of that name |
| WebCommon.ToStr | src/web/common.rs:9 | `to_str` succeeds exactly when every byte is visible ASCII or tab, and then keeps every byte as a character |
| WebCommon.AcceptsJson | src/web/common.rs:8-16 | no `Accept` header gives false; a value that is not visible ASCII gives false; otherwise true exactly when the value starts with "application/json" |
| WebCommon.AcceptsJsonOnBytes | src/web/common.rs:15 | for a visible-ASCII value, the result is true exactly when its first 16 bytes are those of "application/json" |
| WebCommon.NoAcceptHeaderExample | src/web/common.rs:9-10 | without an `Accept` header the answer is false |
| WebCommon.JsonPrefixExamples | src/web/common.rs:15 | "application/json" and "application/json; q=0.1" both give true |
| WebCommon.JsonListedLaterExample | src/web/common.rs:13-15 | "text/html, application/json" gives false |
| WebCommon.CaseSensitiveExample | src/web/common.rs:15 | "Application/JSON" gives false |
| WebCommon.FirstAcceptHeaderExample | src/web/common.rs:9-15 | with `Accept: text/html` before `Accept: application/json`, only the first is read and the answer is false |
| WebCommon.NotTextExample | src/web/common.rs:9 | "application/json" followed by the obs-text bytes 0xC3 0xA9 is not text, so the answer is false |

Helpers without a row are parts of the rows that use them:
- `Sql.MinimalLe`, `Sql.FromBytesLe` and `Sql.ToBytesLe` model num-bigint's byte conversions inside `Sql.FromBigInt` and `Sql.ToBigInt`.
- `Dex.Present`, `Dex.Converted`, `Dex.FromEvent` and `Dex.MessageFor` are the `ok_or`/`?` steps inside `Dex.Fields` and `Dex.TryFrom`.
- `Pagination.DefaultRaw` is `RawPagination::default`, used by `Pagination.FromRequest`.
- `WebCommon.IsVisibleAscii` is the byte test inside `WebCommon.ToStr`.
- `ValidatorComponent.InsertByRate` and `ValidatorComponent.SortByRateDesc` model `sort_by_key`, as used by `ValidatorComponent.FlattenFundingStreams` and proved in `ValidatorComponent.SortByRateDescCorrect` and `ValidatorComponent.SortByRateDescStable`.
- `Dex.DecimalString` is `Amount`'s `Display`, and `Dex.Message` holds the `anyhow!` texts of the decoding and balance errors, as checked in `Dex.DebitMessage`.
- `Sql.Message` holds the `anyhow!` texts of `Sql.Decode`'s errors.

## Left out

- Sql.AmountRoundTrip and Sql.SmallAmountUnreadable: both state `Decode(Encode(a))`. They assume Postgres and sqlx hand back the (unscaled digits, scale) pair that `Encode` wrote. The driver may return an integer with a nonzero scale instead, and `Decode` is sensitive to that: see the second row under "## Findings".
- Reading the NUMERIC or BYTEA value out of Postgres (`BigDecimal::decode`, `<[u8; 32]>::decode`) and writing it into the argument buffer belong to sqlx. The model starts from the decoded decimal or byte string.
- `BigDecimal::is_integer` is modelled by what it means: the value has no fractional part.
- Sql.DecodeAssetId: the identifier's own validity check (a field-element canonicity test in another crate) is a parameter, not modelled. The length check stands in for sqlx's `<[u8; 32]>::decode`; the `WrongLength` error and its length payload are the model's own, since sqlx's error is not modelled.
- `from_event`, `AssetId::try_from` and `Amount::try_from` decode protobuf and event attributes in other crates. They are parameters, and the wire types keep only their field shape.
- `init_chain` runs the DDL of `dex.sql`. That is database behaviour, so the table is modelled only by the rows appended to it.
- Dex.Index and Dex.IndexEvent: the database can also refuse the insert. That failure is not modelled.
- Rolling back a block's transaction after a failing event belongs to the indexer that owns the transaction. `Transaction` only accumulates rows.
- `attach_to_indexer`, the `AppView` async machinery and the `tracing` instrumentation are wiring, not logic.
- The `Cursor` trait is modelled only through its `i64` implementation, the one the source defines. `Query::try_from_uri` is foreign, so `FromRequest` takes its result.
- ValidatorComponent.FlattenFundingStreams: requires the community-pool sum to fit in a u16. Past that, `+=` panics in a debug build and wraps in a release build; neither is modelled. The chain's validator definitions keep the total rate far below 2^16.
- ValidatorComponent.FlattenFundingStreams: the library's in-place `sort_by_key` is modelled as a stable insertion sort on a sequence. The library's algorithm and the in-place update are not modelled; the order it produces is.
- ValidatorComponent.FromRow: typing the row's columns (`sqlx::FromRow::from_row` on a tuple) is foreign, so the row arrives typed. Parsing the definition is a parameter. Because it calls `FlattenFundingStreams`, it carries the same requirement that a parsed definition's community-pool sum fits in a u16.
- `Component::validators` and `Component::validator` are SQL queries, and `TEMPLATES` are HTML templates: I/O and presentation.
- WebCommon.Get: header names are taken as stored lower-case, as the HTTP library normalises them. Header-name parsing is not modelled.
- `SQLAmount::new`, `SQLAmount::amount`, `SQLAssetId::new`, `SQLAssetId::asset_id` and their `From` impls are identity wrappers. The model uses `Amount` and `AssetId` directly.
- `Type for SQLAmount` and `Type for SQLAssetId` only name column types.
- The `AcceptsJson` extractor only wraps `accepts_json` and is not modelled separately.

## Findings

| source | as written | input that shows it | evidently intended | confidence | as-written member | corrected member |
|---|---|---|---|---|---|---|
| src/sql.rs:37 | the minimal little-endian bytes must convert into `[u8; 16]`, so only magnitudes of exactly 16 bytes are accepted | the amount 5 is written as decimal 5; reading it back fails with "failed to convert BigInt into SQLAmount" | zero-pad any magnitude of at most 16 bytes, so every amount round-trips as the comment at src/sql.rs:10-12 promises (proved in `Sql.AmountRoundTripIntended`) | not executed; high | Sql.SmallAmountCounterexample | Sql.FromBigIntPadded |
| src/sql.rs:71 | `as_bigint_and_exponent().0` keeps the unscaled digits and drops the exponent | the integer decimal with unscaled digits 2^120 and scale −1 (value 10·2^120) decodes to 2^120 | decode the decimal's integer value | not executed; medium (it depends on whether the driver ever returns an integer with a nonzero scale) | Sql.ScaleCounterexample | Sql.DecodeIntended |
