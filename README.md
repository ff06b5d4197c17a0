# Synthetix rates subgraph: rate bookkeeping

A Dafny model of the rate bookkeeping of the Synthetix rates subgraph. The
subgraph keeps a store of keyed entities that two event handlers update:

- `RatesUpdated`: the raw log of an oracle batch, saved under `txHash-logIndex`.
- `RateUpdate`: one rate per currency and transaction, saved under `txHash-currency`.
- `AggregatorAnswer`: one price-feed answer per currency and transaction, saved under `txHash-currency`.
- `LatestRate`: the latest rate of each currency.
- `DailySNXPrice` and `FifteenMinuteSNXPrice`: count and running average of the
  SNX rates seen in each day and in each fifteen-minute window.

How the code is modelled:

- The store is the class `Schema.Store`, with one map per entity kind.
- Every handler is a method that updates the store in place. Its `ensures`
  states the new store as a function of the old one: `Rates.SnxPrices`,
  `Rates.RatesUpdatedEffect`, `Rates.AnswerEffect` and so on.
- Module `RatesProperties` proves what those functions guarantee:
  - how the running average is updated and where it ends up;
  - that each handler touches exactly the right buckets;
  - that the last entry for a currency wins;
  - that a reverted lookup changes nothing;
  - that every bucket stays non-empty and no entity disappears (`Schema.Valid` and `Schema.Grows`). This is a store invariant proved of every handler by the `*KeepsValid` lemmas. The handler methods neither require nor ensure it, because the code does not depend on it.
- `Helpers` models `src/lib/helpers.ts`:
  - the fixed-length byte encoding `strToBytes` (a method filling a fresh `array<byte>`);
  - the `sUSD` key;
  - the window id `getTimeID`;
  - the read-only `getLatestRate`.
- `Util` models what `src/lib/util.ts` adds.

Arithmetic follows the code:

- `BigInt.div` and the `i32` `/` truncate toward zero. Both are
  `Numeric.TruncDiv`, not Dafny's Euclidean `/`.
- Window ids are decimal strings. `Strings.DigitsValue` reads one back, so the
  model can state which number an id names.

External calls are inputs:

- The address resolver is a function from a contract name to an `ExchangeRates` value.
- That value holds `currenciesUsingAggregator`, returning `None` when the call
  reverts, and `rateForCurrency`.
- The feed-to-proxy table is a `map`.
- `Bytes#toString` is a function `keyString`. The blank string `""` marks a padding slot.

Three behaviours of the code that the model reproduces as written:

- **Symbol encoding.** `strToBytes` has no bounds guard, so the model
  requires the UTF-8 encoding to fit (`Helpers.StrToBytes`) rather than
  truncating it.
- **Redelivery.** Redelivering a batch with SNX entries counts its SNX rates
  again (`RatesProperties.RatesUpdatedCountsEachDelivery`). Only the snapshots
  and the saved records come out as after one delivery
  (`RatesProperties.RatesUpdatedRecordsIdempotent`).
- **The average.** The truncating recurrence is not the mean of the
  observations (`RatesProperties.RecordAllIsNotTheMean`).

## Model

| member | source | states |
|---|---|---|
| Numeric.TruncDiv | src/rates.ts:37-42 | Division truncating toward zero, as `BigInt.div` and `i32` `/` do. The magnitude is the floor of the magnitudes' quotient. The sign is negative exactly when the operands' signs differ. It agrees with floor division for non-negative operands. |
| Numeric.TruncDivOfSmaller | src/rates.ts:37-42 | A non-negative numerator below the divisor truncates to zero. |
| Rates.CalculateAveragePrice | src/rates.ts:37-42 | The first observation of a bucket (new count 1) makes the average exactly the new rate. |
| RatesProperties.AverageWithinRange | src/rates.ts:37-42 | One averaging step keeps the result between any lower and upper bound that both the old average and the new rate respect. |
| Rates.NewSNXPrice | src/rates.ts:23-35 | A bucket that `loadDailySNXPrice` or `loadFifteenMinuteSNXPrice` creates has count 0 and average 0. |
| Rates.LoadOrCreate | src/rates.ts:48-57 | The saved bucket when there is one, otherwise a new empty one. When every saved bucket is non-empty, the result is empty exactly when the bucket was missing. |
| Rates.Record | src/rates.ts:59-67 | One observation raises the count by one and recomputes the average with the new count. An empty bucket ends holding exactly the rate, with count 1. |
| Rates.RecordAll | src/rates.ts:59-67 | Recording a sequence of rates in a bucket adds exactly its length to the count. No rates leave the bucket as it was. |
| RatesProperties.RecordAllWithinRange | src/rates.ts:59-67 | A bucket fed only rates between two bounds ends with an average between them. |
| RatesProperties.RecordAllTrace | src/rates.ts:59-67 | Rates 100, 200, 300 in a fresh bucket give the averages 100, 150, 200 with counts 1, 2, 3. |
| RatesProperties.RecordAllAtMostMean | src/rates.ts:59-67 | For non-negative rates, the truncated running average is non-negative and never exceeds the true mean (average times count is at most the sum). |
| RatesProperties.AveragingStepAtMostMean | src/rates.ts:37-42 | The inductive step of the previous row: one averaging step from an average at most the mean stays at most the new mean. |
| RatesProperties.RecordAllIsNotTheMean | src/rates.ts:59-67 | The recurrence is not the mean: rates 0, 1, 2 have mean 1, but the bucket ends at average 0. |
| RatesProperties.SmallAverages | src/rates.ts:37-42 | The two truncating steps of that trace: (0·1+1)/2 = 0 and (0·2+2)/3 = 0. |
| RatesProperties.SnxPricesEffect | src/rates.ts:44-71 | `handleSNXPrices` creates each missing bucket empty (count 0, average 0), then gives it exactly one observation. The daily and fifteen-minute counts each go up by one, and each average is recomputed with the new count. A new bucket ends at the rate itself. Every other bucket and every other entity kind is unchanged. |
| Rates.HandleSNXPrices | src/rates.ts:44-71 | The method leaves the store as `SnxPrices` of the old store. |
| RatesProperties.BucketIdBoundaries | src/rates.ts:45-46 | Day ids: 86399 ↦ "0" and 86400 ↦ "1". Fifteen-minute ids: 899 ↦ "0" and 900 ↦ "1". |
| Rates.BucketId | src/rates.ts:45-49 | A bucket id is a digit string that reads back as the timestamp divided by the window width. |
| RatesProperties.BucketIdSameWindow | src/rates.ts:45-49 | Two timestamps share a bucket id if and only if they fall in the same window. |
| RatesProperties.BucketIdIsGetTimeID | src/rates.ts:45-46 | The id `handleSNXPrices` computes inline equals `getTimeID` of the same timestamp and width. |
| RatesProperties.WithLatestRateEffect | src/rates.ts:73-80 | `addLatestRate(s, r)` leaves r as the snapshot of s, whether or not s had one. No other snapshot and no other entity changes. |
| Rates.AddLatestRate | src/rates.ts:73-80 | The method leaves the store as `WithLatestRate` of the old store. |
| Rates.WithDollar | src/rates.ts:82-90 | `addDollar(id)` ensures id has a snapshot. An existing snapshot keeps its rate; a missing one gets 10^18. No other snapshot and no other entity changes. |
| Rates.AddDollar | src/rates.ts:82-90 | The method leaves the store as `WithDollar` of the old store. |
| RatesProperties.WithDollarIdempotent | src/rates.ts:82-90 | Seeding a dollar twice is the same as seeding it once. |
| RatesProperties.RatesUpdatedLoggedEffect | src/rates.ts:93-103 | Before its loop, `handleRatesUpdated` does three things and nothing else: it saves the event under `txHash-logIndex`, adds snapshots for sUSD and nUSD, and leaves the buckets, rate updates and answers alone. Every snapshot that existed keeps its rate. |
| RatesProperties.RatesUpdatedKeepsOtherRates | src/rates.ts:92-124 | After `handleRatesUpdated`, a name other than sUSD and nUSD that no entry has keeps its old snapshot, or stays without one. |
| RatesProperties.SeededDollar | src/rates.ts:93-94 | Before the loop, each of sUSD and nUSD holds its old snapshot, or one unit when it had none. |
| RatesProperties.RatesUpdatedSeedsDollars | src/rates.ts:92-124 | After `handleRatesUpdated`, both dollars have snapshots. A dollar no entry names keeps its old rate, or one unit. |
| RatesProperties.RatesUpdatedSavesEvent | src/rates.ts:96-103 | `handleRatesUpdated` saves the event with all its fields under `txHash-logIndex` and writes no answer. |
| RatesProperties.RatesUpdatedEntryEffect | src/rates.ts:110-122 | One loop pass, by entity kind. A blank key changes nothing. Otherwise the pass writes the `RateUpdate` under `txHash-key` and overwrites the snapshot. Only an SNX key feeds the buckets. |
| RatesProperties.RatesUpdatedLoopLatestRate | src/rates.ts:109-123 | After the loop, every name's snapshot holds the rate of the last entry with that name. A name no entry has, and the blank name, keep the old snapshot or its absence. |
| RatesProperties.RatesUpdatedLoopRecords | src/rates.ts:109-123 | After the loop, the `RateUpdate` under `txHash-name` records the last entry with that name (key bytes, name, rate, block, timestamp). Names no entry has are untouched. |
| RatesProperties.RatesUpdatedLoopOtherRecords | src/rates.ts:109-123 | The loop writes no `RateUpdate` whose id does not start with the transaction's hash and `-`. |
| RatesProperties.RatesUpdatedLoopBuckets | src/rates.ts:109-123 | After the loop, the day and fifteen-minute buckets of the timestamp have recorded exactly the rates of the SNX entries, in order. Without SNX entries, no bucket changes. |
| RatesProperties.RatesUpdatedLoopFrame | src/rates.ts:109-123 | The loop saves no `RatesUpdated` event and no answer. |
| RatesProperties.FedBucketsStep | src/rates.ts:118-120 | Feeding one more SNX rate to a bucket is the same as feeding the extended sequence. |
| Rates.HandleRatesUpdated | src/rates.ts:92-124 | The method leaves the store as `RatesUpdatedEffect` of the old store. The loop invariant ties each prefix of the loop to `RatesUpdatedLoop`. |
| RatesProperties.RatesUpdatedRecordsIdempotent | src/rates.ts:92-124 | Delivering the same event twice leaves the snapshots, the rate updates, the saved events and the answers as after one delivery. |
| RatesProperties.RatesUpdatedBucketCounts | src/rates.ts:92-124 | `handleRatesUpdated` adds one observation per SNX entry to the day bucket and to the fifteen-minute bucket of the event. Without SNX entries, the buckets are unchanged. |
| RatesProperties.RatesUpdatedCountsEachDelivery | src/rates.ts:118-120 | Redelivering an event with SNX entries adds all its SNX rates to the day bucket again, so the store after two deliveries differs from the store after one. |
| Rates.RecordId | src/rates.ts:111 | A per-currency record id is the transaction hash, then '-', then the currency name, which can be read back from the id. The same id form is used at src/rates.ts:127 and src/rates.ts:139. |
| Rates.EventId | src/rates.ts:96 | An event id is the transaction hash, then '-', then a digit string that reads back as the log index. |
| RatesProperties.RecordIdInjective | src/rates.ts:111 | Two record ids of one transaction are equal if and only if the currency names are equal. |
| RatesProperties.NotRecordIdOf | src/rates.ts:111 | An id without the `txHash-` prefix is no record id of that transaction. |
| RatesProperties.LastIndex | src/rates.ts:109-123 | The last index below n whose key reads as the name. No later entry has that name. `None` means no entry below n has it. |
| Rates.ExchangeRatesName | src/rates.ts:154 | The resolver is asked for a 32-byte name: the 13 UTF-8 bytes of "ExchangeRates" followed by 19 zero bytes. |
| Rates.ExchangeRatesNameFits | src/rates.ts:154 | "ExchangeRates" encodes to 13 bytes and fits the 32-byte name. |
| RatesProperties.CreateRatesEffectOn | src/rates.ts:126-149 | `createRates` writes three records and may feed the buckets. It saves the answer under `txHash-key`, with round id and feed address. It overwrites the snapshot with the rate and mirrors the answer as a `RateUpdate` under the same id. Only an SNX key feeds the buckets. Saved events are untouched. |
| Rates.CreateRates | src/rates.ts:126-149 | The method leaves the store as `CreateRatesEffect` of the old store. |
| Rates.CreateAllRates | src/rates.ts:171-176 | The method leaves the store as `AnswerLoop` over all resolved keys. The loop invariant ties each prefix of the loop to `AnswerLoop`. |
| Rates.AnswerEffect | src/rates.ts:161-167 | The store is unchanged unless the outcome is `Saved`. A reverted lookup, or a feed missing from the proxy table, writes no entity of any kind. |
| Rates.HandleAggregatorAnswerUpdated | src/rates.ts:152-177 | The method reports `AnswerOutcomeOf` the inputs and leaves the store as `AnswerEffect` of the old store. |
| RatesProperties.AnswerLoopRecords | src/rates.ts:171-176 | After the loop, for every name, the `AggregatorAnswer` and the `RateUpdate` under `txHash-name` carry the same rate, and so does the snapshot. That rate is `rateForCurrency` of the last key with that name. A name no key has, and the blank name, keep all three as they were. |
| RatesProperties.AnswerLoopBuckets | src/rates.ts:171-176 | After the loop, the buckets of the timestamp have recorded exactly the rates of the SNX keys, in order. Without SNX keys, no bucket changes. |
| RatesProperties.AnswerLoopOtherRecords | src/rates.ts:171-176 | The loop of `handleAggregatorAnswerUpdated` writes no `AggregatorAnswer` and no `RateUpdate` whose id does not start with the transaction's hash and `-`. |
| RatesProperties.AnswerLoopFrame | src/rates.ts:171-176 | The loop saves no `RatesUpdated` event. |
| RatesProperties.SnxPricesKeepsValid | src/rates.ts:44-71 | `handleSNXPrices` keeps every bucket's count at least 1 and removes no entity. |
| RatesProperties.RatesUpdatedLoopKeepsValid | src/rates.ts:109-123 | The loop of `handleRatesUpdated` keeps every bucket non-empty and removes no entity. |
| RatesProperties.RatesUpdatedKeepsValid | src/rates.ts:92-124 | `handleRatesUpdated` keeps every bucket non-empty and removes no entity. |
| RatesProperties.AnswerLoopKeepsValid | src/rates.ts:171-176 | The loop of `handleAggregatorAnswerUpdated` keeps every bucket non-empty and removes no entity. |
| RatesProperties.AnswerKeepsValid | src/rates.ts:152-177 | `handleAggregatorAnswerUpdated` keeps every bucket non-empty and removes no entity, whatever the outcome. |
| Helpers.ZeroPadded | src/lib/helpers.ts:17-25 | The array `strToBytes` fills has exactly `length` bytes. The given bytes come first, and every later byte is zero. |
| Helpers.StrToBytes | src/lib/helpers.ts:17-25 | Requires the UTF-8 encoding to fit in `length` bytes, since the copy loop has no guard. Returns a fresh array equal to the zero-padded encoding. The identical `strToBytes` of src/lib/util.ts:17-25 is this same member. |
| Strings.Utf8 | src/lib/helpers.ts:18-20 | A string of n characters encodes to between n and 4n bytes. |
| Strings.EncodeChar | src/lib/helpers.ts:18 | A character's UTF-8 encoding has one to four bytes. It is a single byte, equal to the code point, exactly for ASCII. |
| Strings.Utf8OfAscii | src/lib/helpers.ts:18-20 | An ASCII string encodes to one byte per character, each byte equal to its character's code point. |
| Helpers.SUSD32 | src/lib/helpers.ts:27 | The 32-byte sUSD key is 's', 'U', 'S', 'D' followed by 28 zero bytes. |
| Helpers.GetTimeID | src/lib/helpers.ts:29-32 | For a non-negative timestamp and a positive width, the id is a digit string that reads back as the floor of the quotient. Requires i32 operands and excludes the division that overflows i32. |
| Helpers.GetTimeIDSameWindow | src/lib/helpers.ts:29-32 | Two timestamps get the same id if and only if they fall in the same window. |
| Helpers.GetTimeIDStepsAtMultiples | src/lib/helpers.ts:29-32 | The id at each multiple of the width is one more than the id a second earlier. |
| Helpers.GetLatestRate | src/lib/helpers.ts:44-51 | Returns `None` (the source's null) exactly when the currency has no snapshot, otherwise the stored rate. The store is not changed. |
| Strings.IntToString | src/lib/helpers.ts:31 | `i32#toString`: a non-empty string that starts with '-' exactly for a negative number. The rest is a digit string that reads back as the magnitude. |
| Strings.DecimalString | src/lib/helpers.ts:31 | The decimal rendering is a non-empty digit string without a leading zero. |
| Strings.DecimalStringValue | src/lib/helpers.ts:31 | Reading the decimal rendering of n gives back n. |
| Strings.DecimalStringInjective | src/lib/helpers.ts:31 | Two naturals render alike if and only if they are equal. |
| Strings.IntToStringInjective | src/lib/helpers.ts:31 | Two integers render alike if and only if they are equal. |
| Util.SUSD4 | src/lib/util.ts:28 | The 4-byte sUSD key is exactly 's', 'U', 'S', 'D', with no padding. |
| Util.SUSD4FillsItsLength | src/lib/util.ts:28 | "sUSD" encodes to exactly 4 bytes, so the precondition of `strToBytes` holds with nothing to spare. |
| Util.SUSD32ExtendsSUSD4 | src/lib/util.ts:27-28 | The 32-byte key begins with the 4-byte key and is zero after it. |
| Util.GetTimeIDAtFifteenMinutes | src/lib/util.ts:30-33 | With a width of 900, second 899 has id "0" and second 900 has id "1". |

## Left out

- `toDecimal` (in helpers.ts and util.ts) and `getUSDAmountFromAssetAmount` (in helpers.ts only). They divide in graph-ts `BigDecimal`, whose precision and rounding are not part of this model.
- `ZERO`, `ONE` and `ZERO_ADDRESS` are not used by any modelled code. `etherUnits` is used only by `getUSDAmountFromAssetAmount`. `ZERO_ADDRESS` is also an address parse.
- Contract binding and calls. `AddressResolver.bind`, `getAddress`, `ExchangeRates.bind`, `try_currenciesUsingAggregator` and `rateForCurrency` are on-chain calls. They become the `resolver` input and the `ExchangeRates` value, with a revert as `None`.
- Rates.HandleAggregatorAnswerUpdated: does not model a revert of `resolver.getAddress` or of `rateForCurrency`. Neither is a `try_` call, so either revert would abort the handler. Here the resolver and the rate lookup are total functions.
- `src/lib/contractsToProxies.ts` is not part of this model. The proxy lookup is the `proxies` map input.
- Rates.AnswerOutcomeOf: a feed missing from the proxy table yields `UnmappedAggregator` with the store unchanged. In the code, the lookup of the missing entry, or the parse of its result, aborts the handler, which also writes nothing.
- `readProxyAdressResolver` in `src/lib/hardcoded-contracts.ts` is constant configuration and is not part of this model. The resolver input stands for it.
- `Address.fromHexString` and `toHexString` are library parsing and rendering. Addresses are opaque byte sequences.
- `log.debug` and `log.error` are diagnostics only and are not modelled.
- Rates.HandleRatesUpdated: `timestamp.toI32()` is not modelled as wrapping. The handlers require the timestamp to fit in i32, and timestamps are naturals.
- Helpers.StrToBytes: a negative i32 `length` is not modelled. The length is a natural.
- Helpers.GetTimeID: requires i32 operands. It also excludes `I32_MIN / -1`, which overflows in the code.
- The `current` field of `AnswerUpdated` is carried in the event but unused, as in the code, which reads the rate from `rateForCurrency` instead.
- Generated-schema `load` and `save` are modelled only as map reads and writes. Entity objects, their field-by-field setters and string formatting of hashes (`toHex`) are not modelled; the transaction hash is a string input.
- Rates.HandleRatesUpdated: requires at least as many rates as currency keys. The contract that emits the event always gives equal lengths. The model therefore does not capture the abort the code would hit at an out-of-range `rates[i]`. It also excludes shorter rate lists that the code would get through, for example when the surplus keys are all blank.
- Helpers.StrToBytes: strings are sequences of Unicode scalar values. AssemblyScript strings are UTF-16 and can hold lone surrogates, which `toUTF8` encodes as three bytes each. The model cannot represent such strings. Every call site passes an ASCII literal.
