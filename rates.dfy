/**
 * src/rates.ts: the SNX price buckets, the latest-rate snapshots and the two
 * event handlers. Each operation that changes the store is a method over a
 * `Schema.Store`, specified by a function of the store's old contents; the
 * properties of those functions are proved in module RatesProperties.
 *
 * Contract calls are inputs: the address resolver is a function from a
 * contract name to the `ExchangeRates` contract it resolves to, that contract
 * is a pair of functions (a reverting `currenciesUsingAggregator` returns
 * `None`), the proxy table is a map, and `Bytes#toString` is `keyString`.
 */
module Rates {
  import opened Wrappers
  import opened Numeric
  import opened Strings
  import opened Schema
  import Helpers

  /** The currency whose price is aggregated into buckets. */
  const SNX: string := "SNX"
  /** The two stable-dollar currencies seeded at one unit. */
  const SUSD: string := "sUSD"
  const NUSD: string := "nUSD"
  const DAY_SECONDS: nat := 86400
  const FIFTEEN_MINUTE_SECONDS: nat := 900
  /** `BigInt.fromI32(10).pow(18)`: one unit at 18 decimals. */
  const ONE_DOLLAR: int := 1_000_000_000_000_000_000

  /** A `RatesUpdated(bytes32[] currencyKeys, uint[] newRates)` log with its transaction and block. */
  datatype RatesUpdatedEvent = RatesUpdatedEvent(
    txHash: string,
    logIndex: nat,
    from: Address,
    gasPrice: nat,
    blockNumber: nat,
    timestamp: nat,
    currencyKeys: seq<Key>,
    newRates: seq<nat>)

  /**
   * An `AnswerUpdated` log of the price feed at `address`, with its
   * transaction and block. `timestamp` is the block's timestamp, which is
   * what the handler reads; the log's own `timestamp` parameter is not carried.
   */
  datatype AnswerUpdatedEvent = AnswerUpdatedEvent(
    txHash: string,
    logIndex: nat,
    blockNumber: nat,
    timestamp: nat,
    address: Address,
    roundId: nat,
    current: int)

  /** The two calls the handler makes on the `ExchangeRates` contract. */
  datatype ExchangeRates = ExchangeRates(
    currenciesUsingAggregator: Address -> Option<seq<Key>>,
    rateForCurrency: Key -> int)

  /** How `handleAggregatorAnswerUpdated` ends. */
  datatype AnswerOutcome =
    | Saved               // the currencies were resolved and their answers saved
    | Reverted            // `currenciesUsingAggregator` reverted: logged and skipped
    | UnmappedAggregator  // the feed has no proxy in the table: the lookup aborts the handler

  // ---------------------------------------------------------------------------
  // Running averages

  /**
   * The new average of a bucket that held `newCount - 1` observations
   * averaging `oldAveragePrice` once `newRate` is added, in truncating
   * integer arithmetic. This is not the true mean of the observations: each
   * step truncates and the next step builds on the truncated value.
   */
  function CalculateAveragePrice(oldAveragePrice: int, newRate: int, newCount: int): (r: int)
    requires newCount != 0
    ensures newCount == 1 ==> r == newRate
  {
    TruncDiv(oldAveragePrice * (newCount - 1) + newRate, newCount)
  }

  /** `(timestamp.toI32() / width).toString()`: the id of the window holding `timestamp`. */
  function BucketId(timestamp: nat, width: nat): (id: string)
    requires width > 0
    ensures IsDigits(id) && DigitsValue(id) == timestamp / width
  {
    var q := TruncDiv(timestamp, width);
    DecimalStringValue(q);
    IntToString(q)
  }

  /** `loadDailySNXPrice` and `loadFifteenMinuteSNXPrice`: a bucket with no observations. */
  function NewSNXPrice(): (p: SNXPrice)
    ensures p.count == 0 && p.averagePrice == 0
  {
    SNXPrice(0, 0)
  }

  /**
   * The bucket saved under `id`, or a new empty one when there is none. Among
   * non-empty saved buckets, an empty result means the bucket was missing.
   */
  function LoadOrCreate(prices: map<string, SNXPrice>, id: string): (p: SNXPrice)
    ensures id in prices ==> p == prices[id]
    ensures id !in prices ==> p == NewSNXPrice()
    ensures NonEmptyBuckets(prices) ==> (p.count == 0 <==> id !in prices)
  {
    if id in prices then prices[id] else NewSNXPrice()
  }

  /**
   * A bucket after one more observation of `rate`: its count goes up by one
   * and its average is recomputed with the new count, so an empty bucket
   * ends holding exactly `rate`.
   */
  function Record(p: SNXPrice, rate: int): (r: SNXPrice)
    ensures r.count == p.count + 1
    ensures r.averagePrice == CalculateAveragePrice(p.averagePrice, rate, r.count)
    ensures p.count == 0 ==> r == SNXPrice(1, rate)
  {
    var count := p.count + 1;
    SNXPrice(count, CalculateAveragePrice(p.averagePrice, rate, count))
  }

  /** A bucket after observing each of `rates` in turn: its count grows by the number of rates. */
  function RecordAll(p: SNXPrice, rates: seq<int>): (r: SNXPrice)
    ensures r.count == p.count + |rates|
    ensures rates == [] ==> r == p
  {
    if rates == [] then p else Record(RecordAll(p, rates[..|rates| - 1]), rates[|rates| - 1])
  }

  /**
   * The store after `handleSNXPrices(timestamp, rate)`: the daily and the
   * fifteen-minute bucket holding `timestamp` each gain one observation of
   * `rate`, created empty first if missing; nothing else changes.
   */
  function SnxPrices(st: StoreState, timestamp: nat, rate: int): StoreState
  {
    var day := BucketId(timestamp, DAY_SECONDS);
    var slot := BucketId(timestamp, FIFTEEN_MINUTE_SECONDS);
    st.(dailySNXPrices := st.dailySNXPrices[day := Record(LoadOrCreate(st.dailySNXPrices, day), rate)],
        fifteenMinuteSNXPrices :=
          st.fifteenMinuteSNXPrices[slot := Record(LoadOrCreate(st.fifteenMinuteSNXPrices, slot), rate)])
  }

  /** `handleSNXPrices`: records one SNX rate in the daily and the fifteen-minute bucket of `timestamp`. */
  method HandleSNXPrices(store: Store, timestamp: nat, rate: int)
    requires IsI32(timestamp)
    modifies store
    ensures store.State() == SnxPrices(old(store.State()), timestamp, rate)
  {
    var dayId := IntToString(TruncDiv(timestamp, 86400));
    var fifteenMinuteId := IntToString(TruncDiv(timestamp, 900));

    var daily := if dayId in store.dailySNXPrices then Some(store.dailySNXPrices[dayId]) else None;
    var fifteenMinute :=
      if fifteenMinuteId in store.fifteenMinuteSNXPrices then Some(store.fifteenMinuteSNXPrices[fifteenMinuteId])
      else None;

    var dailySNXPrice := if daily.None? then NewSNXPrice() else daily.value;
    var fifteenMinuteSNXPrice := if fifteenMinute.None? then NewSNXPrice() else fifteenMinute.value;

    dailySNXPrice := dailySNXPrice.(count := dailySNXPrice.count + 1);
    dailySNXPrice := dailySNXPrice.(averagePrice :=
      CalculateAveragePrice(dailySNXPrice.averagePrice, rate, dailySNXPrice.count));

    fifteenMinuteSNXPrice := fifteenMinuteSNXPrice.(count := fifteenMinuteSNXPrice.count + 1);
    fifteenMinuteSNXPrice := fifteenMinuteSNXPrice.(averagePrice :=
      CalculateAveragePrice(fifteenMinuteSNXPrice.averagePrice, rate, fifteenMinuteSNXPrice.count));

    assert dayId == BucketId(timestamp, DAY_SECONDS);
    assert fifteenMinuteId == BucketId(timestamp, FIFTEEN_MINUTE_SECONDS);
    assert dailySNXPrice == Record(LoadOrCreate(store.dailySNXPrices, dayId), rate);
    assert fifteenMinuteSNXPrice == Record(LoadOrCreate(store.fifteenMinuteSNXPrices, fifteenMinuteId), rate);
    store.dailySNXPrices := store.dailySNXPrices[dayId := dailySNXPrice];
    store.fifteenMinuteSNXPrices := store.fifteenMinuteSNXPrices[fifteenMinuteId := fifteenMinuteSNXPrice];
  }

  // ---------------------------------------------------------------------------
  // Latest rates

  /** The store after `addLatestRate(synth, rate)`: the snapshot of `synth` is `rate`, nothing else changes. */
  function WithLatestRate(st: StoreState, synth: string, rate: int): StoreState {
    st.(latestRates := st.latestRates[synth := rate])
  }

  /**
   * The store after `addDollar(dollarID)`: a missing snapshot is seeded with
   * one unit; an existing one, whatever its rate, is kept.
   */
  function WithDollar(st: StoreState, dollarID: string): (r: StoreState)
    ensures r.(latestRates := st.latestRates) == st
    ensures r.latestRates.Keys == st.latestRates.Keys + {dollarID}
    ensures r.latestRates[dollarID] == if dollarID in st.latestRates then st.latestRates[dollarID] else ONE_DOLLAR
    ensures forall synth :: synth in st.latestRates ==> r.latestRates[synth] == st.latestRates[synth]
  {
    if dollarID in st.latestRates then st else st.(latestRates := st.latestRates[dollarID := ONE_DOLLAR])
  }

  /** `addLatestRate`: overwrites the snapshot of `synth`, creating it if missing. */
  method AddLatestRate(store: Store, synth: string, rate: int)
    modifies store
    ensures store.State() == WithLatestRate(old(store.State()), synth, rate)
  {
    store.latestRates := store.latestRates[synth := rate];
  }

  /** `addDollar`: seeds the snapshot of `dollarID` with one unit when it has none. */
  method AddDollar(store: Store, dollarID: string)
    modifies store
    ensures store.State() == WithDollar(old(store.State()), dollarID)
  {
    if dollarID !in store.latestRates {
      store.latestRates := store.latestRates[dollarID := ONE_DOLLAR];
    }
  }

  // ---------------------------------------------------------------------------
  // handleRatesUpdated

  /** The id of a per-currency record: transaction hash, '-', currency name; the name can be read back. */
  function RecordId(txHash: string, synth: string): (id: string)
    ensures |id| == |txHash| + 1 + |synth|
    ensures id[..|txHash| + 1] == txHash + "-"
    ensures id[|txHash| + 1..] == synth
  {
    txHash + "-" + synth
  }

  /**
   * The id of a `RatesUpdated` entity: transaction hash, '-', log index in
   * decimal; the index can be read back.
   */
  function EventId(txHash: string, logIndex: nat): (id: string)
    ensures |id| > |txHash| + 1
    ensures id[..|txHash| + 1] == txHash + "-"
    ensures IsDigits(id[|txHash| + 1..]) && DigitsValue(id[|txHash| + 1..]) == logIndex
  {
    var digits := DecimalString(logIndex);
    DecimalStringValue(logIndex);
    assert (txHash + "-" + digits)[|txHash| + 1..] == digits;
    txHash + "-" + digits
  }

  /** One pass of the loop of `handleRatesUpdated`, for the entry at index `i`. */
  function RatesUpdatedEntry(st: StoreState, ev: RatesUpdatedEvent, keyString: Key -> string, i: nat): StoreState
    requires i < |ev.currencyKeys| && i < |ev.newRates|
  {
    var key := ev.currencyKeys[i];
    var synth := keyString(key);
    if synth == "" then st
    else
      var rate := ev.newRates[i];
      var saved := st.(rateUpdates := st.rateUpdates[RecordId(ev.txHash, synth) :=
                         RateUpdate(ev.blockNumber, ev.timestamp, key, synth, rate)]);
      var priced := if synth == SNX then SnxPrices(saved, ev.timestamp, rate) else saved;
      WithLatestRate(priced, synth, rate)
  }

  /** The first `n` passes of the loop of `handleRatesUpdated`. */
  function RatesUpdatedLoop(st: StoreState, ev: RatesUpdatedEvent, keyString: Key -> string, n: nat): StoreState
    requires n <= |ev.currencyKeys| <= |ev.newRates|
  {
    if n == 0 then st
    else RatesUpdatedEntry(RatesUpdatedLoop(st, ev, keyString, n - 1), ev, keyString, n - 1)
  }

  /** The store before the loop of `handleRatesUpdated`: dollars seeded and the event saved. */
  function RatesUpdatedLogged(st: StoreState, ev: RatesUpdatedEvent): StoreState {
    var seeded := WithDollar(WithDollar(st, SUSD), NUSD);
    seeded.(ratesUpdated := seeded.ratesUpdated[EventId(ev.txHash, ev.logIndex) :=
              Schema.RatesUpdated(ev.currencyKeys, ev.newRates, ev.timestamp, ev.blockNumber, ev.from, ev.gasPrice)])
  }

  /** The store after `handleRatesUpdated(ev)`. */
  function RatesUpdatedEffect(st: StoreState, ev: RatesUpdatedEvent, keyString: Key -> string): StoreState
    requires |ev.currencyKeys| <= |ev.newRates|
  {
    RatesUpdatedLoop(RatesUpdatedLogged(st, ev), ev, keyString, |ev.currencyKeys|)
  }

  /**
   * `handleRatesUpdated`: seeds the dollar snapshots, saves the event, then
   * for every entry whose key is not blank saves a `RateUpdate`, feeds SNX
   * rates to the buckets and overwrites the currency's snapshot.
   */
  method HandleRatesUpdated(store: Store, ev: RatesUpdatedEvent, keyString: Key -> string)
    requires |ev.currencyKeys| <= |ev.newRates|
    requires IsI32(ev.timestamp)
    modifies store
    ensures store.State() == RatesUpdatedEffect(old(store.State()), ev, keyString)
  {
    AddDollar(store, SUSD);
    AddDollar(store, NUSD);

    var entity := Schema.RatesUpdated(ev.currencyKeys, ev.newRates, ev.timestamp, ev.blockNumber, ev.from, ev.gasPrice);
    store.ratesUpdated := store.ratesUpdated[ev.txHash + "-" + DecimalString(ev.logIndex) := entity];

    var keys := entity.currencyKeys;
    var rates := ev.newRates;
    ghost var start := store.State();
    for i := 0 to |entity.currencyKeys|
      invariant store.State() == RatesUpdatedLoop(start, ev, keyString, i)
    {
      if keyString(keys[i]) != "" {
        var synth := keyString(keys[i]);
        var rateEntity := RateUpdate(ev.blockNumber, ev.timestamp, keys[i], synth, rates[i]);
        store.rateUpdates := store.rateUpdates[ev.txHash + "-" + synth := rateEntity];
        if synth == "SNX" {
          HandleSNXPrices(store, ev.timestamp, rateEntity.rate);
        }
        AddLatestRate(store, rateEntity.synth, rateEntity.rate);
      }
    }
  }

  // ---------------------------------------------------------------------------
  // handleAggregatorAnswerUpdated

  /** The name "ExchangeRates" fits the 32 bytes of a contract name. */
  lemma ExchangeRatesNameFits()
    ensures |Utf8("ExchangeRates")| == 13
  {
    Utf8OfAscii("ExchangeRates");
  }

  /** `strToBytes('ExchangeRates', 32)`: the name the resolver is asked for. */
  function ExchangeRatesName(): (name: seq<byte>)
    ensures |name| == 32
    ensures name[..13] == Utf8("ExchangeRates")
    ensures forall i :: 13 <= i < 32 ==> name[i] == 0
  {
    ExchangeRatesNameFits();
    Helpers.ZeroPadded(Utf8("ExchangeRates"), 32)
  }

  /** The store after `createRates(ev, key, rate)`. */
  function CreateRatesEffect(st: StoreState, ev: AnswerUpdatedEvent, key: Key, rate: int, keyString: Key -> string)
    : StoreState
  {
    var synth := keyString(key);
    var id := RecordId(ev.txHash, synth);
    var answered := st.(aggregatorAnswers := st.aggregatorAnswers[id :=
                          AggregatorAnswer(ev.blockNumber, ev.timestamp, key, synth, rate, ev.roundId, ev.address)]);
    var latest := WithLatestRate(answered, synth, rate);
    var saved := latest.(rateUpdates := latest.rateUpdates[id := RateUpdate(ev.blockNumber, ev.timestamp, key, synth, rate)]);
    if synth == SNX then SnxPrices(saved, ev.timestamp, rate) else saved
  }

  /** The first `n` passes of the loop of `handleAggregatorAnswerUpdated` over the resolved keys. */
  function AnswerLoop(st: StoreState, ev: AnswerUpdatedEvent, exrates: ExchangeRates, keys: seq<Key>,
                      keyString: Key -> string, n: nat): StoreState
    requires n <= |keys|
  {
    if n == 0 then st
    else
      var prev := AnswerLoop(st, ev, exrates, keys, keyString, n - 1);
      var key := keys[n - 1];
      if keyString(key) == "" then prev
      else CreateRatesEffect(prev, ev, key, exrates.rateForCurrency(key), keyString)
  }

  /** How the handler ends for `ev`, given the resolver and the proxy table. */
  function AnswerOutcomeOf(ev: AnswerUpdatedEvent, resolver: seq<byte> -> ExchangeRates,
                           proxies: map<Address, Address>): AnswerOutcome
  {
    if ev.address !in proxies then UnmappedAggregator
    else if resolver(ExchangeRatesName()).currenciesUsingAggregator(proxies[ev.address]).None? then Reverted
    else Saved
  }

  /** The store after `handleAggregatorAnswerUpdated(ev)`; unchanged unless the outcome is `Saved`. */
  function AnswerEffect(st: StoreState, ev: AnswerUpdatedEvent, resolver: seq<byte> -> ExchangeRates,
                        proxies: map<Address, Address>, keyString: Key -> string): (r: StoreState)
    ensures AnswerOutcomeOf(ev, resolver, proxies) != Saved ==> r == st
  {
    if ev.address !in proxies then st
    else
      var exrates := resolver(ExchangeRatesName());
      match exrates.currenciesUsingAggregator(proxies[ev.address])
      case None => st
      case Some(keys) => AnswerLoop(st, ev, exrates, keys, keyString, |keys|)
  }

  /**
   * `createRates`: saves the answer, overwrites the snapshot, mirrors the
   * answer as a `RateUpdate` and feeds an SNX rate to the buckets.
   */
  method CreateRates(store: Store, ev: AnswerUpdatedEvent, currencyKey: Key, rate: int, keyString: Key -> string)
    requires IsI32(ev.timestamp)
    modifies store
    ensures store.State() == CreateRatesEffect(old(store.State()), ev, currencyKey, rate, keyString)
  {
    var entity := AggregatorAnswer(ev.blockNumber, ev.timestamp, currencyKey, keyString(currencyKey), rate,
                                   ev.roundId, ev.address);
    store.aggregatorAnswers := store.aggregatorAnswers[ev.txHash + "-" + keyString(currencyKey) := entity];

    AddLatestRate(store, entity.synth, entity.rate);

    var rateEntity := RateUpdate(entity.block, entity.timestamp, currencyKey, entity.synth, entity.rate);
    store.rateUpdates := store.rateUpdates[ev.txHash + "-" + entity.synth := rateEntity];
    if keyString(entity.currencyKey) == "SNX" {
      HandleSNXPrices(store, entity.timestamp, entity.rate);
    }
  }

  /** The loop of `handleAggregatorAnswerUpdated`: `createRates` for every non-blank key. */
  method CreateAllRates(store: Store, ev: AnswerUpdatedEvent, exrates: ExchangeRates, currencyKeys: seq<Key>,
                        keyString: Key -> string)
    requires IsI32(ev.timestamp)
    modifies store
    ensures store.State() == AnswerLoop(old(store.State()), ev, exrates, currencyKeys, keyString, |currencyKeys|)
  {
    for i := 0 to |currencyKeys|
      invariant store.State() == AnswerLoop(old(store.State()), ev, exrates, currencyKeys, keyString, i)
    {
      if keyString(currencyKeys[i]) != "" {
        CreateRates(store, ev, currencyKeys[i], exrates.rateForCurrency(currencyKeys[i]), keyString);
      }
    }
  }

  /**
   * `handleAggregatorAnswerUpdated`: resolves the `ExchangeRates` contract,
   * looks up the feed's proxy, asks which currencies use it and, unless the
   * call reverts, creates the records of every non-blank currency key.
   */
  method HandleAggregatorAnswerUpdated(store: Store, ev: AnswerUpdatedEvent,
                                       resolver: seq<byte> -> ExchangeRates,
                                       proxies: map<Address, Address>,
                                       keyString: Key -> string)
    returns (outcome: AnswerOutcome)
    requires IsI32(ev.timestamp)
    modifies store
    ensures outcome == AnswerOutcomeOf(ev, resolver, proxies)
    ensures store.State() == AnswerEffect(old(store.State()), ev, resolver, proxies, keyString)
  {
    ExchangeRatesNameFits();
    var name := Helpers.StrToBytes("ExchangeRates", 32);
    var exrates := resolver(name[..]);

    if ev.address !in proxies {
      return UnmappedAggregator;
    }
    var tryCurrencyKeys := exrates.currenciesUsingAggregator(proxies[ev.address]);
    if tryCurrencyKeys.None? {
      return Reverted;
    }

    CreateAllRates(store, ev, exrates, tryCurrencyKeys.value, keyString);
    return Saved;
  }
}
