/**
 * The subgraph's entities and the entity store that event handlers load
 * from and save to. Each entity kind is a map from entity id to entity; a
 * save overwrites the whole entity under its id and nothing is ever removed.
 */
module Schema {
  import opened Strings

  /** A `bytes32` currency key such as "sUSD" padded with zero bytes. */
  type Key = seq<byte>

  /** A 20-byte account or contract address. */
  type Address = seq<byte>

  /** One `RatesUpdated` event as recorded, keyed by transaction hash and log index. */
  datatype RatesUpdated = RatesUpdated(
    currencyKeys: seq<Key>,
    newRates: seq<int>,
    timestamp: nat,
    block: nat,
    from: Address,
    gasPrice: nat)

  /** One rate observation for one currency, keyed by transaction hash and currency name. */
  datatype RateUpdate = RateUpdate(
    block: nat,
    timestamp: nat,
    currencyKey: Key,
    synth: string,
    rate: int)

  /** One price-feed answer for one currency, keyed like `RateUpdate`. */
  datatype AggregatorAnswer = AggregatorAnswer(
    block: nat,
    timestamp: nat,
    currencyKey: Key,
    synth: string,
    rate: int,
    roundId: int,
    aggregator: Address)

  /** A `DailySNXPrice` or `FifteenMinuteSNXPrice` bucket, keyed by its window number. */
  datatype SNXPrice = SNXPrice(count: nat, averagePrice: int)

  /**
   * The contents of the store as a value. `latestRates` maps a currency name
   * to the `rate` field of its `LatestRate` entity, its only field.
   */
  datatype StoreState = StoreState(
    ratesUpdated: map<string, RatesUpdated>,
    rateUpdates: map<string, RateUpdate>,
    aggregatorAnswers: map<string, AggregatorAnswer>,
    latestRates: map<string, int>,
    dailySNXPrices: map<string, SNXPrice>,
    fifteenMinuteSNXPrices: map<string, SNXPrice>)

  /** Every bucket in the store holds at least one observation. */
  ghost predicate Valid(st: StoreState) {
    NonEmptyBuckets(st.dailySNXPrices) && NonEmptyBuckets(st.fifteenMinuteSNXPrices)
  }

  /** Every bucket has observed at least one rate. */
  ghost predicate NonEmptyBuckets(prices: map<string, SNXPrice>) {
    forall id :: id in prices ==> prices[id].count >= 1
  }

  /** No entity of any kind disappears between two states. */
  ghost predicate Grows(before: StoreState, after: StoreState) {
    && before.ratesUpdated.Keys <= after.ratesUpdated.Keys
    && before.rateUpdates.Keys <= after.rateUpdates.Keys
    && before.aggregatorAnswers.Keys <= after.aggregatorAnswers.Keys
    && before.latestRates.Keys <= after.latestRates.Keys
    && before.dailySNXPrices.Keys <= after.dailySNXPrices.Keys
    && before.fifteenMinuteSNXPrices.Keys <= after.fifteenMinuteSNXPrices.Keys
  }

  /** The entity store, one mutable map per entity kind. */
  class Store {
    var ratesUpdated: map<string, RatesUpdated>
    var rateUpdates: map<string, RateUpdate>
    var aggregatorAnswers: map<string, AggregatorAnswer>
    var latestRates: map<string, int>
    var dailySNXPrices: map<string, SNXPrice>
    var fifteenMinuteSNXPrices: map<string, SNXPrice>

    ghost function State(): StoreState
      reads this
    {
      StoreState(ratesUpdated, rateUpdates, aggregatorAnswers, latestRates,
                 dailySNXPrices, fifteenMinuteSNXPrices)
    }

    /** A store with no entities. */
    constructor ()
      ensures State() == StoreState(map[], map[], map[], map[], map[], map[])
      ensures Valid(State())
    {
      ratesUpdated, rateUpdates, aggregatorAnswers := map[], map[], map[];
      latestRates, dailySNXPrices, fifteenMinuteSNXPrices := map[], map[], map[];
    }
  }
}
