/**
 * What the rate bookkeeping of src/rates.ts guarantees, stated over the
 * functions that specify its methods.
 */
module RatesProperties {
  import opened Wrappers
  import opened Numeric
  import opened Strings
  import opened Schema
  import opened Rates
  import Helpers

  // ---------------------------------------------------------------------------
  // Running averages

  /** A natural between two multiples of a positive divisor has its quotient between the factors. */
  lemma QuotientBetween(x: nat, n: nat, lo: int, hi: int)
    requires n > 0 && lo * n <= x <= hi * n
    ensures lo <= x / n <= hi
  {
    var d := x / n;
    NatDivBounds(x, n);
    if d > hi {
      assert (hi + 1) * n == hi * n + n;
      MulMonotone(hi + 1, d, n);
    }
    if d < lo {
      assert (d + 1) * n == d * n + n;
      MulMonotone(d + 1, lo, n);
    }
  }

  /** One averaging step keeps the average between any bounds of the old average and the new rate. */
  lemma AverageWithinRange(oldAveragePrice: int, newRate: int, newCount: int, lo: int, hi: int)
    requires newCount >= 1
    requires lo <= oldAveragePrice <= hi && lo <= newRate <= hi
    ensures lo <= CalculateAveragePrice(oldAveragePrice, newRate, newCount) <= hi
  {
    var n := newCount;
    var x := oldAveragePrice * (n - 1) + newRate;
    MulMonotone(lo, oldAveragePrice, n - 1);
    MulMonotone(oldAveragePrice, hi, n - 1);
    assert lo * n == lo * (n - 1) + lo && hi * n == hi * (n - 1) + hi;
    assert lo * n <= x <= hi * n;
    if x >= 0 {
      QuotientBetween(x, n, lo, hi);
      assert CalculateAveragePrice(oldAveragePrice, newRate, n) == x / n;
    } else {
      assert (-hi) * n == -(hi * n) && (-lo) * n == -(lo * n);
      QuotientBetween(-x, n, -hi, -lo);
      assert CalculateAveragePrice(oldAveragePrice, newRate, n) == -((-x) / n);
    }
  }

  /** A bucket fed only rates between two bounds has its average between them too. */
  lemma {:induction false} RecordAllWithinRange(rates: seq<int>, lo: int, hi: int)
    requires rates != []
    requires forall i :: 0 <= i < |rates| ==> lo <= rates[i] <= hi
    ensures lo <= RecordAll(NewSNXPrice(), rates).averagePrice <= hi
  {
    var init := rates[..|rates| - 1];
    var last := rates[|rates| - 1];
    if init == [] {
      assert RecordAll(NewSNXPrice(), rates) == Record(NewSNXPrice(), last);
    } else {
      RecordAllWithinRange(init, lo, hi);
      var p := RecordAll(NewSNXPrice(), init);
      AverageWithinRange(p.averagePrice, last, p.count + 1, lo, hi);
    }
  }

  /** The successive averages of the rates 100, 200, 300 in a fresh bucket are 100, 150 and 200. */
  lemma RecordAllTrace()
    ensures RecordAll(NewSNXPrice(), [100]) == SNXPrice(1, 100)
    ensures RecordAll(NewSNXPrice(), [100, 200]) == SNXPrice(2, 150)
    ensures RecordAll(NewSNXPrice(), [100, 200, 300]) == SNXPrice(3, 200)
  {
    assert [100, 200, 300][..2] == [100, 200];
    assert [100, 200][..1] == [100];
    assert [100][..0] == [];
  }

  function Sum(rates: seq<int>): int {
    if rates == [] then 0 else Sum(rates[..|rates| - 1]) + rates[|rates| - 1]
  }

  /**
   * For non-negative rates the truncated running average never exceeds the
   * true mean: average * count <= sum of the rates.
   */
  lemma {:induction false} RecordAllAtMostMean(rates: seq<int>)
    requires forall i :: 0 <= i < |rates| ==> rates[i] >= 0
    ensures RecordAll(NewSNXPrice(), rates).averagePrice >= 0
    ensures RecordAll(NewSNXPrice(), rates).averagePrice * |rates| <= Sum(rates)
  {
    if rates != [] {
      var init := rates[..|rates| - 1];
      var last := rates[|rates| - 1];
      RecordAllAtMostMean(init);
      var p := RecordAll(NewSNXPrice(), init);
      var k := |init|;
      assert p.count == k;
      var q := CalculateAveragePrice(p.averagePrice, last, k + 1);
      AveragingStepAtMostMean(p.averagePrice, k, last, Sum(init));
      assert RecordAll(NewSNXPrice(), rates) == Record(p, last);
      assert Record(p, last).averagePrice == q;
    }
  }

  /** One averaging step from a non-negative average below the mean of `k` rates stays below the mean of `k + 1`. */
  lemma AveragingStepAtMostMean(avg: int, k: nat, last: int, sum: int)
    requires avg >= 0 && last >= 0 && avg * k <= sum
    ensures var q := CalculateAveragePrice(avg, last, k + 1);
      q >= 0 && q * (k + 1) <= sum + last
  {
    var n := k + 1;
    var x := avg * k + last;
    MulMonotone(0, avg, k);
    assert x >= 0;
    assert avg * (n - 1) == avg * k;
    var q := CalculateAveragePrice(avg, last, n);
    assert q == x / n;
    NatDivNonNegative(x, n);
    NatDivBounds(x, n);
  }

  /** The running average is not the mean: rates 0, 1, 2 average 1 but the bucket ends at 0. */
  lemma RecordAllIsNotTheMean()
    ensures Sum([0, 1, 2]) / 3 == 1
    ensures RecordAll(NewSNXPrice(), [0, 1, 2]).averagePrice == 0
  {
    var s1: seq<int> := [0];
    var s2 := s1 + [1];
    var s3 := s2 + [2];
    assert s3 == [0, 1, 2];
    SumSnoc([], 0);
    SumSnoc(s1, 1);
    SumSnoc(s2, 2);
    assert Sum(s3) == 3;
    RecordAllSnoc(NewSNXPrice(), [], 0);
    RecordAllSnoc(NewSNXPrice(), s1, 1);
    RecordAllSnoc(NewSNXPrice(), s2, 2);
    var p1 := Record(NewSNXPrice(), 0);
    assert p1 == SNXPrice(1, 0);
    SmallAverages();
  }

  /** The two averaging steps of the trace above, each truncated to zero. */
  lemma SmallAverages()
    ensures Record(SNXPrice(1, 0), 1) == SNXPrice(2, 0)
    ensures Record(SNXPrice(2, 0), 2).averagePrice == 0
  {
    TruncDivOfSmaller(1, 2);
    TruncDivOfSmaller(2, 3);
    assert 0 * (2 - 1) + 1 == 1 && 0 * (3 - 1) + 2 == 2;
  }

  lemma RecordAllSnoc(p: SNXPrice, rates: seq<int>, rate: int)
    ensures RecordAll(p, rates + [rate]) == Record(RecordAll(p, rates), rate)
  {
    assert (rates + [rate])[..|rates|] == rates;
  }

  lemma SumSnoc(rates: seq<int>, rate: int)
    ensures Sum(rates + [rate]) == Sum(rates) + rate
  {
    assert (rates + [rate])[..|rates|] == rates;
  }

  // ---------------------------------------------------------------------------
  // The SNX buckets

  /**
   * `handleSNXPrices(timestamp, rate)` gives the daily and the fifteen-minute
   * bucket of `timestamp` one more observation each: the count goes up by
   * one, the average is recomputed with the new count, a missing bucket is
   * created empty first (so it ends holding exactly `rate`), and no other
   * bucket and no other entity changes.
   */
  lemma SnxPricesEffect(st: StoreState, timestamp: nat, rate: int)
    ensures var r := SnxPrices(st, timestamp, rate);
      var day := BucketId(timestamp, DAY_SECONDS);
      && r.dailySNXPrices.Keys == st.dailySNXPrices.Keys + {day}
      && r.dailySNXPrices[day].count == LoadOrCreate(st.dailySNXPrices, day).count + 1
      && r.dailySNXPrices[day].averagePrice
         == CalculateAveragePrice(LoadOrCreate(st.dailySNXPrices, day).averagePrice, rate, r.dailySNXPrices[day].count)
      && (day !in st.dailySNXPrices ==> r.dailySNXPrices[day] == SNXPrice(1, rate))
      && (forall id :: id in st.dailySNXPrices && id != day ==> r.dailySNXPrices[id] == st.dailySNXPrices[id])
    ensures var r := SnxPrices(st, timestamp, rate);
      var slot := BucketId(timestamp, FIFTEEN_MINUTE_SECONDS);
      && r.fifteenMinuteSNXPrices.Keys == st.fifteenMinuteSNXPrices.Keys + {slot}
      && r.fifteenMinuteSNXPrices[slot].count == LoadOrCreate(st.fifteenMinuteSNXPrices, slot).count + 1
      && r.fifteenMinuteSNXPrices[slot].averagePrice
         == CalculateAveragePrice(LoadOrCreate(st.fifteenMinuteSNXPrices, slot).averagePrice, rate,
                                  r.fifteenMinuteSNXPrices[slot].count)
      && (slot !in st.fifteenMinuteSNXPrices ==> r.fifteenMinuteSNXPrices[slot] == SNXPrice(1, rate))
      && (forall id :: id in st.fifteenMinuteSNXPrices && id != slot ==>
            r.fifteenMinuteSNXPrices[id] == st.fifteenMinuteSNXPrices[id])
    ensures var r := SnxPrices(st, timestamp, rate);
      r.(dailySNXPrices := st.dailySNXPrices, fifteenMinuteSNXPrices := st.fifteenMinuteSNXPrices) == st
  {
  }

  // ---------------------------------------------------------------------------
  // Window ids

  /** The day id changes between seconds 86399 and 86400, the fifteen-minute id between 899 and 900. */
  lemma BucketIdBoundaries()
    ensures BucketId(86399, DAY_SECONDS) == "0" && BucketId(86400, DAY_SECONDS) == "1"
    ensures BucketId(899, FIFTEEN_MINUTE_SECONDS) == "0" && BucketId(900, FIFTEEN_MINUTE_SECONDS) == "1"
  {
    assert 86399 / 86400 == 0 && 86400 / 86400 == 1;
    assert 899 / 900 == 0 && 900 / 900 == 1;
  }

  /** Two timestamps share a bucket exactly when they fall in the same window. */
  lemma BucketIdSameWindow(t1: nat, t2: nat, width: nat)
    requires width > 0
    ensures BucketId(t1, width) == BucketId(t2, width) <==> t1 / width == t2 / width
  {
    DecimalStringInjective(t1 / width, t2 / width);
  }

  /** The id `handleSNXPrices` computes inline is the one `getTimeID` computes. */
  lemma BucketIdIsGetTimeID(timestamp: nat, width: nat)
    requires IsI32(timestamp) && IsI32(width) && width > 0
    ensures BucketId(timestamp, width) == Helpers.GetTimeID(timestamp, width)
  {
  }

  // ---------------------------------------------------------------------------
  // Snapshots

  /**
   * `addLatestRate(synth, rate)` leaves `rate` as the snapshot of `synth`,
   * whether or not it had one, and changes no other snapshot and no other entity.
   */
  lemma WithLatestRateEffect(st: StoreState, synth: string, rate: int)
    ensures var r := WithLatestRate(st, synth, rate);
      && synth in r.latestRates && r.latestRates[synth] == rate
      && r.latestRates.Keys == st.latestRates.Keys + {synth}
      && (forall s :: s in st.latestRates && s != synth ==> r.latestRates[s] == st.latestRates[s])
      && r.(latestRates := st.latestRates) == st
  {
  }

  /** Seeding a dollar twice is seeding it once. */
  lemma WithDollarIdempotent(st: StoreState, dollarID: string)
    ensures WithDollar(WithDollar(st, dollarID), dollarID) == WithDollar(st, dollarID)
  {
  }

  // ---------------------------------------------------------------------------
  // Last write wins

  function Get<V>(m: map<string, V>, k: string): Option<V> {
    if k in m then Some(m[k]) else None
  }

  lemma MapsEqualByGet<V>(m1: map<string, V>, m2: map<string, V>)
    requires forall k :: Get(m1, k) == Get(m2, k)
    ensures m1 == m2
  {
    assert m1.Keys == m2.Keys by {
      forall k ensures k in m1 <==> k in m2 {
        assert Get(m1, k) == Get(m2, k);
      }
    }
    forall k | k in m1 ensures m1[k] == m2[k] {
      assert Get(m1, k) == Get(m2, k);
    }
  }

  /** The last index below `n` whose key reads as `synth`, if any. */
  function LastIndex(keys: seq<Key>, keyString: Key -> string, synth: string, n: nat): (r: Option<nat>)
    requires n <= |keys|
    ensures r.Some? ==> r.value < n && keyString(keys[r.value]) == synth
    ensures r.Some? ==> forall j :: r.value < j < n ==> keyString(keys[j]) != synth
    ensures r.None? ==> forall j :: 0 <= j < n ==> keyString(keys[j]) != synth
  {
    if n == 0 then None
    else if keyString(keys[n - 1]) == synth then Some(n - 1)
    else LastIndex(keys, keyString, synth, n - 1)
  }

  /** The last entry below `n` that writes under the name `synth`: none for the blank name. */
  function LastWrite(keys: seq<Key>, keyString: Key -> string, synth: string, n: nat): Option<nat>
    requires n <= |keys|
  {
    if synth == "" then None else LastIndex(keys, keyString, synth, n)
  }

  /** Record ids of one transaction differ exactly when the names differ. */
  lemma RecordIdInjective(txHash: string, s: string, t: string)
    ensures RecordId(txHash, s) == RecordId(txHash, t) <==> s == t
  {
    if RecordId(txHash, s) == RecordId(txHash, t) {
      var p := |txHash| + 1;
      assert s == RecordId(txHash, s)[p..];
      assert t == RecordId(txHash, t)[p..];
    }
  }

  /** An id that is not `txHash-` followed by something is no record id of that transaction. */
  lemma NotRecordIdOf(txHash: string, id: string, s: string)
    requires !(|id| > |txHash| && id[..|txHash| + 1] == txHash + "-")
    ensures id != RecordId(txHash, s)
  {
  }

  /** What one pass of the loop of `handleRatesUpdated` does to each kind of entity. */
  lemma RatesUpdatedEntryEffect(st: StoreState, ev: RatesUpdatedEvent, keyString: Key -> string, i: nat)
    requires i < |ev.currencyKeys| <= |ev.newRates|
    ensures var out := RatesUpdatedEntry(st, ev, keyString, i);
      var key := ev.currencyKeys[i];
      var synth := keyString(key);
      var rate := ev.newRates[i];
      && out.ratesUpdated == st.ratesUpdated
      && out.aggregatorAnswers == st.aggregatorAnswers
      && out.rateUpdates == (if synth == "" then st.rateUpdates
                             else st.rateUpdates[RecordId(ev.txHash, synth) :=
                                    RateUpdate(ev.blockNumber, ev.timestamp, key, synth, rate)])
      && out.latestRates == (if synth == "" then st.latestRates else st.latestRates[synth := rate])
      && (synth != SNX ==> out.dailySNXPrices == st.dailySNXPrices
                           && out.fifteenMinuteSNXPrices == st.fifteenMinuteSNXPrices)
      && (synth == SNX ==> out.dailySNXPrices == SnxPrices(st, ev.timestamp, rate).dailySNXPrices
                           && out.fifteenMinuteSNXPrices == SnxPrices(st, ev.timestamp, rate).fifteenMinuteSNXPrices)
  {
  }

  /**
   * After the loop of `handleRatesUpdated`, the snapshot of each name holds
   * the rate of the last entry with that name; a name no entry has, and the
   * blank name, keep their old snapshot (or its absence).
   */
  lemma {:induction false} RatesUpdatedLoopLatestRate(st: StoreState, ev: RatesUpdatedEvent, keyString: Key -> string,
                                                      n: nat, synth: string)
    requires n <= |ev.currencyKeys| <= |ev.newRates|
    ensures Get(RatesUpdatedLoop(st, ev, keyString, n).latestRates, synth)
         == match LastWrite(ev.currencyKeys, keyString, synth, n)
            case Some(j) => Some(ev.newRates[j] as int)
            case None => Get(st.latestRates, synth)
  {
    if n > 0 {
      RatesUpdatedLoopLatestRate(st, ev, keyString, n - 1, synth);
      RatesUpdatedEntryEffect(RatesUpdatedLoop(st, ev, keyString, n - 1), ev, keyString, n - 1);
    }
  }

  /**
   * After the loop of `handleRatesUpdated`, the `RateUpdate` under
   * `txHash-name` records the last entry with that name; a name no entry has,
   * and the blank name, keep their old record (or its absence).
   */
  lemma {:induction false} RatesUpdatedLoopRecords(st: StoreState, ev: RatesUpdatedEvent, keyString: Key -> string,
                                                   n: nat, synth: string)
    requires n <= |ev.currencyKeys| <= |ev.newRates|
    ensures Get(RatesUpdatedLoop(st, ev, keyString, n).rateUpdates, RecordId(ev.txHash, synth))
         == match LastWrite(ev.currencyKeys, keyString, synth, n)
            case Some(j) => Some(RateUpdate(ev.blockNumber, ev.timestamp, ev.currencyKeys[j], synth, ev.newRates[j]))
            case None => Get(st.rateUpdates, RecordId(ev.txHash, synth))
  {
    if n > 0 {
      RatesUpdatedLoopRecords(st, ev, keyString, n - 1, synth);
      RatesUpdatedEntryEffect(RatesUpdatedLoop(st, ev, keyString, n - 1), ev, keyString, n - 1);
      RecordIdInjective(ev.txHash, keyString(ev.currencyKeys[n - 1]), synth);
    }
  }

  /** The loop of `handleRatesUpdated` writes no `RateUpdate` outside its transaction's ids. */
  lemma {:induction false} RatesUpdatedLoopOtherRecords(st: StoreState, ev: RatesUpdatedEvent,
                                                        keyString: Key -> string, n: nat, id: string)
    requires n <= |ev.currencyKeys| <= |ev.newRates|
    requires !(|id| > |ev.txHash| && id[..|ev.txHash| + 1] == ev.txHash + "-")
    ensures Get(RatesUpdatedLoop(st, ev, keyString, n).rateUpdates, id) == Get(st.rateUpdates, id)
  {
    if n > 0 {
      RatesUpdatedLoopOtherRecords(st, ev, keyString, n - 1, id);
      RatesUpdatedEntryEffect(RatesUpdatedLoop(st, ev, keyString, n - 1), ev, keyString, n - 1);
      NotRecordIdOf(ev.txHash, id, keyString(ev.currencyKeys[n - 1]));
    }
  }

  /** The rates of the first `n` entries named SNX, in order. */
  function SnxRates(ev: RatesUpdatedEvent, keyString: Key -> string, n: nat): seq<int>
    requires n <= |ev.currencyKeys| <= |ev.newRates|
  {
    if n == 0 then []
    else if keyString(ev.currencyKeys[n - 1]) == SNX then SnxRates(ev, keyString, n - 1) + [ev.newRates[n - 1] as int]
    else SnxRates(ev, keyString, n - 1)
  }

  /** The buckets after feeding `rates`, in order, into the buckets of `timestamp`; untouched when there are none. */
  function FedBuckets(prices: map<string, SNXPrice>, id: string, rates: seq<int>): map<string, SNXPrice> {
    if rates == [] then prices else prices[id := RecordAll(LoadOrCreate(prices, id), rates)]
  }

  /** Feeding one more rate extends the fed sequence. */
  lemma FedBucketsStep(prices: map<string, SNXPrice>, id: string, rates: seq<int>, rate: int)
    ensures var fed := FedBuckets(prices, id, rates);
      fed[id := Record(LoadOrCreate(fed, id), rate)] == FedBuckets(prices, id, rates + [rate])
  {
    assert (rates + [rate])[..|rates|] == rates;
  }

  /**
   * After the loop of `handleRatesUpdated`, the SNX buckets of the event's
   * timestamp have recorded exactly the rates of the SNX entries, in order;
   * without SNX entries no bucket is touched.
   */
  lemma {:induction false} RatesUpdatedLoopBuckets(st: StoreState, ev: RatesUpdatedEvent, keyString: Key -> string,
                                                   n: nat)
    requires n <= |ev.currencyKeys| <= |ev.newRates|
    ensures var out := RatesUpdatedLoop(st, ev, keyString, n);
      && out.dailySNXPrices
         == FedBuckets(st.dailySNXPrices, BucketId(ev.timestamp, DAY_SECONDS), SnxRates(ev, keyString, n))
      && out.fifteenMinuteSNXPrices
         == FedBuckets(st.fifteenMinuteSNXPrices, BucketId(ev.timestamp, FIFTEEN_MINUTE_SECONDS),
                       SnxRates(ev, keyString, n))
  {
    if n > 0 {
      RatesUpdatedLoopBuckets(st, ev, keyString, n - 1);
      RatesUpdatedEntryEffect(RatesUpdatedLoop(st, ev, keyString, n - 1), ev, keyString, n - 1);
      var rates := SnxRates(ev, keyString, n - 1);
      var rate := ev.newRates[n - 1] as int;
      FedBucketsStep(st.dailySNXPrices, BucketId(ev.timestamp, DAY_SECONDS), rates, rate);
      FedBucketsStep(st.fifteenMinuteSNXPrices, BucketId(ev.timestamp, FIFTEEN_MINUTE_SECONDS), rates, rate);
    }
  }

  /** The loop of `handleRatesUpdated` saves no event and no answer. */
  lemma {:induction false} RatesUpdatedLoopFrame(st: StoreState, ev: RatesUpdatedEvent, keyString: Key -> string,
                                                 n: nat)
    requires n <= |ev.currencyKeys| <= |ev.newRates|
    ensures RatesUpdatedLoop(st, ev, keyString, n).ratesUpdated == st.ratesUpdated
    ensures RatesUpdatedLoop(st, ev, keyString, n).aggregatorAnswers == st.aggregatorAnswers
  {
    if n > 0 {
      RatesUpdatedLoopFrame(st, ev, keyString, n - 1);
      RatesUpdatedEntryEffect(RatesUpdatedLoop(st, ev, keyString, n - 1), ev, keyString, n - 1);
    }
  }

  // ---------------------------------------------------------------------------
  // handleRatesUpdated as a whole

  /**
   * After `handleRatesUpdated` both dollar snapshots exist; one that no
   * entry of the event names keeps its old rate, or one unit when it had none.
   */
  lemma RatesUpdatedSeedsDollars(st: StoreState, ev: RatesUpdatedEvent, keyString: Key -> string)
    requires |ev.currencyKeys| <= |ev.newRates|
    ensures var out := RatesUpdatedEffect(st, ev, keyString).latestRates;
      && SUSD in out && NUSD in out
      && (LastIndex(ev.currencyKeys, keyString, SUSD, |ev.currencyKeys|).None? ==>
            out[SUSD] == if SUSD in st.latestRates then st.latestRates[SUSD] else ONE_DOLLAR)
      && (LastIndex(ev.currencyKeys, keyString, NUSD, |ev.currencyKeys|).None? ==>
            out[NUSD] == if NUSD in st.latestRates then st.latestRates[NUSD] else ONE_DOLLAR)
  {
    var n := |ev.currencyKeys|;
    var logged := RatesUpdatedLogged(st, ev);
    var out := RatesUpdatedEffect(st, ev, keyString).latestRates;
    assert out == RatesUpdatedLoop(logged, ev, keyString, n).latestRates;
    SeededDollar(st, ev, SUSD);
    SeededDollar(st, ev, NUSD);
    RatesUpdatedLoopLatestRate(logged, ev, keyString, n, SUSD);
    RatesUpdatedLoopLatestRate(logged, ev, keyString, n, NUSD);
    assert LastWrite(ev.currencyKeys, keyString, SUSD, n) == LastIndex(ev.currencyKeys, keyString, SUSD, n);
    assert LastWrite(ev.currencyKeys, keyString, NUSD, n) == LastIndex(ev.currencyKeys, keyString, NUSD, n);
  }

  /**
   * Before its loop, `handleRatesUpdated` has added the event and both
   * dollar snapshots and changed nothing else.
   */
  lemma RatesUpdatedLoggedEffect(st: StoreState, ev: RatesUpdatedEvent)
    ensures var logged := RatesUpdatedLogged(st, ev);
      && logged.ratesUpdated == st.ratesUpdated[EventId(ev.txHash, ev.logIndex) :=
           Schema.RatesUpdated(ev.currencyKeys, ev.newRates, ev.timestamp, ev.blockNumber, ev.from, ev.gasPrice)]
      && logged.rateUpdates == st.rateUpdates
      && logged.aggregatorAnswers == st.aggregatorAnswers
      && logged.latestRates.Keys == st.latestRates.Keys + {SUSD, NUSD}
      && (forall synth :: synth in st.latestRates ==> logged.latestRates[synth] == st.latestRates[synth])
      && logged.dailySNXPrices == st.dailySNXPrices
      && logged.fifteenMinuteSNXPrices == st.fifteenMinuteSNXPrices
  {
    var once := WithDollar(st, SUSD);
    var twice := WithDollar(once, NUSD);
    assert once.(latestRates := st.latestRates) == st;
    assert twice.(latestRates := once.latestRates) == once;
  }

  /**
   * After `handleRatesUpdated`, a name other than the two dollars that no
   * entry of the event has keeps its old snapshot, or its absence.
   */
  lemma RatesUpdatedKeepsOtherRates(st: StoreState, ev: RatesUpdatedEvent, keyString: Key -> string, synth: string)
    requires |ev.currencyKeys| <= |ev.newRates|
    requires synth != SUSD && synth != NUSD
    requires LastIndex(ev.currencyKeys, keyString, synth, |ev.currencyKeys|).None?
    ensures Get(RatesUpdatedEffect(st, ev, keyString).latestRates, synth) == Get(st.latestRates, synth)
  {
    var logged := RatesUpdatedLogged(st, ev);
    RatesUpdatedLoggedEffect(st, ev);
    RatesUpdatedLoopLatestRate(logged, ev, keyString, |ev.currencyKeys|, synth);
  }

  /** Before its loop, `handleRatesUpdated` has given each dollar its old snapshot or one unit. */
  lemma SeededDollar(st: StoreState, ev: RatesUpdatedEvent, dollarID: string)
    requires dollarID == SUSD || dollarID == NUSD
    ensures Get(RatesUpdatedLogged(st, ev).latestRates, dollarID)
         == Some(if dollarID in st.latestRates then st.latestRates[dollarID] else ONE_DOLLAR)
  {
    var once := WithDollar(st, SUSD);
    var twice := WithDollar(once, NUSD);
    assert RatesUpdatedLogged(st, ev).latestRates == twice.latestRates;
  }

  /** `handleRatesUpdated` saves the event under `txHash-logIndex` and no answer. */
  lemma RatesUpdatedSavesEvent(st: StoreState, ev: RatesUpdatedEvent, keyString: Key -> string)
    requires |ev.currencyKeys| <= |ev.newRates|
    ensures var out := RatesUpdatedEffect(st, ev, keyString);
      && out.ratesUpdated == st.ratesUpdated[EventId(ev.txHash, ev.logIndex) :=
           Schema.RatesUpdated(ev.currencyKeys, ev.newRates, ev.timestamp, ev.blockNumber, ev.from, ev.gasPrice)]
      && out.aggregatorAnswers == st.aggregatorAnswers
  {
    RatesUpdatedLoopFrame(RatesUpdatedLogged(st, ev), ev, keyString, |ev.currencyKeys|);
  }

  /**
   * Delivering the same `RatesUpdated` event twice leaves the snapshots and
   * the saved records as delivering it once.
   */
  lemma RatesUpdatedRecordsIdempotent(st: StoreState, ev: RatesUpdatedEvent, keyString: Key -> string)
    requires |ev.currencyKeys| <= |ev.newRates|
    ensures var once := RatesUpdatedEffect(st, ev, keyString);
      var twice := RatesUpdatedEffect(once, ev, keyString);
      && twice.latestRates == once.latestRates
      && twice.rateUpdates == once.rateUpdates
      && twice.ratesUpdated == once.ratesUpdated
      && twice.aggregatorAnswers == once.aggregatorAnswers
  {
    var n := |ev.currencyKeys|;
    var h := ev.txHash;
    var once := RatesUpdatedEffect(st, ev, keyString);
    var twice := RatesUpdatedEffect(once, ev, keyString);
    var first := RatesUpdatedLogged(st, ev);
    var second := RatesUpdatedLogged(once, ev);
    RatesUpdatedSeedsDollars(st, ev, keyString);
    assert second.latestRates == once.latestRates;
    assert second.rateUpdates == once.rateUpdates;

    forall synth ensures Get(twice.latestRates, synth) == Get(once.latestRates, synth) {
      RatesUpdatedLoopLatestRate(first, ev, keyString, n, synth);
      RatesUpdatedLoopLatestRate(second, ev, keyString, n, synth);
    }
    MapsEqualByGet(twice.latestRates, once.latestRates);

    forall id ensures Get(twice.rateUpdates, id) == Get(once.rateUpdates, id) {
      if |id| > |h| && id[..|h| + 1] == h + "-" {
        var synth := id[|h| + 1..];
        assert id == id[..|h| + 1] + synth;
        assert id == RecordId(h, synth);
        RatesUpdatedLoopRecords(first, ev, keyString, n, synth);
        RatesUpdatedLoopRecords(second, ev, keyString, n, synth);
      } else {
        RatesUpdatedLoopOtherRecords(first, ev, keyString, n, id);
        RatesUpdatedLoopOtherRecords(second, ev, keyString, n, id);
      }
    }
    MapsEqualByGet(twice.rateUpdates, once.rateUpdates);

    RatesUpdatedSavesEvent(st, ev, keyString);
    RatesUpdatedSavesEvent(once, ev, keyString);
  }

  /**
   * `handleRatesUpdated` adds one observation per SNX entry to the day's and
   * the fifteen-minute window's bucket of the event; without SNX entries the
   * buckets are untouched.
   */
  lemma RatesUpdatedBucketCounts(st: StoreState, ev: RatesUpdatedEvent, keyString: Key -> string)
    requires |ev.currencyKeys| <= |ev.newRates|
    ensures var out := RatesUpdatedEffect(st, ev, keyString);
      var rates := SnxRates(ev, keyString, |ev.currencyKeys|);
      var day := BucketId(ev.timestamp, DAY_SECONDS);
      var slot := BucketId(ev.timestamp, FIFTEEN_MINUTE_SECONDS);
      && (rates == [] ==> out.dailySNXPrices == st.dailySNXPrices
                          && out.fifteenMinuteSNXPrices == st.fifteenMinuteSNXPrices)
      && (rates != [] ==> && day in out.dailySNXPrices && slot in out.fifteenMinuteSNXPrices
                          && out.dailySNXPrices[day].count == LoadOrCreate(st.dailySNXPrices, day).count + |rates|
                          && out.fifteenMinuteSNXPrices[slot].count
                             == LoadOrCreate(st.fifteenMinuteSNXPrices, slot).count + |rates|)
  {
    var n := |ev.currencyKeys|;
    var logged := RatesUpdatedLogged(st, ev);
    RatesUpdatedLoggedEffect(st, ev);
    RatesUpdatedLoopBuckets(logged, ev, keyString, n);
    var rates := SnxRates(ev, keyString, n);
  }

  /**
   * The buckets are not idempotent under redelivery: delivering an event
   * with SNX entries a second time adds its SNX rates to the buckets again.
   */
  lemma RatesUpdatedCountsEachDelivery(st: StoreState, ev: RatesUpdatedEvent, keyString: Key -> string)
    requires |ev.currencyKeys| <= |ev.newRates|
    requires SnxRates(ev, keyString, |ev.currencyKeys|) != []
    ensures var once := RatesUpdatedEffect(st, ev, keyString);
      var twice := RatesUpdatedEffect(once, ev, keyString);
      var day := BucketId(ev.timestamp, DAY_SECONDS);
      && day in once.dailySNXPrices && day in twice.dailySNXPrices
      && twice.dailySNXPrices[day].count
         == once.dailySNXPrices[day].count + |SnxRates(ev, keyString, |ev.currencyKeys|)|
      && twice != once
  {
    var once := RatesUpdatedEffect(st, ev, keyString);
    RatesUpdatedBucketCounts(st, ev, keyString);
    RatesUpdatedBucketCounts(once, ev, keyString);
    var day := BucketId(ev.timestamp, DAY_SECONDS);
    assert LoadOrCreate(once.dailySNXPrices, day) == once.dailySNXPrices[day];
  }

  // ---------------------------------------------------------------------------
  // handleAggregatorAnswerUpdated

  /** What `createRates` does to each kind of entity. */
  lemma CreateRatesEffectOn(st: StoreState, ev: AnswerUpdatedEvent, key: Key, rate: int, keyString: Key -> string)
    ensures var out := CreateRatesEffect(st, ev, key, rate, keyString);
      var synth := keyString(key);
      var id := RecordId(ev.txHash, synth);
      && out.ratesUpdated == st.ratesUpdated
      && out.aggregatorAnswers == st.aggregatorAnswers[id :=
           AggregatorAnswer(ev.blockNumber, ev.timestamp, key, synth, rate, ev.roundId, ev.address)]
      && out.rateUpdates == st.rateUpdates[id := RateUpdate(ev.blockNumber, ev.timestamp, key, synth, rate)]
      && out.latestRates == st.latestRates[synth := rate]
      && (synth != SNX ==> out.dailySNXPrices == st.dailySNXPrices
                           && out.fifteenMinuteSNXPrices == st.fifteenMinuteSNXPrices)
      && (synth == SNX ==> out.dailySNXPrices == SnxPrices(st, ev.timestamp, rate).dailySNXPrices
                           && out.fifteenMinuteSNXPrices == SnxPrices(st, ev.timestamp, rate).fifteenMinuteSNXPrices)
  {
  }

  /**
   * After the loop of `handleAggregatorAnswerUpdated`, each name's
   * `AggregatorAnswer` and `RateUpdate` under `txHash-name` and its snapshot
   * carry the same rate, the one `rateForCurrency` gives for the last key with
   * that name; a name no key has, and the blank name, keep all three as they were.
   */
  lemma {:induction false} AnswerLoopRecords(st: StoreState, ev: AnswerUpdatedEvent, exrates: ExchangeRates,
                                             keys: seq<Key>, keyString: Key -> string, n: nat, synth: string)
    requires n <= |keys|
    ensures var out := AnswerLoop(st, ev, exrates, keys, keyString, n);
      var id := RecordId(ev.txHash, synth);
      match LastWrite(keys, keyString, synth, n)
      case Some(j) =>
        var rate := exrates.rateForCurrency(keys[j]);
        && Get(out.aggregatorAnswers, id)
           == Some(AggregatorAnswer(ev.blockNumber, ev.timestamp, keys[j], synth, rate, ev.roundId, ev.address))
        && Get(out.rateUpdates, id) == Some(RateUpdate(ev.blockNumber, ev.timestamp, keys[j], synth, rate))
        && Get(out.latestRates, synth) == Some(rate)
      case None =>
        && Get(out.aggregatorAnswers, id) == Get(st.aggregatorAnswers, id)
        && Get(out.rateUpdates, id) == Get(st.rateUpdates, id)
        && Get(out.latestRates, synth) == Get(st.latestRates, synth)
  {
    if n > 0 {
      AnswerLoopRecords(st, ev, exrates, keys, keyString, n - 1, synth);
      var key := keys[n - 1];
      if keyString(key) != "" {
        var prev := AnswerLoop(st, ev, exrates, keys, keyString, n - 1);
        CreateRatesEffectOn(prev, ev, key, exrates.rateForCurrency(key), keyString);
        RecordIdInjective(ev.txHash, keyString(key), synth);
      }
    }
  }

  /** The loop of `handleAggregatorAnswerUpdated` writes no answer and no `RateUpdate` outside its transaction's ids. */
  lemma {:induction false} AnswerLoopOtherRecords(st: StoreState, ev: AnswerUpdatedEvent, exrates: ExchangeRates,
                                                  keys: seq<Key>, keyString: Key -> string, n: nat, id: string)
    requires n <= |keys|
    requires !(|id| > |ev.txHash| && id[..|ev.txHash| + 1] == ev.txHash + "-")
    ensures Get(AnswerLoop(st, ev, exrates, keys, keyString, n).aggregatorAnswers, id) == Get(st.aggregatorAnswers, id)
    ensures Get(AnswerLoop(st, ev, exrates, keys, keyString, n).rateUpdates, id) == Get(st.rateUpdates, id)
  {
    if n > 0 {
      AnswerLoopOtherRecords(st, ev, exrates, keys, keyString, n - 1, id);
      var key := keys[n - 1];
      if keyString(key) != "" {
        CreateRatesEffectOn(AnswerLoop(st, ev, exrates, keys, keyString, n - 1), ev, key,
                            exrates.rateForCurrency(key), keyString);
        NotRecordIdOf(ev.txHash, id, keyString(key));
      }
    }
  }

  /** The rates the first `n` resolved keys named SNX are given, in order. */
  function AnswerSnxRates(exrates: ExchangeRates, keys: seq<Key>, keyString: Key -> string, n: nat): seq<int>
    requires n <= |keys|
  {
    if n == 0 then []
    else if keyString(keys[n - 1]) == SNX
    then AnswerSnxRates(exrates, keys, keyString, n - 1) + [exrates.rateForCurrency(keys[n - 1])]
    else AnswerSnxRates(exrates, keys, keyString, n - 1)
  }

  /**
   * After the loop of `handleAggregatorAnswerUpdated`, the SNX buckets of the
   * event's timestamp have recorded exactly the rates of the SNX keys, in
   * order; without SNX keys no bucket is touched.
   */
  lemma {:induction false} AnswerLoopBuckets(st: StoreState, ev: AnswerUpdatedEvent, exrates: ExchangeRates,
                                             keys: seq<Key>, keyString: Key -> string, n: nat)
    requires n <= |keys|
    ensures var out := AnswerLoop(st, ev, exrates, keys, keyString, n);
      var rates := AnswerSnxRates(exrates, keys, keyString, n);
      && out.dailySNXPrices == FedBuckets(st.dailySNXPrices, BucketId(ev.timestamp, DAY_SECONDS), rates)
      && out.fifteenMinuteSNXPrices
         == FedBuckets(st.fifteenMinuteSNXPrices, BucketId(ev.timestamp, FIFTEEN_MINUTE_SECONDS), rates)
  {
    if n > 0 {
      AnswerLoopBuckets(st, ev, exrates, keys, keyString, n - 1);
      var key := keys[n - 1];
      if keyString(key) != "" {
        var prev := AnswerLoop(st, ev, exrates, keys, keyString, n - 1);
        var rate := exrates.rateForCurrency(key);
        CreateRatesEffectOn(prev, ev, key, rate, keyString);
        var rates := AnswerSnxRates(exrates, keys, keyString, n - 1);
        FedBucketsStep(st.dailySNXPrices, BucketId(ev.timestamp, DAY_SECONDS), rates, rate);
        FedBucketsStep(st.fifteenMinuteSNXPrices, BucketId(ev.timestamp, FIFTEEN_MINUTE_SECONDS), rates, rate);
      }
    }
  }

  /** The loop of `handleAggregatorAnswerUpdated` saves no `RatesUpdated` event. */
  lemma {:induction false} AnswerLoopFrame(st: StoreState, ev: AnswerUpdatedEvent, exrates: ExchangeRates,
                                           keys: seq<Key>, keyString: Key -> string, n: nat)
    requires n <= |keys|
    ensures AnswerLoop(st, ev, exrates, keys, keyString, n).ratesUpdated == st.ratesUpdated
  {
    if n > 0 {
      AnswerLoopFrame(st, ev, exrates, keys, keyString, n - 1);
      var key := keys[n - 1];
      if keyString(key) != "" {
        CreateRatesEffectOn(AnswerLoop(st, ev, exrates, keys, keyString, n - 1), ev, key,
                            exrates.rateForCurrency(key), keyString);
      }
    }
  }

  // ---------------------------------------------------------------------------
  // The store invariant

  /** Recording an SNX rate keeps every bucket non-empty and removes nothing. */
  lemma SnxPricesKeepsValid(st: StoreState, timestamp: nat, rate: int)
    requires Valid(st)
    ensures Valid(SnxPrices(st, timestamp, rate)) && Grows(st, SnxPrices(st, timestamp, rate))
  {
    SnxPricesEffect(st, timestamp, rate);
  }

  lemma {:induction false} RatesUpdatedLoopKeepsValid(st: StoreState, ev: RatesUpdatedEvent,
                                                      keyString: Key -> string, n: nat)
    requires n <= |ev.currencyKeys| <= |ev.newRates|
    requires Valid(st)
    ensures Valid(RatesUpdatedLoop(st, ev, keyString, n)) && Grows(st, RatesUpdatedLoop(st, ev, keyString, n))
  {
    if n > 0 {
      RatesUpdatedLoopKeepsValid(st, ev, keyString, n - 1);
      var prev := RatesUpdatedLoop(st, ev, keyString, n - 1);
      var out := RatesUpdatedLoop(st, ev, keyString, n);
      assert out == RatesUpdatedEntry(prev, ev, keyString, n - 1);
      RatesUpdatedEntryEffect(prev, ev, keyString, n - 1);
      var synth := keyString(ev.currencyKeys[n - 1]);
      if synth == SNX {
        var priced := SnxPrices(prev, ev.timestamp, ev.newRates[n - 1]);
        SnxPricesKeepsValid(prev, ev.timestamp, ev.newRates[n - 1]);
        assert out.dailySNXPrices == priced.dailySNXPrices;
        assert out.fifteenMinuteSNXPrices == priced.fifteenMinuteSNXPrices;
      } else {
        assert out.dailySNXPrices == prev.dailySNXPrices;
        assert out.fifteenMinuteSNXPrices == prev.fifteenMinuteSNXPrices;
      }
      assert Grows(prev, out);
    }
  }

  /** `handleRatesUpdated` keeps every bucket non-empty and removes no entity. */
  lemma RatesUpdatedKeepsValid(st: StoreState, ev: RatesUpdatedEvent, keyString: Key -> string)
    requires |ev.currencyKeys| <= |ev.newRates|
    requires Valid(st)
    ensures Valid(RatesUpdatedEffect(st, ev, keyString)) && Grows(st, RatesUpdatedEffect(st, ev, keyString))
  {
    var logged := RatesUpdatedLogged(st, ev);
    RatesUpdatedLoggedEffect(st, ev);
    RatesUpdatedLoopKeepsValid(logged, ev, keyString, |ev.currencyKeys|);
  }

  lemma {:induction false} AnswerLoopKeepsValid(st: StoreState, ev: AnswerUpdatedEvent, exrates: ExchangeRates,
                                                keys: seq<Key>, keyString: Key -> string, n: nat)
    requires n <= |keys|
    requires Valid(st)
    ensures Valid(AnswerLoop(st, ev, exrates, keys, keyString, n))
    ensures Grows(st, AnswerLoop(st, ev, exrates, keys, keyString, n))
  {
    if n > 0 {
      AnswerLoopKeepsValid(st, ev, exrates, keys, keyString, n - 1);
      var key := keys[n - 1];
      if keyString(key) != "" {
        var prev := AnswerLoop(st, ev, exrates, keys, keyString, n - 1);
        CreateRatesEffectOn(prev, ev, key, exrates.rateForCurrency(key), keyString);
        SnxPricesKeepsValid(prev, ev.timestamp, exrates.rateForCurrency(key));
      }
    }
  }

  /** `handleAggregatorAnswerUpdated` keeps every bucket non-empty and removes no entity. */
  lemma AnswerKeepsValid(st: StoreState, ev: AnswerUpdatedEvent, resolver: seq<byte> -> ExchangeRates,
                         proxies: map<Address, Address>, keyString: Key -> string)
    requires Valid(st)
    ensures Valid(AnswerEffect(st, ev, resolver, proxies, keyString))
    ensures Grows(st, AnswerEffect(st, ev, resolver, proxies, keyString))
  {
    if ev.address in proxies {
      var exrates := resolver(ExchangeRatesName());
      var tryKeys := exrates.currenciesUsingAggregator(proxies[ev.address]);
      if tryKeys.Some? {
        AnswerLoopKeepsValid(st, ev, exrates, tryKeys.value, keyString, |tryKeys.value|);
        assert AnswerEffect(st, ev, resolver, proxies, keyString)
            == AnswerLoop(st, ev, exrates, tryKeys.value, keyString, |tryKeys.value|);
      }
    }
  }
}
