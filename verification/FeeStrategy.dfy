/** Fee bids and the retry loop with which the client sends transactions. Numbers are reals;
    what the network answers and the random draws are parameters. */
module FeeStrategy {
  import opened Types
  import opened Sorting

  datatype FeeMode = Standard | Jito | Auto

  datatype RetryConfig = RetryConfig(
    maxAttempts: int, baseDelayMs: real, jitterFactor: real, backoffMultiplier: real)

  datatype Config = Config(
    mode: FeeMode, skipJitoTipOnLowPriorityRetry: bool,
    priorityFeePercentile: real, minPriorityFee: real, maxPriorityFee: real, retry: RetryConfig)

  // ---- The percentile bid ----

  predicate IsPositive(fee: real) {
    fee > 0.0
  }

  predicate Ascending(a: real, b: real) {
    a <= b
  }

  function SortedFees(recent: seq<real>): seq<real> {
    Sort(Ascending, Filter(IsPositive, recent))
  }

  function Scaled(x: real, factor: real): real {
    x * factor
  }

  function Index(percentile: real, n: nat): int
    requires n > 0
  {
    Scaled(percentile / 100.0, (n - 1) as real).Floor
  }

  function Clamp(low: real, high: real, fee: real): real {
    var capped := if high <= fee then high else fee;
    if low >= capped then low else capped
  }

  /** The bid from the recent fees (None when they could not be fetched). No result stands for
      "not a number": the value at a position outside the array. */
  function PriorityFee(recent: Option<seq<real>>, config: Config): Option<real> {
    var fees := match recent case Some(r) => SortedFees(r) case None => [];
    if fees == [] then Some(config.minPriorityFee)
    else
      var k := Index(config.priorityFeePercentile, |fees|);
      if 0 <= k < |fees| then Some(Clamp(config.minPriorityFee, config.maxPriorityFee, fees[k])) else None
  }

  function AtMost(fees: seq<real>, x: real): (n: nat)
    ensures n <= |fees|
  {
    if fees == [] then 0 else (if fees[0] <= x then 1 else 0) + AtMost(fees[1..], x)
  }

  function AtLeast(fees: seq<real>, x: real): (n: nat)
    ensures n <= |fees|
  {
    if fees == [] then 0 else (if fees[0] >= x then 1 else 0) + AtLeast(fees[1..], x)
  }

  /** x has at least k + 1 samples at or below it, and all but k of them at or above it. */
  predicate IsOrderStatistic(fees: seq<real>, k: nat, x: real) {
    AtMost(fees, x) >= k + 1 && AtLeast(fees, x) >= |fees| - k
  }

  lemma {:induction false} CountsDisjoint(fees: seq<real>, x: real, y: real)
    requires x < y
    ensures AtMost(fees, x) + AtLeast(fees, y) <= |fees|
  {
    if fees != [] {
      CountsDisjoint(fees[1..], x, y);
    }
  }

  /** Pointwise larger samples have a larger order statistic; in particular it is unique. */
  lemma OrderStatisticMonotone(a: seq<real>, b: seq<real>, k: nat, x: real, y: real)
    requires |a| == |b| && forall i | 0 <= i < |a| :: a[i] <= b[i]
    requires IsOrderStatistic(a, k, x) && IsOrderStatistic(b, k, y)
    ensures x <= y
  {
    if y < x {
      AtMostMonotone(a, b, y);
      CountsDisjoint(a, y, x);
    }
  }

  lemma {:induction false} AtMostMonotone(a: seq<real>, b: seq<real>, x: real)
    requires |a| == |b| && forall i | 0 <= i < |a| :: a[i] <= b[i]
    ensures AtMost(a, x) >= AtMost(b, x)
  {
    if a != [] {
      AtMostMonotone(a[1..], b[1..], x);
    }
  }

  lemma {:induction false} CountsOfInsert(x: real, fees: seq<real>, y: real)
    ensures |Insert(Ascending, x, fees)| == |fees| + 1
    ensures AtMost(Insert(Ascending, x, fees), y) == AtMost(fees, y) + if x <= y then 1 else 0
    ensures AtLeast(Insert(Ascending, x, fees), y) == AtLeast(fees, y) + if x >= y then 1 else 0
  {
    if fees != [] {
      CountsOfInsert(x, fees[1..], y);
    }
  }

  lemma {:induction false} CountsOfSort(fees: seq<real>, y: real)
    ensures |Sort(Ascending, fees)| == |fees|
    ensures AtMost(Sort(Ascending, fees), y) == AtMost(fees, y)
    ensures AtLeast(Sort(Ascending, fees), y) == AtLeast(fees, y)
  {
    if fees != [] {
      CountsOfSort(fees[1..], y);
      CountsOfInsert(fees[0], Sort(Ascending, fees[1..]), y);
    }
  }

  lemma {:induction false} AllAtLeast(fees: seq<real>, x: real)
    requires forall i | 0 <= i < |fees| :: fees[i] >= x
    ensures AtLeast(fees, x) == |fees|
  {
    if fees != [] {
      AllAtLeast(fees[1..], x);
    }
  }

  /** In an ascending array position k holds the order statistic k. */
  lemma {:induction false} PositionIsStatistic(fees: seq<real>, k: nat)
    requires SortedBy(Ascending, fees) && k < |fees|
    ensures IsOrderStatistic(fees, k, fees[k])
  {
    if k == 0 {
      AllAtLeast(fees, fees[0]);
    } else {
      assert Ascending(fees[0], fees[k]);
      PositionIsStatistic(fees[1..], k - 1);
    }
  }

  /** samples are the positive ones among the recent fees, in any order. */
  ghost predicate ArePositive(recent: seq<real>, samples: seq<real>) {
    forall x: real :: multiset(samples)[x] == if x > 0.0 then multiset(recent)[x] else 0
  }

  /** Whatever the order of the samples, sorting them gives the array the bid is taken from. */
  lemma SortedSamples(recent: seq<real>, samples: seq<real>)
    requires ArePositive(recent, samples)
    ensures SortedFees(recent) == Sort(Ascending, samples) && |SortedFees(recent)| == |samples|
  {
    var fees := Filter(IsPositive, recent);
    forall x: real
      ensures multiset(fees)[x] == multiset(samples)[x]
    {
      FilterCopies(IsPositive, recent, x);
    }
    assert multiset(fees) == multiset(samples);
    SortSorts(Ascending, fees);
    SortSorts(Ascending, samples);
    SortedUnique(Ascending, Sort(Ascending, fees), Sort(Ascending, samples));
    CountsOfSort(samples, 0.0);
  }

  lemma SamplesExist(recent: seq<real>)
    ensures ArePositive(recent, Filter(IsPositive, recent))
  {
    forall x: real
      ensures multiset(Filter(IsPositive, recent))[x] == if x > 0.0 then multiset(recent)[x] else 0
    {
      FilterCopies(IsPositive, recent, x);
    }
  }

  /** The entry the bid is taken from is an order statistic of the positive samples themselves,
      however they arrived. */
  lemma ChosenFeeIsStatistic(recent: seq<real>, samples: seq<real>, k: nat)
    requires ArePositive(recent, samples) && k < |SortedFees(recent)|
    ensures |SortedFees(recent)| == |samples| && IsOrderStatistic(samples, k, SortedFees(recent)[k])
  {
    SortedSamples(recent, samples);
    SortSorts(Ascending, samples);
    PositionIsStatistic(Sort(Ascending, samples), k);
    CountsOfSort(samples, SortedFees(recent)[k]);
  }

  lemma IndexIsPosition(percentile: real, n: nat, k: int)
    requires n > 0
    ensures var position := percentile * (n - 1) as real / 100.0;
      Index(percentile, n) == k <==> k as real <= position < (k + 1) as real
  {
    var scaled := percentile * (n - 1) as real;
    assert percentile / 100.0 * (n - 1) as real == scaled / 100.0;
  }

  lemma IndexInRangeIff(percentile: real, n: nat)
    requires n > 0
    ensures 0 <= Index(percentile, n) < n <==> 0.0 <= percentile * (n - 1) as real < 100.0 * n as real
  {
    var scaled := percentile * (n - 1) as real;
    assert percentile / 100.0 * (n - 1) as real == scaled / 100.0;
    HundredthFloor(scaled, n);
  }

  lemma HundredthFloor(scaled: real, n: nat)
    ensures 0 <= (scaled / 100.0).Floor < n <==> 0.0 <= scaled < 100.0 * n as real
  {
  }

  lemma PercentageHasPosition(percentile: real, n: nat)
    requires 0.0 <= percentile <= 100.0 && n > 0
    ensures 0.0 <= percentile * (n - 1) as real < 100.0 * n as real
  {
    var m := (n - 1) as real;
    assert 0.0 <= percentile * m <= 100.0 * m;
  }

  /** When the bid is a number: no positive samples, or a percentile whose position exists. */
  lemma {:induction false} BidIsNumberIff(recent: seq<real>, samples: seq<real>, config: Config)
    requires ArePositive(recent, samples)
    ensures PriorityFee(Some(recent), config).Some? <==>
      samples == [] || 0.0 <= config.priorityFeePercentile * (|samples| - 1) as real < 100.0 * |samples| as real
  {
    BidIsNumberAt(recent, samples, config);
    if samples != [] {
      IndexInRangeIff(config.priorityFeePercentile, |samples|);
    }
  }

  lemma BidIsNumberAt(recent: seq<real>, samples: seq<real>, config: Config)
    requires ArePositive(recent, samples)
    ensures PriorityFee(Some(recent), config).Some? <==>
      samples == [] || 0 <= Index(config.priorityFeePercentile, |samples|) < |samples|
  {
    SortedSamples(recent, samples);
  }

  /** Every percentile in the documented range gives a bid. */
  lemma PercentagesAlwaysBid(recent: Option<seq<real>>, config: Config)
    requires 0.0 <= config.priorityFeePercentile <= 100.0
    ensures PriorityFee(recent, config).Some?
  {
    if recent.Some? {
      var samples := Filter(IsPositive, recent.value);
      SamplesExist(recent.value);
      BidIsNumberIff(recent.value, samples, config);
      if samples != [] {
        PercentageHasPosition(config.priorityFeePercentile, |samples|);
      }
    }
  }

  /** When the fees cannot be fetched, or none is positive, the bid is the floor. */
  lemma BidWithoutSamples(recent: Option<seq<real>>, config: Config)
    requires recent.Some? ==> forall i | 0 <= i < |recent.value| :: recent.value[i] <= 0.0
    ensures PriorityFee(recent, config) == Some(config.minPriorityFee)
  {
    if recent.Some? {
      var fees := Filter(IsPositive, recent.value);
      if fees != [] {
        FilterMembers(IsPositive, recent.value, fees[0]);
      }
      CountsOfSort(fees, 0.0);
    }
  }

  /** The bid with samples: any number x that is order statistic k of the positive samples, for the k
      the percentile selects, determines the bid, which is x brought between floor and cap. */
  lemma {:induction false} BidIsClampedStatistic(recent: seq<real>, samples: seq<real>, config: Config,
                                                 k: nat, x: real)
    requires ArePositive(recent, samples) && samples != [] && IsOrderStatistic(samples, k, x)
    requires var position := config.priorityFeePercentile * (|samples| - 1) as real / 100.0;
      k as real <= position < (k + 1) as real
    ensures PriorityFee(Some(recent), config).Some?
    ensures var low, high, bid := config.minPriorityFee, config.maxPriorityFee, PriorityFee(Some(recent), config).value;
      && (low <= x <= high ==> bid == x)
      && (low <= high < x ==> bid == high)
      && (x < low || high < low ==> bid == low)
  {
    IndexIsPosition(config.priorityFeePercentile, |samples|, k);
    BidAtIndex(recent, samples, config, k, x);
  }

  lemma BidAtIndex(recent: seq<real>, samples: seq<real>, config: Config, k: nat, x: real)
    requires ArePositive(recent, samples) && samples != [] && IsOrderStatistic(samples, k, x)
    requires Index(config.priorityFeePercentile, |samples|) == k
    ensures PriorityFee(Some(recent), config) == Some(Clamp(config.minPriorityFee, config.maxPriorityFee, x))
  {
    assert k + 1 <= AtMost(samples, x) <= |samples|;
    SortedSamples(recent, samples);
    ChosenFeeIsStatistic(recent, samples, k);
    OrderStatisticMonotone(samples, samples, k, x, SortedFees(recent)[k]);
    OrderStatisticMonotone(samples, samples, k, SortedFees(recent)[k], x);
  }

  /** Whenever there are samples and the bid is a number, there is such a k and such an x. */
  lemma BidHasStatistic(recent: seq<real>, samples: seq<real>, config: Config) returns (k: nat, x: real)
    requires ArePositive(recent, samples) && samples != [] && PriorityFee(Some(recent), config).Some?
    ensures IsOrderStatistic(samples, k, x) && x in samples
    ensures var position := config.priorityFeePercentile * (|samples| - 1) as real / 100.0;
      k as real <= position < (k + 1) as real
  {
    k, x := StatisticAtIndex(recent, samples, config);
    IndexIsPosition(config.priorityFeePercentile, |samples|, k);
  }

  lemma StatisticAtIndex(recent: seq<real>, samples: seq<real>, config: Config) returns (k: nat, x: real)
    requires ArePositive(recent, samples) && samples != [] && PriorityFee(Some(recent), config).Some?
    ensures Index(config.priorityFeePercentile, |samples|) == k
    ensures IsOrderStatistic(samples, k, x) && x in samples
  {
    BidIsNumberAt(recent, samples, config);
    k := Index(config.priorityFeePercentile, |samples|);
    x := StatisticExists(recent, samples, k);
  }

  lemma StatisticExists(recent: seq<real>, samples: seq<real>, k: nat) returns (x: real)
    requires ArePositive(recent, samples) && k < |samples|
    ensures IsOrderStatistic(samples, k, x) && x in samples
  {
    SortedSamples(recent, samples);
    SortSorts(Ascending, samples);
    x := SortedFees(recent)[k];
    ChosenFeeIsStatistic(recent, samples, k);
    assert x in multiset(Sort(Ascending, samples));
  }

  /** Every bid lies between the floor and the cap. */
  lemma BidInRange(recent: Option<seq<real>>, config: Config)
    requires PriorityFee(recent, config).Some?
    ensures PriorityFee(recent, config).value >= config.minPriorityFee
    ensures config.minPriorityFee <= config.maxPriorityFee ==>
      PriorityFee(recent, config).value <= config.maxPriorityFee
  {
  }

  /** The order in which the samples arrive does not matter. */
  lemma {:induction false} SampleOrderIsIrrelevant(a: seq<real>, b: seq<real>, config: Config)
    requires multiset(a) == multiset(b)
    ensures PriorityFee(Some(a), config) == PriorityFee(Some(b), config)
  {
    var samples := Filter(IsPositive, b);
    SamplesExist(b);
    assert ArePositive(a, samples);
    SortedSamples(a, samples);
    SortedSamples(b, samples);
  }

  /** A higher percentile never bids less. */
  lemma {:induction false} BidMonotoneInPercentile(recent: Option<seq<real>>, config: Config, config': Config)
    requires config' == config.(priorityFeePercentile := config'.priorityFeePercentile)
    requires config.priorityFeePercentile <= config'.priorityFeePercentile
    requires PriorityFee(recent, config).Some? && PriorityFee(recent, config').Some?
    ensures PriorityFee(recent, config).value <= PriorityFee(recent, config').value
  {
    if recent.Some? && SortedFees(recent.value) != [] {
      var fees := SortedFees(recent.value);
      SortSorts(Ascending, Filter(IsPositive, recent.value));
      var k, k' := Index(config.priorityFeePercentile, |fees|), Index(config'.priorityFeePercentile, |fees|);
      assert k <= k' by {
        IndexMonotone(config.priorityFeePercentile, config'.priorityFeePercentile, |fees|);
      }
      assert k < k' ==> Ascending(fees[k], fees[k']);
    }
  }

  lemma IndexMonotone(p: real, p': real, n: nat)
    requires p <= p' && n > 0
    ensures Index(p, n) <= Index(p', n)
  {
    assert p / 100.0 * (n - 1) as real <= p' / 100.0 * (n - 1) as real;
  }

  lemma {:induction false} FilterPointwise(a: seq<real>, b: seq<real>)
    requires |a| == |b|
    requires forall i | 0 <= i < |a| :: a[i] <= b[i] && (a[i] > 0.0 <==> b[i] > 0.0)
    ensures |Filter(IsPositive, a)| == |Filter(IsPositive, b)|
    ensures forall i | 0 <= i < |Filter(IsPositive, a)| :: Filter(IsPositive, a)[i] <= Filter(IsPositive, b)[i]
  {
    if a != [] {
      FilterPointwise(a[1..], b[1..]);
      var rest, rest' := Filter(IsPositive, a[1..]), Filter(IsPositive, b[1..]);
      assert Filter(IsPositive, a) == if a[0] > 0.0 then [a[0]] + rest else rest;
      assert Filter(IsPositive, b) == if a[0] > 0.0 then [b[0]] + rest' else rest';
    }
  }

  /** When competing fees rise and the same slots stay idle, the bid does not fall. */
  lemma BidMonotoneInSamples(a: seq<real>, b: seq<real>, config: Config)
    requires |a| == |b|
    requires forall i | 0 <= i < |a| :: a[i] <= b[i] && (a[i] > 0.0 <==> b[i] > 0.0)
    ensures PriorityFee(Some(a), config).Some? <==> PriorityFee(Some(b), config).Some?
    ensures PriorityFee(Some(a), config).Some? ==>
      PriorityFee(Some(a), config).value <= PriorityFee(Some(b), config).value
  {
    var fees, fees' := Filter(IsPositive, a), Filter(IsPositive, b);
    FilterPointwise(a, b);
    SamplesExist(a);
    SamplesExist(b);
    SortedSamples(a, fees);
    SortedSamples(b, fees');
    if fees != [] {
      var k := Index(config.priorityFeePercentile, |fees|);
      if 0 <= k < |fees| {
        ChosenFeeIsStatistic(a, fees, k);
        ChosenFeeIsStatistic(b, fees', k);
        OrderStatisticMonotone(fees, fees', k, SortedFees(a)[k], SortedFees(b)[k]);
      }
    }
  }

  // ---- Delays ----

  function Pow(m: real, n: nat): real {
    if n == 0 then 1.0 else Scaled(Pow(m, n - 1), m)
  }

  /** Rounds halves up, as the client's language does. */
  function Round(x: real): int {
    (x + 0.5).Floor
  }

  function RoundedDelay(ms: real): nat {
    if Round(ms) > 0 then Round(ms) else 0
  }

  /** A delay with its random share added or taken; draw is the random number in [0, 1). */
  function Jittered(base: real, jitterFactor: real, draw: real): nat {
    var jitter := Scaled(Scaled(base, jitterFactor), draw * 2.0 - 1.0);
    RoundedDelay(base + jitter)
  }

  function NominalDelay(attempt: nat, retry: RetryConfig): real
    requires attempt >= 1
  {
    Scaled(retry.baseDelayMs, Pow(retry.backoffMultiplier, attempt - 1))
  }

  function BackoffDelayMs(attempt: nat, retry: RetryConfig, draw: real): nat
    requires attempt >= 1
  {
    Jittered(NominalDelay(attempt, retry), retry.jitterFactor, draw)
  }

  /** The delays after failed attempts 1 to n. */
  function Delays(n: nat, retry: RetryConfig, draw: nat -> real): (ms: seq<nat>)
    ensures |ms| == n
  {
    if n == 0 then [] else Delays(n - 1, retry, draw) + [BackoffDelayMs(n, retry, draw(n))]
  }

  lemma {:induction false} DelaysAre(n: nat, retry: RetryConfig, draw: nat -> real)
    ensures forall a | 0 <= a < n :: Delays(n, retry, draw)[a] == BackoffDelayMs(a + 1, retry, draw(a + 1))
  {
    if n > 0 {
      DelaysAre(n - 1, retry, draw);
    }
  }

  function Sum(ms: seq<nat>): nat {
    if ms == [] then 0 else Sum(ms[..|ms| - 1]) + ms[|ms| - 1]
  }

  /** base * (1 + m + ... + m^(n-1)), the delays without jitter and rounding. */
  function Nominal(n: nat, retry: RetryConfig): real {
    if n == 0 then 0.0
    else Nominal(n - 1, retry) + NominalDelay(n, retry)
  }

  ghost predicate Sensible(retry: RetryConfig) {
    retry.baseDelayMs >= 0.0 && retry.backoffMultiplier >= 0.0 && 0.0 <= retry.jitterFactor <= 1.0
  }

  ghost predicate DrawsInRange(draw: nat -> real) {
    forall a: nat :: 0.0 <= draw(a) < 1.0
  }

  lemma ScaledNonNegative(x: real, factor: real)
    requires x >= 0.0 && factor >= 0.0
    ensures Scaled(x, factor) >= 0.0
  {
  }

  lemma {:induction false} PowNonNegative(m: real, n: nat)
    requires m >= 0.0
    ensures Pow(m, n) >= 0.0
  {
    if n > 0 {
      PowNonNegative(m, n - 1);
      ScaledNonNegative(Pow(m, n - 1), m);
    }
  }

  lemma NominalNonNegative(attempt: nat, retry: RetryConfig)
    requires attempt >= 1 && Sensible(retry)
    ensures NominalDelay(attempt, retry) >= 0.0
  {
    PowNonNegative(retry.backoffMultiplier, attempt - 1);
    ScaledNonNegative(retry.baseDelayMs, Pow(retry.backoffMultiplier, attempt - 1));
  }

  lemma ShareBound(x: real, share: real)
    requires x >= 0.0 && 0.0 <= share <= 1.0
    ensures 0.0 <= Scaled(x, share) <= x
  {
  }

  lemma SwingBound(x: real, swing: real)
    requires x >= 0.0 && -1.0 <= swing <= 1.0
    ensures -x <= Scaled(x, swing) <= x
  {
  }

  lemma ScaledSum(x: real, y: real, factor: real)
    ensures Scaled(x + y, factor) == Scaled(x, factor) + Scaled(y, factor)
  {
  }

  /** total, the sum of n rounded delays, is within the jitter share of its nominal value, plus
      half a millisecond per delay. */
  predicate Within(total: int, nominal: real, share: real, n: nat) {
    && total as real >= nominal - Scaled(nominal, share) - n as real / 2.0
    && total as real <= nominal + Scaled(nominal, share) + n as real / 2.0
  }

  lemma RoundingBound(base: real, most: real, jitter: real)
    requires 0.0 <= most <= base && -most <= jitter <= most
    ensures base - most - 0.5 <= RoundedDelay(base + jitter) as real <= base + most + 0.5
  {
  }

  lemma OneDelayWithin(base: real, share: real, draw: real)
    requires base >= 0.0 && 0.0 <= share <= 1.0 && 0.0 <= draw < 1.0
    ensures Within(Jittered(base, share, draw), base, share, 1)
  {
    var most, swing := Scaled(base, share), draw * 2.0 - 1.0;
    ShareBound(base, share);
    SwingBound(most, swing);
    RoundingBound(base, most, Scaled(most, swing));
  }

  lemma WithinAdds(total: int, nominal: real, n: nat, d: int, base: real, share: real)
    requires Within(total, nominal, share, n) && Within(d, base, share, 1)
    ensures Within(total + d, nominal + base, share, n + 1)
  {
    ScaledSum(nominal, base, share);
  }

  lemma DelayWithin(attempt: nat, retry: RetryConfig, draw: real)
    requires attempt >= 1 && Sensible(retry) && 0.0 <= draw < 1.0
    ensures Within(BackoffDelayMs(attempt, retry, draw), NominalDelay(attempt, retry), retry.jitterFactor, 1)
  {
    NominalNonNegative(attempt, retry);
    OneDelayWithin(NominalDelay(attempt, retry), retry.jitterFactor, draw);
  }

  /** The total sleep stays within the jitter share of the geometric sum, up to rounding. */
  lemma {:induction false} TotalDelayWithin(n: nat, retry: RetryConfig, draw: nat -> real)
    requires Sensible(retry) && DrawsInRange(draw)
    ensures Within(Sum(Delays(n, retry, draw)), Nominal(n, retry), retry.jitterFactor, n)
  {
    if n > 0 {
      TotalDelayWithin(n - 1, retry, draw);
      DelayWithin(n, retry, draw(n));
      SumOfDelays(n, retry, draw);
      WithinAdds(Sum(Delays(n - 1, retry, draw)), Nominal(n - 1, retry), n - 1,
                 BackoffDelayMs(n, retry, draw(n)), NominalDelay(n, retry), retry.jitterFactor);
    }
  }

  lemma SumOfDelays(n: nat, retry: RetryConfig, draw: nat -> real)
    requires n > 0
    ensures Sum(Delays(n, retry, draw)) == Sum(Delays(n - 1, retry, draw)) + BackoffDelayMs(n, retry, draw(n))
  {
  }

  // ---- What the delays are ----

  lemma PowRecurrence(m: real, n: nat)
    ensures Pow(m, 0) == 1.0 && Pow(m, n + 1) == m * Pow(m, n)
  {
  }

  /** The delay before jitter starts at the base and is multiplied on every further failure. */
  lemma DelaysGrowGeometrically(attempt: nat, retry: RetryConfig)
    requires attempt >= 1
    ensures NominalDelay(1, retry) == retry.baseDelayMs
    ensures NominalDelay(attempt, retry) == retry.baseDelayMs * Pow(retry.backoffMultiplier, attempt - 1)
    ensures NominalDelay(attempt + 1, retry) == retry.backoffMultiplier * NominalDelay(attempt, retry)
  {
    NextProduct(retry.baseDelayMs, retry.backoffMultiplier, Pow(retry.backoffMultiplier, attempt - 1));
  }

  lemma NextProduct(base: real, m: real, p: real)
    ensures base * (p * m) == m * (base * p)
  {
  }

  lemma SumStep(base: real, m: real, p: real, sum: real)
    requires sum * (m - 1.0) == base * (p - 1.0)
    ensures (sum + base * p) * (m - 1.0) == base * (m * p - 1.0)
  {
    assert (sum + base * p) * (m - 1.0) == sum * (m - 1.0) + base * p * (m - 1.0);
    assert base * p * (m - 1.0) == base * (m * p) - base * p;
  }

  /** The geometric sum in closed form. */
  lemma {:induction false} NominalClosed(n: nat, retry: RetryConfig)
    ensures Nominal(n, retry) * (retry.backoffMultiplier - 1.0)
            == retry.baseDelayMs * (Pow(retry.backoffMultiplier, n) - 1.0)
  {
    if n > 0 {
      NominalClosed(n - 1, retry);
      PowRecurrence(retry.backoffMultiplier, n - 1);
      DelaysGrowGeometrically(n, retry);
      SumStep(retry.baseDelayMs, retry.backoffMultiplier, Pow(retry.backoffMultiplier, n - 1), Nominal(n - 1, retry));
    }
  }

  lemma JitteredProduct(base: real, share: real, swing: real)
    ensures base + Scaled(Scaled(base, share), swing) == base * (1.0 + share * swing)
  {
  }

  /** delay is ms rounded to the nearest integer, halves up, or 0 if ms is negative. */
  predicate IsNearest(delay: int, ms: real) {
    && (ms >= 0.0 ==> delay as real - 0.5 <= ms < delay as real + 0.5)
    && (ms < 0.0 ==> delay == 0)
  }

  lemma RoundedToNearest(ms: real)
    ensures IsNearest(RoundedDelay(ms), ms)
  {
  }

  lemma SwungExact(base: real, share: real, swing: real)
    ensures IsNearest(RoundedDelay(base + Scaled(Scaled(base, share), swing)), base * (1.0 + share * swing))
  {
    JitteredProduct(base, share, swing);
    RoundedToNearest(base + Scaled(Scaled(base, share), swing));
  }

  lemma JitteredExact(base: real, share: real, draw: real, swing: real)
    requires swing == draw * 2.0 - 1.0
    ensures IsNearest(Jittered(base, share, draw), base * (1.0 + share * swing))
  {
    SwungExact(base, share, swing);
  }

  /** The delay after a failed attempt, for every configuration and draw: the nominal delay
      base * m^(attempt-1) times 1 + j * swing, the swing being the draw moved to [-1, 1); rounded to the
      nearest millisecond, and nothing if negative. */
  lemma BackoffDelayExact(attempt: nat, retry: RetryConfig, draw: real, nominal: real, swing: real)
    requires attempt >= 1
    requires nominal == retry.baseDelayMs * Pow(retry.backoffMultiplier, attempt - 1)
    requires swing == draw * 2.0 - 1.0
    ensures IsNearest(BackoffDelayMs(attempt, retry, draw), nominal * (1.0 + retry.jitterFactor * swing))
  {
    JitteredExact(nominal, retry.jitterFactor, draw, swing);
  }

  // ---- The send loop ----

  /** The path an attempt takes. */
  function ModeUsed(config: Config, jobPriority: int, attempt: nat): FeeMode {
    var isHighPriority := jobPriority >= 2;
    var isJitoAttempt := config.mode == Jito || (config.mode == Auto && attempt == 1);
    var skipJito := config.skipJitoTipOnLowPriorityRetry && !isHighPriority && attempt > 1;
    if isJitoAttempt && !skipJito then Jito else Standard
  }

  /** The number of Jito bundles among attempts 1 to n. */
  function Bundles(config: Config, jobPriority: int, n: nat): nat {
    if n == 0 then 0
    else Bundles(config, jobPriority, n - 1) + if ModeUsed(config, jobPriority, n).Jito? then 1 else 0
  }

  /** Standard mode never uses a bundle, automatic mode only on the first attempt; Jito mode
      always does, except that a job below high priority may be limited to one. */
  lemma {:induction false} BundleCount(config: Config, jobPriority: int, n: nat)
    ensures Bundles(config, jobPriority, n) ==
      match config.mode
      case Standard => 0
      case Auto => if n == 0 then 0 else 1
      case Jito => if n > 0 && config.skipJitoTipOnLowPriorityRetry && jobPriority < 2 then 1 else n
  {
    if n > 0 {
      BundleCount(config, jobPriority, n - 1);
    }
  }

  datatype SendResult =
    | Sent(attempt: nat, modeUsed: FeeMode, priorityFee: Option<real>, jitoTipPaid: bool)
    | AllAttemptsFailed(maxAttempts: int)
    | BudgetRejected(attempt: nat, priorityFee: Option<real>)

  /** What the outside world does at each attempt: the recent fees it reports, whether instructions
      can be built for a bid, whether the transaction lands, and the random number drawn for the
      delay. */
  datatype World = World(
    fees: nat -> Option<seq<real>>, builds: Option<real> -> bool, lands: nat -> bool, draw: nat -> real)

  /** Instructions can be built for every bid that is a number. */
  ghost predicate BuildsNumbers(world: World) {
    forall bid: Option<real> :: bid.Some? ==> world.builds(bid)
  }

  lemma NumbersBuild(world: World, attempt: nat, config: Config)
    ensures 0.0 <= config.priorityFeePercentile <= 100.0 && BuildsNumbers(world) ==>
      world.builds(PriorityFee(world.fees(attempt), config))
  {
    if 0.0 <= config.priorityFeePercentile <= 100.0 {
      PercentagesAlwaysBid(world.fees(attempt), config);
    }
  }

  /** For a sensible configuration the total sleep stays within the jitter share of the geometric sum. */
  ghost predicate SleepsBounded(sleeps: seq<nat>, retry: RetryConfig, draw: nat -> real) {
    Sensible(retry) && DrawsInRange(draw) ==>
      Within(Sum(sleeps), Nominal(|sleeps|, retry), retry.jitterFactor, |sleeps|)
  }

  lemma SleepsAreDelays(sleeps: seq<nat>, retry: RetryConfig, draw: nat -> real)
    requires sleeps == Delays(|sleeps|, retry, draw)
    ensures forall a | 0 <= a < |sleeps| :: sleeps[a] == BackoffDelayMs(a + 1, retry, draw(a + 1))
    ensures SleepsBounded(sleeps, retry, draw)
  {
    DelaysAre(|sleeps|, retry, draw);
    if Sensible(retry) && DrawsInRange(draw) {
      TotalDelayWithin(|sleeps|, retry, draw);
    }
  }

  class HybridFeeStrategy {
    const config: Config

    constructor (config: Config)
      ensures this.config == config
    {
      this.config := config;
    }

    /** Tries until an attempt lands, the attempts run out, or no instructions can be built for a bid:
        they are built outside the error handling, so that ends the whole call. Also returned: the
        path each try took, and each sleep. */
    method Send(jobPriority: int, world: World) returns (r: SendResult, tries: seq<FeeMode>, sleeps: seq<nat>)
      ensures |tries| <= if config.retry.maxAttempts < 0 then 0 else config.retry.maxAttempts
      ensures forall a | 0 <= a < |tries| :: tries[a] == ModeUsed(config, jobPriority, a + 1)
      ensures forall a: nat | 1 <= a < |tries| ::
                world.builds(PriorityFee(world.fees(a), config)) && !world.lands(a)
      ensures r.Sent? ==>
        && r.attempt == |tries| && 1 <= r.attempt
        && world.builds(PriorityFee(world.fees(r.attempt), config)) && world.lands(r.attempt)
        && r.modeUsed == tries[r.attempt - 1] && (r.jitoTipPaid <==> r.modeUsed.Jito?)
        && r.priorityFee == PriorityFee(world.fees(r.attempt), config)
        && |sleeps| == |tries| - 1
      ensures r.BudgetRejected? ==>
        && r.attempt == |tries| + 1 <= config.retry.maxAttempts
        && r.priorityFee == PriorityFee(world.fees(r.attempt), config) && !world.builds(r.priorityFee)
        && (r.attempt > 1 ==>
              world.builds(PriorityFee(world.fees(r.attempt - 1), config)) && !world.lands(r.attempt - 1))
        && |sleeps| == |tries|
      ensures r.AllAttemptsFailed? <==>
        forall a: nat | 1 <= a <= config.retry.maxAttempts ::
          world.builds(PriorityFee(world.fees(a), config)) && !world.lands(a)
      ensures r.AllAttemptsFailed? ==>
        && r.maxAttempts == config.retry.maxAttempts
        && (|tries| == r.maxAttempts || (r.maxAttempts < 0 && tries == []))
        && |sleeps| == if tries == [] then 0 else |tries| - 1
      ensures forall a | 0 <= a < |sleeps| :: sleeps[a] == BackoffDelayMs(a + 1, config.retry, world.draw(a + 1))
      ensures SleepsBounded(sleeps, config.retry, world.draw)
      ensures 0.0 <= config.priorityFeePercentile <= 100.0 && BuildsNumbers(world) ==> !r.BudgetRejected?
    {
      tries, sleeps := [], [];
      var attempt: nat := 1;
      while attempt <= config.retry.maxAttempts
        invariant attempt == |tries| + 1
        invariant |tries| <= if config.retry.maxAttempts < 0 then 0 else config.retry.maxAttempts
        invariant forall a | 0 <= a < |tries| :: tries[a] == ModeUsed(config, jobPriority, a + 1)
        invariant forall a: nat | 1 <= a < attempt ::
                    world.builds(PriorityFee(world.fees(a), config)) && !world.lands(a)
        invariant |sleeps| == if attempt <= config.retry.maxAttempts || tries == [] then |tries| else |tries| - 1
        invariant sleeps == Delays(|sleeps|, config.retry, world.draw)
      {
        var microLamportsPerCu := PriorityFee(world.fees(attempt), config);
        var modeUsed := ModeUsed(config, jobPriority, attempt);
        if !world.builds(microLamportsPerCu) {
          SleepsAreDelays(sleeps, config.retry, world.draw);
          NumbersBuild(world, attempt, config);
          return BudgetRejected(attempt, microLamportsPerCu), tries, sleeps;
        }
        tries := tries + [modeUsed];
        if world.lands(attempt) {
          SleepsAreDelays(sleeps, config.retry, world.draw);
          return Sent(attempt, modeUsed, microLamportsPerCu, modeUsed.Jito?), tries, sleeps;
        }
        var delay := BackoffDelayMs(attempt, config.retry, world.draw(attempt));
        if attempt < config.retry.maxAttempts {
          sleeps := sleeps + [delay];
        }
        attempt := attempt + 1;
      }
      SleepsAreDelays(sleeps, config.retry, world.draw);
      r := AllAttemptsFailed(config.retry.maxAttempts);
    }
  }
}
