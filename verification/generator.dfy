/** The record synthesizer and batch generator of `services/dataGenerator.ts`.
    Every `Math.random()` the source calls is a named `Unit` draw, `Date.now()`
    is `Clock.now`, and the calendar arithmetic of `Date` (going back some
    days, then setting the local hour and minute) is `Clock.setLocal`. */
module Generator {
  import opened Common
  import opened Types
  import opened Sorting

  /** The clock and the local calendar, abstracted. */
  datatype Clock = Clock(
    now: nat,
    hourOf: int -> Hour,                  // new Date(t).getHours()
    dayOf: int -> int,                    // new Date(t).toDateString()
    setLocal: (nat, int, Hour, int) -> int) // now, days back, hour, minute

  // ---------------------------------------------------------------------
  // weightedRandom
  // ---------------------------------------------------------------------

  /** The running sums that `weightedRandom` writes back into `weights`. */
  function PrefixSums(w: seq<nat>): (p: seq<nat>)
    ensures |p| == |w|
    ensures |w| > 0 ==> p[0] == w[0]
    ensures forall i {:trigger w[i]} :: 0 < i < |w| ==> p[i] == p[i - 1] + w[i]
    decreases |w|
  {
    if |w| == 0 then []
    else
      var p := PrefixSums(w[..|w| - 1]);
      p + [(if |p| == 0 then 0 else p[|p| - 1]) + w[|w| - 1]]
  }

  /** The running sums are determined by the weights. */
  lemma {:induction false} RunningSumsUnique(p: seq<nat>, w: seq<nat>)
    requires |p| == |w|
    requires |w| > 0 ==> p[0] == w[0]
    requires forall i {:trigger w[i]} :: 0 < i < |w| ==> p[i] == p[i - 1] + w[i]
    ensures p == PrefixSums(w)
    decreases |w|
  {
    if |w| > 0 {
      var n := |w| - 1;
      RunningSumsUnique(p[..n], w[..n]);
      assert p == p[..n] + [p[n]];
    }
  }

  /** The index the second loop of `weightedRandom` stops at: the first
      running sum exceeding `r`, or the last index when none does. */
  function PickIndex(prefix: seq<nat>, r: real): (i: nat)
    requires |prefix| > 0
    ensures i < |prefix|
    ensures forall j :: 0 <= j < i ==> prefix[j] as real <= r
    ensures prefix[i] as real > r || i == |prefix| - 1
  {
    PickFrom(prefix, r, 0)
  }

  function PickFrom(prefix: seq<nat>, r: real, k: nat): (i: nat)
    requires k < |prefix|
    requires forall j :: 0 <= j < k ==> prefix[j] as real <= r
    ensures k <= i < |prefix|
    ensures forall j :: 0 <= j < i ==> prefix[j] as real <= r
    ensures prefix[i] as real > r || i == |prefix| - 1
    decreases |prefix| - k
  {
    if prefix[k] as real > r || k == |prefix| - 1 then k else PickFrom(prefix, r, k + 1)
  }

  /** The threshold `Math.random() * sum`, built up one unit of the sum at a
      time so that proofs about the pick never face a product of unknowns. */
  function Scale(u: Unit, total: nat): (r: real)
    ensures 0.0 <= r
    decreases total
  {
    if total == 0 then 0.0 else Scale(u, total - 1) + u
  }

  /** `Scale` is the product `u * total`, which stays below the total
      whenever it is positive. */
  lemma {:induction false} ScaleIsProduct(u: Unit, total: nat)
    ensures Scale(u, total) == u * total as real
    ensures total > 0 ==> Scale(u, total) < total as real
    decreases total
  {
    if total > 0 {
      ScaleIsProduct(u, total - 1);
      assert u * total as real == u * (total - 1) as real + u;
    }
  }

  /** `weightedRandom(items, weights)` with `Math.random()` = `u`: the item
      at the first position whose running weight exceeds `u` times the
      total weight, or the last item when there is none. While the total is
      positive there always is one, and it has a positive weight, so an
      item of weight zero is never picked. */
  function WeightedRandom<T>(items: seq<T>, weights: seq<nat>, u: Unit): (pick: T)
    requires 0 < |items| == |weights|
    ensures var p := PrefixSums(weights);
            var r := Scale(u, p[|p| - 1]);
            exists i :: 0 <= i < |items| && pick == items[i]
              && (forall j :: 0 <= j < i ==> p[j] as real <= r)
              && (p[i] as real > r || i == |items| - 1)
              && (p[|p| - 1] > 0 ==> p[i] as real > r && weights[i] > 0)
  {
    var prefix := PrefixSums(weights);
    var r := Scale(u, prefix[|prefix| - 1]);
    var i := PickIndex(prefix, r);
    BelowTotal(u, prefix[|prefix| - 1]);
    PickHasWeight(weights, prefix, r, i);
    items[i]
  }

  /** The scaled draw stays below a positive total. */
  lemma BelowTotal(u: Unit, total: nat)
    ensures total > 0 ==> Scale(u, total) < total as real
  {
    ScaleIsProduct(u, total);
  }

  /** While the threshold is below the total, the picked running sum
      exceeds it and the picked weight is positive. */
  lemma PickHasWeight(weights: seq<nat>, prefix: seq<nat>, r: real, i: nat)
    requires |weights| > 0 && prefix == PrefixSums(weights) && 0.0 <= r
    requires i < |prefix|
    requires forall j :: 0 <= j < i ==> prefix[j] as real <= r
    requires prefix[i] as real > r || i == |prefix| - 1
    ensures r < prefix[|prefix| - 1] as real ==> prefix[i] as real > r && weights[i] > 0
  {
    if r < prefix[|prefix| - 1] as real {
      if i > 0 {
        assert prefix[i] == prefix[i - 1] + weights[i];
      }
    }
  }

  /** A first weight that is positive keeps every running sum positive. */
  lemma {:induction false} PrefixPositive(w: seq<nat>)
    requires |w| > 0 && w[0] > 0
    ensures PrefixSums(w)[|w| - 1] > 0
    decreases |w|
  {
    if |w| > 1 {
      PrefixPositive(w[..|w| - 1]);
      assert w[..|w| - 1][0] == w[0];
    }
  }

  /** `PickIndex` is the only index with its two defining properties. */
  lemma PickIndexUnique(prefix: seq<nat>, r: real, i: nat)
    requires i < |prefix|
    requires forall j :: 0 <= j < i ==> prefix[j] as real <= r
    requires prefix[i] as real > r || i == |prefix| - 1
    ensures i == PickIndex(prefix, r)
  {
  }

  /** The first loop of `weightedRandom`: `weights[i] += weights[i - 1]`. */
  method RunningSums(weights: seq<nat>) returns (prefix: seq<nat>)
    requires |weights| > 0
    ensures |prefix| == |weights| && prefix[0] == weights[0]
    ensures forall i {:trigger weights[i]} :: 0 < i < |weights| ==> prefix[i] == prefix[i - 1] + weights[i]
    ensures prefix == PrefixSums(weights)
  {
    prefix := [weights[0]];
    var i := 1;
    while i < |weights|
      invariant 1 <= i <= |weights|
      invariant |prefix| == i && prefix[0] == weights[0]
      invariant forall j {:trigger weights[j]} :: 0 < j < i ==> prefix[j] == prefix[j - 1] + weights[j]
    {
      prefix := prefix + [prefix[i - 1] + weights[i]];
      i := i + 1;
    }
    RunningSumsUnique(prefix, weights);
  }

  /** The second loop of `weightedRandom`: the first running sum above `r`,
      falling back to the last index. */
  method FirstAbove(prefix: seq<nat>, r: real) returns (index: nat)
    requires |prefix| > 0
    ensures index < |prefix|
    ensures forall j :: 0 <= j < index ==> prefix[j] as real <= r
    ensures prefix[index] as real > r || index == |prefix| - 1
    ensures index == PickIndex(prefix, r)
  {
    index := 0;
    while index < |prefix| - 1 && prefix[index] as real <= r
      invariant 0 <= index < |prefix|
      invariant forall j :: 0 <= j < index ==> prefix[j] as real <= r
    {
      index := index + 1;
    }
    PickIndexUnique(prefix, r, index);
  }

  /** `weightedRandom(items, weights)` as the source runs it, on a copy of
      `weights`; it agrees with the functional `WeightedRandom`. */
  method WeightedRandomLoop<T>(items: seq<T>, weights: seq<nat>, u: Unit) returns (pick: T)
    requires 0 < |items| == |weights|
    ensures pick == WeightedRandom(items, weights, u)
    ensures exists i :: 0 <= i < |items| && pick == items[i]
  {
    var prefix := RunningSums(weights);
    var index := FirstAbove(prefix, Scale(u, prefix[|prefix| - 1]));
    pick := items[index];
  }

  // ---------------------------------------------------------------------
  // Fixed tables
  // ---------------------------------------------------------------------

  /** Relative brewing frequency per local hour 0..23. */
  const HourWeights: seq<nat> :=
    [1, 1, 1, 1, 2, 5, 10, 20, 25, 15, 10, 5, 10, 15, 15, 10, 5, 5, 3, 2, 2, 1, 1, 1]

  function Hours(): (r: seq<Hour>)
    ensures |r| == 24 && forall i :: 0 <= i < 24 ==> r[i] == i
  {
    seq(24, i requires 0 <= i < 24 => i as Hour)
  }

  const CoffeeItems: seq<Beverage> := [Espresso, Lungo, Cappuccino, LatteMacchiato]
  const CoffeeWeights: seq<nat> := [30, 20, 25, 25]
  const TeaItems: seq<Beverage> := [GreenTea, BlackTea, EarlGrey]
  const TeaWeights: seq<nat> := [40, 30, 30]

  datatype CityConfig = CityConfig(center: GeoLocation, spread: real)

  /** The six metro areas with their centres and jitter spread, in key order. */
  const CityConfigs: seq<CityConfig> := [
    CityConfig(GeoLocation("Shanghai", 31.2304, 121.4737), 0.12),
    CityConfig(GeoLocation("Beijing", 39.9042, 116.4074), 0.15),
    CityConfig(GeoLocation("Shenzhen", 22.5431, 114.0579), 0.08),
    CityConfig(GeoLocation("Guangzhou", 23.1291, 113.2644), 0.10),
    CityConfig(GeoLocation("Chengdu", 30.5728, 104.0668), 0.14),
    CityConfig(GeoLocation("Hangzhou", 30.2741, 120.1551), 0.10)
  ]

  /** `CITY_CONFIGS[city]`, or `None` for an unknown city. */
  function ConfigFor(city: string): (c: Option<CityConfig>)
    ensures c.Some? ==> c.value in CityConfigs && c.value.center.city == city
    ensures c.None? ==> forall k :: 0 <= k < |CityConfigs| ==> CityConfigs[k].center.city != city
  {
    ConfigFrom(city, 0)
  }

  function ConfigFrom(city: string, k: nat): (c: Option<CityConfig>)
    requires k <= |CityConfigs|
    ensures c.Some? ==> c.value in CityConfigs && c.value.center.city == city
    ensures c.None? ==> forall j :: k <= j < |CityConfigs| ==> CityConfigs[j].center.city != city
    decreases |CityConfigs| - k
  {
    if k == |CityConfigs| then None
    else if CityConfigs[k].center.city == city then Some(CityConfigs[k])
    else ConfigFrom(city, k + 1)
  }

  /** Base temperature, pressure and volume before jitter. */
  datatype BrewBase = BrewBase(temp: int, pressure: int, volume: int)

  function BaseParams(b: Beverage): BrewBase
  {
    if b == GreenTea then BrewBase(80, 5, 150)
    else if b == Lungo then BrewBase(90, 19, 110)
    else if b == LatteMacchiato then BrewBase(85, 19, 200)
    else BrewBase(90, 19, 40)
  }

  // ---------------------------------------------------------------------
  // generateSingleRecord
  // ---------------------------------------------------------------------

  /** The `Math.random()` values one call of `generateSingleRecord` consumes. */
  datatype RecordDraws = RecordDraws(
    coffee: Unit, hourPick: Unit, minute: Unit, city: Unit, beveragePick: Unit,
    temp: Unit, pressure: Unit, volume: Unit,
    latency: Unit, signal: Unit, cpu: Unit, fault: Unit, faultKind: Unit,
    band: Unit, bandSeed: Unit, age: Unit, gender: Unit, quantity: Unit,
    machine: Unit, firmwareNew: Unit, firmwareMid: Unit)

  /** The skewed user population: a 12-user band drawn 30% of the time, then
      38, 50 and 50 users drawn 35%, 20% and 15% of the time. */
  function UserSeed(band: Unit, u: Unit): (n: nat)
    ensures band > 0.70 ==> n < 12
    ensures 0.35 < band <= 0.70 ==> 12 <= n < 50
    ensures 0.15 < band <= 0.35 ==> 50 <= n < 100
    ensures band <= 0.15 ==> 100 <= n < 150
  {
    if band > 0.70 then (u * 12.0).Floor
    else if band > 0.35 then 12 + (u * 38.0).Floor
    else if band > 0.15 then 50 + (u * 50.0).Floor
    else 100 + (u * 50.0).Floor
  }

  function UserIdFor(seed: nat): string { "USR-" + Show(seed) }

  /** The user of a record: one of the 150 simulated ids. */
  function DrawUser(d: RecordDraws): (u: string)
    ensures exists n: nat :: n < 150 && u == UserIdFor(n)
  {
    UserIdFor(UserSeed(d.band, d.bandSeed))
  }

  /** Local hour drawn from the daily brewing rhythm: the first hour whose
      running weight exceeds `u` times the total weight. */
  function DrawHour(u: Unit): (h: Hour)
    ensures var p := PrefixSums(HourWeights);
            var r := Scale(u, p[23]);
            && (forall j :: 0 <= j < h ==> p[j] as real <= r)
            && p[h] as real > r
  {
    PrefixPositive(HourWeights);
    var h := WeightedRandom(Hours(), HourWeights, u);
    h
  }

  function DrawBeverage(isCoffee: bool, u: Unit): (b: Beverage)
    ensures isCoffee ==> b in CoffeeItems
    ensures !isCoffee ==> b in TeaItems
    ensures b != Ristretto
  {
    if isCoffee then WeightedRandom(CoffeeItems, CoffeeWeights, u)
    else WeightedRandom(TeaItems, TeaWeights, u)
  }

  function DrawCity(u: Unit): (c: GeoLocation)
    ensures exists k :: 0 <= k < |CityConfigs| && c == CityConfigs[k].center
  {
    var k := (u * 6.0).Floor;
    CityConfigs[k].center
  }

  /** A fault two times in a hundred, split evenly between the two codes. */
  function DrawFault(fault: Unit, kind: Unit): (e: Option<ErrorCode>)
    ensures e.Some? <==> fault > 0.98
    ensures e == Some(PressureLow) <==> fault > 0.98 && kind > 0.5
    ensures e == Some(TimeoutGateway) <==> fault > 0.98 && kind <= 0.5
  {
    if fault > 0.98 then Some(if kind > 0.5 then PressureLow else TimeoutGateway) else None
  }

  function DrawFirmware(newer: Unit, mid: Unit): (f: string)
    ensures f in {"2.1.0", "2.0.5", "1.9.8"}
  {
    if newer > 0.8 then "2.1.0" else if mid > 0.5 then "2.0.5" else "1.9.8"
  }

  /** The record time: now for live records, otherwise a drawn local hour
      and minute `historyDaysAgo` days back. */
  function DrawTimestamp(forceNow: bool, historyDaysAgo: int, clock: Clock, d: RecordDraws): (t: int)
    ensures forceNow ==> t == clock.now
    ensures !forceNow ==> exists h: Hour, m :: 0 <= m < 60 && t == clock.setLocal(clock.now, historyDaysAgo, h, m)
  {
    if forceNow then clock.now
    else
      var h, m := DrawHour(d.hourPick), (d.minute * 60.0).Floor;
      assert 0 <= m < 60;
      clock.setLocal(clock.now, historyDaysAgo, h, m)
  }

  /** Temperature, pressure, volume and brewing time jittered around the
      beverage's base values. */
  function DrawParams(base: BrewBase, d: RecordDraws): (p: BrewingParams)
    ensures base.temp - 2 <= p.temperature <= base.temp + 2
    ensures base.volume - 5 <= p.volume <= base.volume + 5
  {
    var volume := Round(base.volume as real + (d.volume * 10.0 - 5.0));
    BrewingParams(
      Round(base.temp as real + (d.temp * 4.0 - 2.0)),
      RoundTenth(base.pressure as real + (d.pressure - 0.5)),
      volume,
      Round(volume as real / 2.5))
  }

  /** Latency, signal and CPU load; a fault adds 200 ms of latency and pins
      the CPU at 95%. */
  function DrawTelemetry(d: RecordDraws): (t: Telemetry)
    ensures t.errorCode == DrawFault(d.fault, d.faultKind)
    ensures t.errorCode.Some? ==> t.cpuUsage == 95 && 220 <= t.latency <= 299
    ensures t.errorCode.None? ==> 20 <= t.latency <= 99 && 10 <= t.cpuUsage <= 69
    ensures -69 <= t.signalStrength <= -30
  {
    var latency := (d.latency * 80.0).Floor + 20;
    var cpu := (d.cpu * 60.0).Floor + 10;
    var errorCode := DrawFault(d.fault, d.faultKind);
    Telemetry(
      if errorCode.Some? then latency + 200 else latency,
      (d.signal * 40.0).Floor * -1 - 30,
      if errorCode.Some? then 95 else cpu,
      errorCode)
  }

  /** `Math.floor(Math.random() * 47) + 18`. */
  function DrawAge(u: Unit): (a: int)
    ensures 18 <= a <= 64
    ensures a as real <= u * 47.0 + 18.0 < a as real + 1.0
  {
    (u * 47.0 + 18.0).Floor
  }

  /** `Math.floor(Math.random() * 2) + 1`: one or two cups. */
  function DrawQuantity(u: Unit): (q: nat)
    ensures q == 1 || q == 2
    ensures q == 2 <==> u >= 0.5
  {
    (u * 2.0).Floor + 1
  }

  /** `generateSingleRecord(id, forceNow, historyDaysAgo)`. */
  function GenerateSingleRecord(id: string, forceNow: bool, historyDaysAgo: int, clock: Clock, d: RecordDraws): (r: IoTRecord)
    ensures forceNow ==> r.timestamp == clock.now
    ensures !forceNow ==> exists h: Hour, m :: 0 <= m < 60 && r.timestamp == clock.setLocal(clock.now, historyDaysAgo, h, m)
    ensures r.id == "REC-" + id
    ensures HasError(r) ==> r.telemetry.cpuUsage == 95 && 220 <= r.telemetry.latency <= 299
    ensures !HasError(r) ==> 20 <= r.telemetry.latency <= 99 && 10 <= r.telemetry.cpuUsage <= 69
    ensures -69 <= r.telemetry.signalStrength <= -30
    ensures exists n: nat :: n < 150 && r.userId == UserIdFor(n)
    ensures 18 <= r.age <= 64
    ensures r.quantity == 1 || r.quantity == 2
    ensures (d.coffee > 0.3 ==> r.beverage in CoffeeItems) && (d.coffee <= 0.3 ==> r.beverage in TeaItems)
    ensures BaseParams(r.beverage).temp - 2 <= r.params.temperature <= BaseParams(r.beverage).temp + 2
    ensures BaseParams(r.beverage).volume - 5 <= r.params.volume <= BaseParams(r.beverage).volume + 5
    ensures exists k :: 0 <= k < |CityConfigs| && r.location == CityConfigs[k].center
    ensures r.firmwareVersion in {"2.1.0", "2.0.5", "1.9.8"}
  {
    var beverage := DrawBeverage(d.coffee > 0.3, d.beveragePick);
    IoTRecord(
      "REC-" + id,
      DrawTimestamp(forceNow, historyDaysAgo, clock, d),
      DrawUser(d),
      DrawAge(d.age),
      if d.gender > 0.48 then Female else Male,
      DrawCity(d.city),
      beverage,
      DrawQuantity(d.quantity),
      DrawParams(BaseParams(beverage), d),
      DrawTelemetry(d),
      "MAC-" + Show((d.machine * 10000.0).Floor),
      DrawFirmware(d.firmwareNew, d.firmwareMid))
  }

  // ---------------------------------------------------------------------
  // generateBatch
  // ---------------------------------------------------------------------

  /** `Math.floor(Math.pow(Math.random(), 2) * 30)`: recency-skewed days back. */
  function DaysAgo(u: Unit): (d: nat)
    ensures d <= 29
    ensures d as real <= u * u * 30.0 < d as real + 1.0
  {
    assert u * u <= u by {
      assert u * u <= u * 1.0;
    }
    (u * u * 30.0).Floor
  }

  datatype BatchDraw = BatchDraw(days: Unit, record: RecordDraws)

  /** The `i`-th record pushed by the loop of `generateBatch`: id
      `REC-<i>`, stamped at some hour and minute between 0 and 29 days back. */
  function BatchRecord(i: nat, clock: Clock, draws: nat -> BatchDraw): (r: IoTRecord)
    ensures r.id == "REC-" + Show(i)
    ensures exists days: nat, h: Hour, m :: days <= 29 && 0 <= m < 60 && r.timestamp == clock.setLocal(clock.now, days, h, m)
  {
    GenerateSingleRecord(Show(i), false, DaysAgo(draws(i).days), clock, draws(i).record)
  }

  /** The batch before sorting, in generation order. */
  function UnsortedBatch(count: nat, clock: Clock, draws: nat -> BatchDraw): (b: seq<IoTRecord>)
    ensures |b| == count
    ensures forall i :: 0 <= i < count ==> b[i] == BatchRecord(i, clock, draws)
  {
    seq(count, i requires 0 <= i => BatchRecord(i, clock, draws))
  }

  function TimestampKey(r: IoTRecord): real { r.timestamp as real }

  /** `generateBatch(count)`: `count` synthetic records, sorted by timestamp. */
  function GenerateBatch(count: nat, clock: Clock, draws: nat -> BatchDraw): (r: seq<IoTRecord>)
    ensures |r| == count
    ensures forall i, j :: 0 <= i < j < |r| ==> r[i].timestamp <= r[j].timestamp
    ensures multiset(r) == multiset(UnsortedBatch(count, clock, draws))
  {
    SortBy(UnsortedBatch(count, clock, draws), TimestampKey)
  }

  /** Every record of the batch is the record generated at some loop index,
      so it went back between 0 and 29 days. */
  lemma BatchRecordsGenerated(count: nat, clock: Clock, draws: nat -> BatchDraw, k: nat)
    requires k < count
    ensures exists i :: 0 <= i < count && GenerateBatch(count, clock, draws)[k] == BatchRecord(i, clock, draws)
  {
    var r := GenerateBatch(count, clock, draws);
    var raw := UnsortedBatch(count, clock, draws);
    assert r[k] in multiset(raw);
    var i :| 0 <= i < |raw| && raw[i] == r[k];
  }

  /** Records generated for distinct loop indices have distinct ids, so the
      sorted batch holds every generated record exactly once. */
  lemma BatchIdsDistinct(i: nat, j: nat, clock: Clock, draws: nat -> BatchDraw)
    requires i != j
    ensures BatchRecord(i, clock, draws).id != BatchRecord(j, clock, draws).id
  {
    if BatchRecord(i, clock, draws).id == BatchRecord(j, clock, draws).id {
      var a := Show(i);
      var b := Show(j);
      assert "REC-" + a == "REC-" + b;
      assert a == ("REC-" + a)[4..];
      assert b == ("REC-" + b)[4..];
      ShowInjective(i, j);
    }
  }
}
