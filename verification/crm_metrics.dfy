/** The behavioural metrics `generateUserProfile` (in
    `services/crmEngine.ts`) derives from one user's records: activity
    dates, active days, daily rate, lifetime value, the week-over-week
    trend, the loyalty tier, the simulated financials, and the per-product
    pod inventory. */
module CrmMetrics {
  import opened Common
  import opened Types
  import opened Sorting
  import Aggregation

  /** `7 * 24 * 60 * 60 * 1000`. */
  const WeekMs: int := 7 * DayMs

  // ---------------------------------------------------------------------
  // Activity dates
  // ---------------------------------------------------------------------

  /** The comparator `(a, b) => b.timestamp - a.timestamp`. */
  function NewestFirst(r: IoTRecord): real { -(r.timestamp as real) }

  /** `t` is the newest timestamp among the records. */
  predicate IsLatest(records: seq<IoTRecord>, t: int)
  {
    && (exists i :: 0 <= i < |records| && records[i].timestamp == t)
    && (forall i :: 0 <= i < |records| ==> records[i].timestamp <= t)
  }

  /** `t` is the oldest timestamp among the records. */
  predicate IsEarliest(records: seq<IoTRecord>, t: int)
  {
    && (exists i :: 0 <= i < |records| && records[i].timestamp == t)
    && (forall i :: 0 <= i < |records| ==> t <= records[i].timestamp)
  }

  /** The newest-first sort starts at the newest record and ends at the
      oldest. */
  lemma RecencyEnds(records: seq<IoTRecord>)
    requires |records| > 0
    ensures IsLatest(records, SortBy(records, NewestFirst)[0].timestamp)
    ensures IsEarliest(records, SortBy(records, NewestFirst)[|records| - 1].timestamp)
  {
    SortedEndsAreExtremes(records, SortBy(records, NewestFirst));
  }

  /** Any newest-first arrangement of the records starts at the newest one
      and ends at the oldest. */
  lemma SortedEndsAreExtremes(records: seq<IoTRecord>, s: seq<IoTRecord>)
    requires |s| > 0 && SortedBy(s, NewestFirst) && multiset(s) == multiset(records)
    ensures IsLatest(records, s[0].timestamp)
    ensures IsEarliest(records, s[|s| - 1].timestamp)
  {
    var last := |s| - 1;
    RecencyBounds(records, s);
    assert s[0] in multiset(records) && s[last] in multiset(records);
    var i :| 0 <= i < |records| && records[i] == s[0];
    var j :| 0 <= j < |records| && records[j] == s[last];
  }

  lemma RecencyBounds(records: seq<IoTRecord>, s: seq<IoTRecord>)
    requires |s| > 0 && SortedBy(s, NewestFirst) && multiset(s) == multiset(records)
    ensures forall i :: 0 <= i < |records| ==> s[|s| - 1].timestamp <= records[i].timestamp <= s[0].timestamp
  {
    forall i | 0 <= i < |records|
      ensures s[|s| - 1].timestamp <= records[i].timestamp <= s[0].timestamp
    {
      assert records[i] in multiset(s);
      var k :| 0 <= k < |s| && s[k] == records[i];
      SortedEnds(s, NewestFirst, k);
    }
  }

  lemma SortedEnds<T>(s: seq<T>, key: T -> real, k: nat)
    requires SortedBy(s, key) && k < |s|
    ensures key(s[0]) <= key(s[k]) <= key(s[|s| - 1])
  {
    if 0 < k { assert key(s[0]) <= key(s[k]); }
    if k < |s| - 1 { assert key(s[k]) <= key(s[|s| - 1]); }
  }

  /** `sortedRecords[0]?.timestamp || Date.now()`: the newest timestamp,
      or now when there is none or it is the falsy 0. */
  function LastActive(records: seq<IoTRecord>, now: int): (t: int)
    ensures |records| == 0 ==> t == now
    ensures |records| > 0 && IsLatest(records, 0) ==> t == now
    ensures |records| > 0 && !IsLatest(records, 0) ==> IsLatest(records, t) && t != 0
  {
    if |records| == 0 then now
    else
      var s := SortBy(records, NewestFirst);
      RecencyEnds(records);
      if s[0].timestamp == 0 then now else s[0].timestamp
  }

  /** `sortedRecords[sortedRecords.length - 1]?.timestamp || Date.now()`. */
  function JoinDate(records: seq<IoTRecord>, now: int): (t: int)
    ensures |records| == 0 ==> t == now
    ensures |records| > 0 && IsEarliest(records, 0) ==> t == now
    ensures |records| > 0 && !IsEarliest(records, 0) ==> IsEarliest(records, t) && t != 0
  {
    if |records| == 0 then now
    else
      var s := SortBy(records, NewestFirst);
      RecencyEnds(records);
      if s[|s| - 1].timestamp == 0 then now else s[|s| - 1].timestamp
  }

  // ---------------------------------------------------------------------
  // Frequency and value
  // ---------------------------------------------------------------------

  /** The local calendar days on which the user brewed, in record order. */
  function Days(records: seq<IoTRecord>, dayOf: int -> int): (d: seq<int>)
    ensures |d| == |records|
    ensures forall i :: 0 <= i < |records| ==> d[i] == dayOf(records[i].timestamp)
  {
    seq(|records|, i requires 0 <= i < |records| => dayOf(records[i].timestamp))
  }

  /** `new Set(records.map(toDateString)).size`. */
  function DaysActive(records: seq<IoTRecord>, dayOf: int -> int): (d: nat)
    ensures d <= |records|
    ensures d == 0 <==> |records| == 0
    ensures d == |Elements(Days(records, dayOf))|
  {
    DistinctIsSetSize(Days(records, dayOf));
    |Distinct(Days(records, dayOf))|
  }

  /** `daysActive > 0 ? totalBrews / daysActive : 0.5`. */
  function DailyBrews(records: seq<IoTRecord>, dayOf: int -> int): (r: real)
    ensures |records| == 0 ==> r == 0.5
    ensures |records| > 0 ==> 1.0 <= r <= |records| as real
  {
    var n, d := |records|, DaysActive(records, dayOf);
    if d > 0 then
      Ratio(n, d);
      n as real / d as real
    else 0.5
  }

  /** The daily rate times the number of active days gives back the
      number of brews. */
  lemma DailyBrewsIsRate(records: seq<IoTRecord>, dayOf: int -> int)
    requires |records| > 0
    ensures DailyBrews(records, dayOf) * DaysActive(records, dayOf) as real == |records| as real
  {
  }

  /** `n / d` for `0 < d <= n` lies between 1 and `n`. */
  lemma Ratio(n: nat, d: nat)
    requires 0 < d <= n
    ensures 1.0 <= n as real / d as real <= n as real
  {
    var q := n as real / d as real;
    DivBounds(n as real, d as real);
    assert q * d as real == n as real;
    assert q * (d as real - 1.0) >= 0.0;
  }

  /** `Math.min(100, totalBrews * 2 + averageDailyBrews * 12)`. */
  function LifetimeValue(total: nat, dailyBrews: real): (v: real)
    ensures v <= 100.0 && v <= total as real * 2.0 + dailyBrews * 12.0
    ensures v == 100.0 || v == total as real * 2.0 + dailyBrews * 12.0
  {
    MinReal(100.0, total as real * 2.0 + dailyBrews * 12.0)
  }

  /** More brews at no lower daily rate never lower the value. */
  lemma LifetimeValueMonotone(t1: nat, t2: nat, d1: real, d2: real)
    requires t1 <= t2 && d1 <= d2
    ensures LifetimeValue(t1, d1) <= LifetimeValue(t2, d2)
  {
  }

  /** The tier thresholds 80, 45 and 15 on the unrounded value. */
  function Tier(ltv: real): (t: LoyaltyTier)
    ensures t == Platinum <==> ltv >= 80.0
    ensures t == Gold <==> 45.0 <= ltv < 80.0
    ensures t == Silver <==> 15.0 <= ltv < 45.0
    ensures t == Bronze <==> ltv < 15.0
  {
    if ltv >= 80.0 then Platinum
    else if ltv >= 45.0 then Gold
    else if ltv >= 15.0 then Silver
    else Bronze
  }

  function TierRank(t: LoyaltyTier): nat
  {
    match t
    case Bronze => 0
    case Silver => 1
    case Gold => 2
    case Platinum => 3
  }

  /** A higher value never earns a lower tier. */
  lemma TierMonotone(a: real, b: real)
    requires a <= b
    ensures TierRank(Tier(a)) <= TierRank(Tier(b))
  {
  }

  // ---------------------------------------------------------------------
  // Week-over-week trend
  // ---------------------------------------------------------------------

  /** `records.filter(r => r.timestamp > t).length`: none exactly when no
      record is newer than `t`, all exactly when every record is. */
  function Newer(records: seq<IoTRecord>, t: int): (n: nat)
    ensures n <= |records|
    ensures n == 0 <==> forall i :: 0 <= i < |records| ==> records[i].timestamp <= t
    ensures n == |records| <==> forall i :: 0 <= i < |records| ==> records[i].timestamp > t
  {
    if |records| == 0 then 0
    else
      var init := records[..|records| - 1];
      assert forall i :: 0 <= i < |init| ==> init[i] == records[i];
      Newer(init, t) + (if records[|records| - 1].timestamp > t then 1 else 0)
  }

  /** The number of records in the window `(lo, hi]`: none exactly when no
      timestamp falls in it. */
  function Window(records: seq<IoTRecord>, lo: int, hi: int): (n: nat)
    ensures n <= |records|
    ensures n == 0 <==> forall i :: 0 <= i < |records| ==> !(lo < records[i].timestamp <= hi)
  {
    if |records| == 0 then 0
    else
      var init := records[..|records| - 1];
      assert forall i :: 0 <= i < |init| ==> init[i] == records[i];
      var ts := records[|records| - 1].timestamp;
      Window(init, lo, hi) + (if lo < ts <= hi then 1 else 0)
  }

  /** The window `(lo, hi]` and the records after `hi` are the records
      after `lo`: the two weeks never count a record twice. */
  lemma {:induction false} WindowSplit(records: seq<IoTRecord>, lo: int, hi: int)
    requires lo <= hi
    ensures Window(records, lo, hi) + Newer(records, hi) == Newer(records, lo)
  {
    if |records| > 0 {
      WindowSplit(records[..|records| - 1], lo, hi);
    }
  }

  /** `recentWeekCount` and `previousWeekCount`: the records of the last
      seven days and of the seven days before, which together are the
      records of the last fortnight. */
  function WeekCounts(records: seq<IoTRecord>, now: int): (c: (nat, nat))
    ensures c.0 == Newer(records, now - WeekMs)
    ensures c.1 == Window(records, now - 2 * WeekMs, now - WeekMs)
    ensures c.0 + c.1 <= |records|
    ensures c.0 + c.1 == Newer(records, now - 2 * WeekMs)
  {
    WindowSplit(records, now - 2 * WeekMs, now - WeekMs);
    (Newer(records, now - WeekMs), Window(records, now - 2 * WeekMs, now - WeekMs))
  }

  /** `trendRatio < 0.7`, where the ratio is 1 without a previous week. */
  function Declining(recent: nat, previous: nat): (d: bool)
    ensures d <==> previous > 0 && 10 * recent < 7 * previous
  {
    DeclineRule(recent, previous);
    (if previous == 0 then 1.0 else recent as real / previous as real) < 0.7
  }

  lemma DeclineRule(recent: nat, previous: nat)
    ensures ((if previous == 0 then 1.0 else recent as real / previous as real) < 0.7) <==> (previous > 0 && 10 * recent < 7 * previous)
  {
    if previous > 0 {
      var q := recent as real / previous as real;
      assert q * previous as real == recent as real;
      if q < 0.7 { assert q * previous as real < 0.7 * previous as real; }
      if q >= 0.7 { assert q * previous as real >= 0.7 * previous as real; }
    }
  }

  /** The `slope` input of the churn model: 2 for activity out of nothing,
      0 for none at all. */
  function Slope(recent: nat, previous: nat): (s: real)
    ensures s >= 0.0
    ensures previous == 0 ==> (s == 2.0 <==> recent > 0) && (s == 0.0 <==> recent == 0)
    ensures previous > 0 ==> s * previous as real == recent as real
  {
    if previous == 0 then (if recent > 0 then 2.0 else 0.0) else recent as real / previous as real
  }

  /** `Math.min(30, daysSinceLastActive)`. */
  function RecencyDays(now: int, lastActive: int): (d: real)
    ensures d <= 30.0
    ensures lastActive <= now && now - lastActive <= 30 * DayMs ==> d * DayMs as real == (now - lastActive) as real
  {
    MinReal(30.0, (now - lastActive) as real / DayMs as real)
  }

  // ---------------------------------------------------------------------
  // Financials
  // ---------------------------------------------------------------------

  /** `Math.max(1, Math.ceil(totalBrews / 50))`: one order per fifty pods. */
  function EstimatedOrders(total: nat): (o: nat)
    ensures o >= 1
    ensures total <= 50 * o
    ensures total > 0 ==> 50 * (o - 1) < total
    ensures total == 0 ==> o == 1
  {
    var c := Ceil(total as real / 50.0);
    assert c as real * 50.0 >= total as real;
    if c >= 1 then c else 1
  }

  /** `estimatedOrders > 1 ? Math.floor(daysActive / estimatedOrders) : 30`. */
  function OrderFrequencyDays(daysActive: nat, orders: nat): (f: nat)
    ensures orders > 1 ==> f * orders <= daysActive < (f + 1) * orders
    ensures orders <= 1 ==> f == 30
  {
    if orders > 1 then daysActive / orders else 30
  }

  /** 4.5 per pod; the last order is an average order. */
  function FinancialsOf(total: nat, daysActive: nat): (f: Financials)
    ensures f.totalSpend == 4.5 * total as real
    ensures f.lastOrderAmount == f.avgOrderValue
    ensures f.orderFrequencyDays == OrderFrequencyDays(daysActive, EstimatedOrders(total))
  {
    var spend := total as real * 4.5;
    var orders := EstimatedOrders(total);
    var avg := spend / orders as real;
    Financials(spend, avg, OrderFrequencyDays(daysActive, orders), avg)
  }

  /** The average order value times the estimated number of orders gives
      back the total spend. */
  lemma AverageOrderValue(total: nat, daysActive: nat)
    ensures FinancialsOf(total, daysActive).avgOrderValue * EstimatedOrders(total) as real == 4.5 * total as real
  {
  }

  // ---------------------------------------------------------------------
  // Pod inventory
  // ---------------------------------------------------------------------

  /** `(charCodeAt(0) + charCodeAt(length - 1)) % 100 / 100`; NaN (here
      `None`) for the empty id. */
  function RandomFactor(userId: string): (f: Option<real>)
    ensures f.None? <==> |userId| == 0
    ensures f.Some? ==> 0.0 <= f.value <= 0.99
  {
    if |userId| == 0 then None
    else Some(((userId[0] as int + userId[|userId| - 1] as int) % 100) as real / 100.0)
  }

  /** `Date.now() - daysSinceOrder` days, where the order is 1 to 40 days
      old. */
  function LastOrderDate(userId: string, now: int): (d: Option<int>)
    ensures d.None? <==> |userId| == 0
    ensures d.Some? ==> now - 40 * DayMs <= d.value <= now - DayMs && (now - d.value) % DayMs == 0
  {
    match RandomFactor(userId)
    case None => None
    case Some(f) =>
      var daysSince := (f * 40.0).Floor + 1;
      assert f * 40.0 <= 0.99 * 40.0;
      Some(now - daysSince * DayMs)
  }

  /** Records of `bev` newer than the last order; none when the order date
      is NaN, since every comparison with NaN is false. */
  function ConsumedSince(records: seq<IoTRecord>, bev: Beverage, lastOrder: Option<int>): (n: nat)
    ensures n <= |Select(records, BeverageOf, bev)|
    ensures lastOrder.None? ==> n == 0
    ensures lastOrder.Some? ==> n == Newer(Select(records, BeverageOf, bev), lastOrder.value)
  {
    if |records| == 0 then 0
    else
      var r := records[|records| - 1];
      var n := ConsumedSince(records[..|records| - 1], bev, lastOrder)
        + (if lastOrder.Some? && r.beverage == bev && r.timestamp > lastOrder.value then 1 else 0);
      if lastOrder.Some? && r.beverage == bev then
        NewerSnoc(Select(records[..|records| - 1], BeverageOf, bev), r, lastOrder.value);
        n
      else n
  }

  /** Counting the newer records of a sequence one record longer. */
  lemma NewerSnoc(s: seq<IoTRecord>, x: IoTRecord, t: int)
    ensures Newer(s + [x], t) == Newer(s, t) + (if x.timestamp > t then 1 else 0)
  {
    assert (s + [x])[..|s|] == s;
  }

  /** The status bands on estimated days of stock. */
  function StockStatusOf(days: int): (s: StockLevel)
    ensures s == Critical <==> days <= 3
    ensures s == StockLevel.Low <==> 3 < days <= 7
    ensures s == StockLevel.Medium <==> 7 < days <= 14
    ensures s == StockLevel.High <==> days > 14
  {
    if days <= 3 then Critical
    else if days <= 7 then StockLevel.Low
    else if days <= 14 then StockLevel.Medium
    else StockLevel.High
  }

  /** `Math.max(20, Math.ceil(dailyRate * 35 / 10) * 10)`: five weeks of
      pods rounded up to tens, at least twenty. */
  function OrderQuantity(rate: real): (q: nat)
    ensures q >= 20 && q % 10 == 0
    ensures q as real >= rate * 35.0
    ensures q == 20 || (q - 10) as real < rate * 35.0
  {
    var c := Ceil(rate * 35.0 / 10.0);
    if c * 10 >= 20 then c * 10 else 20
  }

  /** One inventory line: `count` brews of `bev` over `daysActive` days,
      `consumed` of them since the last order, `refill` the draw used when
      consumption exceeds the order. */
  function Item(bev: Beverage, count: nat, daysActive: nat, consumed: nat, refill: Unit): (it: InventoryItem)
    ensures it.sku == bev
    ensures it.lastOrderQty >= 20 && it.lastOrderQty % 10 == 0
    ensures 0 <= it.currentStock <= it.lastOrderQty
    ensures consumed <= it.lastOrderQty ==> it.currentStock == it.lastOrderQty - consumed
    ensures consumed > it.lastOrderQty ==> it.currentStock < 5
    ensures count == 0 ==> it.estimatedDaysLeft == 99
    ensures count > 0 ==> it.estimatedDaysLeft == it.currentStock * MaxInt(1, daysActive) / count
    ensures it.estimatedDaysLeft >= 0
    ensures it.status == StockStatusOf(it.estimatedDaysLeft)
  {
    var span := MaxInt(1, daysActive);
    var rate := count as real / span as real;
    var qty := OrderQuantity(rate);
    var stock0 := qty - consumed;
    var stock := if stock0 < 0 then (refill * 5.0).Floor else stock0;
    var days := if rate > 0.0 then (stock as real / rate).Floor else 99;
    assert count > 0 ==> days == stock * span / count by {
      if count > 0 { DaysOfStock(stock, span, count); }
    }
    InventoryItem(bev, stock, qty, RoundTenth(rate), days, StockStatusOf(days))
  }

  /** `Math.floor(stock / (count / span))` in integers. */
  lemma DaysOfStock(stock: nat, span: nat, count: nat)
    requires span > 0 && count > 0
    ensures (stock as real / (count as real / span as real)).Floor == stock * span / count
  {
    var a, b, c := stock as real, count as real, span as real;
    DivideByRatio(a, b, c);
    var p := stock * span;
    assert a * c == p as real;
    FloorOfQuotient(p, count);
    assert a / (b / c) == p as real / b;
  }

  lemma DivideByRatio(a: real, b: real, c: real)
    requires b > 0.0 && c > 0.0
    ensures a / (b / c) == (a * c) / b
  {
    var r := b / c;
    assert r * c == b;
    var x := a / r;
    assert x * r == a;
    assert x * b == a * c by {
      assert x * b == x * (r * c) == (x * r) * c;
    }
  }

  /** One step of the worst-status scan: critical sticks, low replaces
      anything but critical, medium and high change nothing. */
  function Worsen(worst: StockLevel, s: StockLevel): (r: StockLevel)
    ensures r == Critical <==> worst == Critical || s == Critical
    ensures r == StockLevel.Low <==> worst != Critical && s != Critical && (worst == StockLevel.Low || s == StockLevel.Low)
    ensures s != Critical && s != StockLevel.Low ==> r == worst
  {
    if s == Critical then Critical
    else if s == StockLevel.Low && worst != Critical then StockLevel.Low
    else worst
  }

  /** `worstItemStatus` after the items, starting from high. */
  function WorstOf(items: seq<InventoryItem>): (w: StockLevel)
    ensures w != StockLevel.Medium
    ensures w == Critical <==> exists i :: 0 <= i < |items| && items[i].status == Critical
    ensures w == StockLevel.Low <==>
              (forall i :: 0 <= i < |items| ==> items[i].status != Critical)
              && exists i :: 0 <= i < |items| && items[i].status == StockLevel.Low
    decreases |items|
  {
    if |items| == 0 then StockLevel.High
    else
      var init := items[..|items| - 1];
      assert forall i :: 0 <= i < |init| ==> init[i] == items[i];
      Worsen(WorstOf(init), items[|items| - 1].status)
  }

  function Lines(records: seq<IoTRecord>, top: seq<(Beverage, nat)>, daysActive: nat, lastOrder: Option<int>, refill: nat -> Unit)
    : (items: seq<InventoryItem>)
    ensures |items| == |top|
    ensures forall i :: 0 <= i < |top| ==> items[i] == Item(top[i].0, top[i].1, daysActive, ConsumedSince(records, top[i].0, lastOrder), refill(i))
  {
    seq(|top|, i requires 0 <= i < |top| => Item(top[i].0, top[i].1, daysActive, ConsumedSince(records, top[i].0, lastOrder), refill(i)))
  }

  /** The inventory built from the ranked beverage entries (most brewed
      first): one line for each of the top three. */
  function Inventory(records: seq<IoTRecord>, ranked: seq<(Beverage, nat)>, daysActive: nat, lastOrder: Option<int>, refill: nat -> Unit)
    : (inv: InventoryStatus)
    ensures inv.lastOrderDate == lastOrder
    ensures |inv.items| == if |ranked| < 3 then |ranked| else 3
    ensures forall i :: 0 <= i < |inv.items| ==> inv.items[i].sku == ranked[i].0
    ensures forall i :: 0 <= i < |inv.items| ==>
              inv.items[i] == Item(ranked[i].0, ranked[i].1, daysActive, ConsumedSince(records, ranked[i].0, lastOrder), refill(i))
    ensures forall i :: 0 <= i < |inv.items| ==> inv.items[i].lastOrderQty >= 20 && inv.items[i].lastOrderQty % 10 == 0
    ensures inv.overallStatus == WorstOf(inv.items)
  {
    var top := if |ranked| < 3 then ranked else ranked[..3];
    var items := Lines(records, top, daysActive, lastOrder, refill);
    InventoryStatus(lastOrder, WorstOf(items), items)
  }
}
