/** `aggregateStats` of `services/dataGenerator.ts`: one pass over the
    records filling three counting tables and three running totals, then
    the averages, the error rate and the leading beverage. */
module Aggregation {
  import opened Common
  import opened Types
  import opened Sorting

  /** The locals of `aggregateStats` after a prefix of the records. The two
      orders are the insertion orders of the `bevCounts` and `cityCounts`
      objects, which `Object.entries` follows. */
  datatype Acc = Acc(
    bevCounts: map<Beverage, nat>,
    bevOrder: seq<Beverage>,
    cityCounts: map<string, nat>,
    cityOrder: seq<string>,
    timeDist: HourBuckets,
    totalTemp: int,
    totalLatency: int,
    errorCount: nat)

  function NoBrews(): (t: HourBuckets)
    ensures forall h :: 0 <= h < 24 ==> t[h] == 0
  {
    seq(24, h => 0)
  }

  function EmptyAcc(): Acc
  {
    Acc(map[], [], map[], [], NoBrews(), 0, 0, 0)
  }

  /** `timeDist[h]++`. */
  function Tick(t: HourBuckets, h: Hour): (r: HourBuckets)
    ensures r[h] == t[h] + 1
    ensures forall i :: 0 <= i < 24 && i != h ==> r[i] == t[i]
    ensures SumNat(r) == SumNat(t) + 1
  {
    SumNatUpdate(t, h, t[h] + 1);
    t[h := t[h] + 1]
  }

  /** A key joins the insertion order the first time it is counted. */
  function Note<K(==)>(order: seq<K>, k: K): seq<K>
  {
    if k in order then order else order + [k]
  }

  /** The body of `data.forEach`. */
  function Step(a: Acc, r: IoTRecord, hourOf: int -> Hour): Acc
  {
    Acc(
      Bump(a.bevCounts, r.beverage),
      Note(a.bevOrder, r.beverage),
      Bump(a.cityCounts, CityOf(r)),
      Note(a.cityOrder, CityOf(r)),
      Tick(a.timeDist, hourOf(r.timestamp)),
      a.totalTemp + r.params.temperature,
      a.totalLatency + r.telemetry.latency,
      if HasError(r) then a.errorCount + 1 else a.errorCount)
  }

  function Fold(data: seq<IoTRecord>, hourOf: int -> Hour): Acc
  {
    if |data| == 0 then EmptyAcc() else Step(Fold(data[..|data| - 1], hourOf), data[|data| - 1], hourOf)
  }

  /** The running totals after one more record. */
  lemma FoldTotals(data: seq<IoTRecord>, hourOf: int -> Hour)
    requires |data| > 0
    ensures var a, x := Fold(data[..|data| - 1], hourOf), data[|data| - 1];
            && Fold(data, hourOf).totalTemp == a.totalTemp + x.params.temperature
            && Fold(data, hourOf).totalLatency == a.totalLatency + x.telemetry.latency
            && Fold(data, hourOf).errorCount == a.errorCount + (if HasError(x) then 1 else 0)
  {
  }

  /** The fold's running totals are the sums over the records, and its
      error count the number of faulty records. */
  lemma {:induction false} FoldSums(data: seq<IoTRecord>, hourOf: int -> Hour)
    ensures Fold(data, hourOf).totalTemp == TotalTemp(data)
    ensures Fold(data, hourOf).totalLatency == TotalLatency(data)
    ensures Fold(data, hourOf).errorCount == |Select(data, ErrorFlag, true)|
  {
    if |data| > 0 {
      FoldSums(data[..|data| - 1], hourOf);
    }
  }

  /** A record with a fault among the data makes the error count positive. */
  lemma {:induction false} ErrorCountPositive(records: seq<IoTRecord>, hourOf: int -> Hour)
    requires exists i :: 0 <= i < |records| && HasError(records[i])
    ensures Fold(records, hourOf).errorCount > 0
  {
    var n := |records| - 1;
    var prev := Fold(records[..n], hourOf);
    assert Fold(records, hourOf) == Step(prev, records[n], hourOf);
    if !HasError(records[n]) {
      var i :| 0 <= i < |records| && HasError(records[i]);
      assert records[..n][i] == records[i];
      ErrorCountPositive(records[..n], hourOf);
    }
  }

  /** `total / n || 0`: NaN for an empty list becomes 0. */
  function Mean(total: real, n: nat): real
  {
    if n == 0 then 0.0 else total / n as real
  }

  /** A mean multiplied back by its count gives the total; no records give
      the mean 0. */
  lemma MeanTimesCount(total: real, n: nat)
    ensures n == 0 ==> Mean(total, n) == 0.0
    ensures n > 0 ==> Mean(total, n) * n as real == total
  {
  }

  /** One record counted: its beverage, city and hour each gain one, every
      other entry is unchanged, and the totals grow by its values. */
  lemma StepCounts(a: Acc, x: IoTRecord, hourOf: int -> Hour)
    ensures var r := Step(a, x, hourOf);
            && (forall b :: Get(r.bevCounts, b) == Get(a.bevCounts, b) + (if b == x.beverage then 1 else 0))
            && (forall c :: Get(r.cityCounts, c) == Get(a.cityCounts, c) + (if c == CityOf(x) then 1 else 0))
            && (forall h :: 0 <= h < 24 ==> r.timeDist[h] == a.timeDist[h] + (if h == hourOf(x.timestamp) then 1 else 0))
            && r.totalTemp == a.totalTemp + x.params.temperature
            && r.totalLatency == a.totalLatency + x.telemetry.latency
            && r.errorCount == a.errorCount + (if HasError(x) then 1 else 0)
  {
  }

  function Entries(order: seq<Beverage>, counts: map<Beverage, nat>): (e: seq<(Beverage, nat)>)
    ensures |e| == |order|
    ensures forall i :: 0 <= i < |order| ==> e[i] == (order[i], Get(counts, order[i]))
  {
    seq(|order|, i requires 0 <= i < |order| => (order[i], Get(counts, order[i])))
  }

  /** The comparator `(a, b) => b[1] - a[1]` as an ascending key. */
  function CountDesc(e: (Beverage, nat)): real { -(e.1 as real) }

  /** `Object.entries(bevCounts).sort(...)[0]?.[0] || 'N/A'`. */
  function TopBeverage(order: seq<Beverage>, counts: map<Beverage, nat>): Option<Beverage>
  {
    if |order| == 0 then None else Some(SortBy(Entries(order, counts), CountDesc)[0].0)
  }

  /** `new Set(data.map(d => d.userId))`. */
  function UserIds(data: seq<IoTRecord>): set<string>
  {
    set i | 0 <= i < |data| :: data[i].userId
  }

  function AggregateStats(data: seq<IoTRecord>, hourOf: int -> Hour): (s: AggregatedStats)
    ensures s.totalBrews == |data|
    ensures |data| == 0 ==> s.avgTemp == 0.0 && s.avgLatency == 0.0 && s.errorRate == 0.0 && s.topBeverage == None
    ensures 0.0 <= s.errorRate <= 1.0
    ensures |data| > 0 ==> s.topBeverage.Some?
    ensures |data| > 0 ==> s.errorRate == |Select(data, ErrorFlag, true)| as real / |data| as real
    ensures |data| > 0 ==> s.avgTemp == TotalTemp(data) as real / |data| as real
    ensures |data| > 0 ==> s.avgLatency == TotalLatency(data) as real / |data| as real
  {
    var a := Fold(data, hourOf);
    FoldInvariant(data, hourOf);
    FoldSums(data, hourOf);
    var n := |data|;
    RateBetween(a.errorCount, n);
    AggregatedStats(
      n,
      Mean(a.totalTemp as real, n),
      TopBeverage(a.bevOrder, a.bevCounts),
      |UserIds(data)|,
      a.cityCounts,
      a.timeDist,
      a.bevCounts,
      Mean(a.totalLatency as real, n),
      Mean(a.errorCount as real, n))
  }

  /** `activeUsers` is the number of distinct user ids, the same count as
      the users `getCRMProfiles` builds profiles for. */
  lemma ActiveUsersAreDistinctIds(data: seq<IoTRecord>, hourOf: int -> Hour)
    ensures AggregateStats(data, hourOf).activeUsers == |Distinct(Keys(data, UserOf))|
  {
    var ids := Keys(data, UserOf);
    DistinctIsSetSize(ids);
    assert Elements(ids) == UserIds(data) by {
      forall u | u in UserIds(data) ensures u in Elements(ids) {
        var i :| 0 <= i < |data| && data[i].userId == u;
        assert ids[i] == u;
      }
    }
  }

  // ---------------------------------------------------------------------
  // What the fold maintains
  // ---------------------------------------------------------------------

  predicate NoDuplicates<K(==)>(s: seq<K>)
  {
    forall i, j :: 0 <= i < j < |s| ==> s[i] != s[j]
  }

  /** The insertion orders list each counted key exactly once, and every
      table adds up to the number of records folded. */
  ghost predicate AccInvariant(a: Acc, n: nat)
  {
    && NoDuplicates(a.bevOrder)
    && (forall b :: b in a.bevOrder <==> b in a.bevCounts)
    && NoDuplicates(a.cityOrder)
    && (forall c :: c in a.cityOrder <==> c in a.cityCounts)
    && SumOver(a.bevOrder, a.bevCounts) == n
    && SumOver(a.cityOrder, a.cityCounts) == n
    && SumNat(a.timeDist) == n
    && a.errorCount <= n
  }

  lemma NoteBump<K>(order: seq<K>, m: map<K, nat>, k: K)
    requires NoDuplicates(order) && (forall x :: x in order <==> x in m)
    ensures NoDuplicates(Note(order, k))
    ensures forall x :: x in Note(order, k) <==> x in Bump(m, k)
    ensures SumOver(Note(order, k), Bump(m, k)) == SumOver(order, m) + 1
  {
    if k in order {
      SumOverBumpListed(order, m, k);
    } else {
      assert Get(m, k) == 0;
      SumOverBumpFresh(order, m, k);
    }
  }

  lemma {:induction false} FoldInvariant(data: seq<IoTRecord>, hourOf: int -> Hour)
    ensures AccInvariant(Fold(data, hourOf), |data|)
  {
    if |data| == 0 {
      assert SumNat(EmptyAcc().timeDist) == 0 by {
        var z := EmptyAcc().timeDist;
        forall h | 0 <= h <= 24 ensures SumNat(z[..h]) == 0 {
          ZeroPrefix(z, h);
        }
        assert z[..24] == z;
      }
    } else {
      var n := |data| - 1;
      var a := Fold(data[..n], hourOf);
      var r := data[n];
      FoldInvariant(data[..n], hourOf);
      NoteBump(a.bevOrder, a.bevCounts, r.beverage);
      NoteBump(a.cityOrder, a.cityCounts, CityOf(r));
    }
  }

  lemma {:induction false} ZeroPrefix(z: seq<nat>, h: nat)
    requires h <= |z| && forall i :: 0 <= i < |z| ==> z[i] == 0
    ensures SumNat(z[..h]) == 0
  {
    if h > 0 {
      assert z[..h][..h - 1] == z[..h - 1];
      ZeroPrefix(z, h - 1);
    }
  }

  // ---------------------------------------------------------------------
  // Properties of aggregateStats
  // ---------------------------------------------------------------------

  /** Each table entry is the number of records with that key. */
  lemma CountsAreOccurrences(data: seq<IoTRecord>, hourOf: int -> Hour, b: Beverage, c: string)
    ensures Get(AggregateStats(data, hourOf).beverageDistribution, b) == |Select(data, BeverageOf, b)|
    ensures Get(AggregateStats(data, hourOf).cityDistribution, c) == |Select(data, CityOf, c)|
  {
    FoldBeverageCount(data, hourOf, b);
    FoldCityCount(data, hourOf, c);
    var a := Fold(data, hourOf);
    assert AggregateStats(data, hourOf).beverageDistribution == a.bevCounts;
    assert AggregateStats(data, hourOf).cityDistribution == a.cityCounts;
  }

  lemma {:induction false} FoldBeverageCount(data: seq<IoTRecord>, hourOf: int -> Hour, b: Beverage)
    ensures Get(Fold(data, hourOf).bevCounts, b) == |Select(data, BeverageOf, b)|
  {
    if |data| > 0 {
      var n := |data| - 1;
      FoldBeverageCount(data[..n], hourOf, b);
      var prev := Fold(data[..n], hourOf);
      assert Fold(data, hourOf).bevCounts == Bump(prev.bevCounts, BeverageOf(data[n]));
      CountLastAt(prev.bevCounts, data, BeverageOf, b);
    }
  }

  lemma {:induction false} FoldCityCount(data: seq<IoTRecord>, hourOf: int -> Hour, c: string)
    ensures Get(Fold(data, hourOf).cityCounts, c) == |Select(data, CityOf, c)|
  {
    if |data| > 0 {
      var n := |data| - 1;
      FoldCityCount(data[..n], hourOf, c);
      var prev := Fold(data[..n], hourOf);
      assert Fold(data, hourOf).cityCounts == Bump(prev.cityCounts, CityOf(data[n]));
      CountLastAt(prev.cityCounts, data, CityOf, c);
    }
  }

  /** Bucket `h` of the time distribution is the number of records whose
      local hour is `h`. */
  lemma HourCountsAreOccurrences(data: seq<IoTRecord>, hourOf: int -> Hour, h: Hour)
    ensures AggregateStats(data, hourOf).timeDistribution[h] == |Select(Keys(data, TimestampOf), hourOf, h)|
  {
    FoldHourCount(data, hourOf, h);
  }

  lemma {:induction false} FoldHourCount(data: seq<IoTRecord>, hourOf: int -> Hour, h: Hour)
    ensures Fold(data, hourOf).timeDist[h] == |Select(Keys(data, TimestampOf), hourOf, h)|
  {
    var ts := Keys(data, TimestampOf);
    if |data| > 0 {
      var n := |data| - 1;
      FoldHourCount(data[..n], hourOf, h);
      assert ts[..n] == Keys(data[..n], TimestampOf);
      assert ts[n] == data[n].timestamp;
    }
  }

  /** The three distributions each add up to `totalBrews`. */
  lemma DistributionsSumToTotal(data: seq<IoTRecord>, hourOf: int -> Hour)
    ensures var s := AggregateStats(data, hourOf);
            && SumOver(Fold(data, hourOf).bevOrder, s.beverageDistribution) == s.totalBrews
            && SumOver(Fold(data, hourOf).cityOrder, s.cityDistribution) == s.totalBrews
            && SumNat(s.timeDistribution) == s.totalBrews
  {
    FoldInvariant(data, hourOf);
  }

  /** At most `n` errors among `n` records give a rate in [0, 1]. */
  lemma RateBetween(count: nat, n: nat)
    requires count <= n
    ensures 0.0 <= Mean(count as real, n) <= 1.0
  {
    if n > 0 {
      MeanBetween(count as real, n, 0.0, 1.0);
    }
  }

  /** A mean of values inside [lo, hi] stays inside [lo, hi]. */
  lemma MeanBetween(total: real, n: nat, lo: real, hi: real)
    requires n > 0
    requires n as real * lo <= total <= n as real * hi
    ensures lo <= Mean(total, n) <= hi
  {
    var m := total / n as real;
    assert m * n as real == total;
    if m < lo {
      assert m * n as real < lo * n as real;
    }
    if m > hi {
      assert m * n as real > hi * n as real;
    }
  }

  lemma {:induction false} TempTotalBetween(data: seq<IoTRecord>, hourOf: int -> Hour, lo: int, hi: int)
    requires forall i :: 0 <= i < |data| ==> lo <= data[i].params.temperature <= hi
    ensures |data| * lo <= Fold(data, hourOf).totalTemp <= |data| * hi
  {
    if |data| > 0 {
      var n := |data| - 1;
      assert forall i :: 0 <= i < n ==> data[..n][i] == data[i];
      TempTotalBetween(data[..n], hourOf, lo, hi);
      var t := Fold(data[..n], hourOf).totalTemp;
      var x := data[n].params.temperature;
      FoldTotals(data, hourOf);
      BoundStep(n, t, x, lo, hi);
    }
  }

  lemma {:induction false} LatencyTotalBetween(data: seq<IoTRecord>, hourOf: int -> Hour, lo: int, hi: int)
    requires forall i :: 0 <= i < |data| ==> lo <= data[i].telemetry.latency <= hi
    ensures |data| * lo <= Fold(data, hourOf).totalLatency <= |data| * hi
  {
    if |data| > 0 {
      var n := |data| - 1;
      assert forall i :: 0 <= i < n ==> data[..n][i] == data[i];
      LatencyTotalBetween(data[..n], hourOf, lo, hi);
      var t := Fold(data[..n], hourOf).totalLatency;
      var x := data[n].telemetry.latency;
      FoldTotals(data, hourOf);
      BoundStep(n, t, x, lo, hi);
    }
  }

  /** Adding one more value between the bounds to a total of `n` such
      values. */
  lemma BoundStep(n: nat, t: int, x: int, lo: int, hi: int)
    requires n * lo <= t <= n * hi && lo <= x <= hi
    ensures (n + 1) * lo <= t + x <= (n + 1) * hi
  {
    assert (n + 1) * lo == n * lo + lo && (n + 1) * hi == n * hi + hi;
  }

  /** `MeanBetween` for integer totals and bounds. */
  lemma MeanBetweenInt(total: int, n: nat, lo: int, hi: int)
    requires n > 0 && n * lo <= total <= n * hi
    ensures lo as real <= Mean(total as real, n) <= hi as real
  {
    assert (n * lo) as real == n as real * lo as real;
    assert (n * hi) as real == n as real * hi as real;
    MeanBetween(total as real, n, lo as real, hi as real);
  }

  /** The averages lie between any lower and upper bound of the inputs. */
  lemma AveragesBetween(data: seq<IoTRecord>, hourOf: int -> Hour, lo: int, hi: int, loL: int, hiL: int)
    requires |data| > 0
    requires forall i :: 0 <= i < |data| ==> lo <= data[i].params.temperature <= hi
    requires forall i :: 0 <= i < |data| ==> loL <= data[i].telemetry.latency <= hiL
    ensures lo as real <= AggregateStats(data, hourOf).avgTemp <= hi as real
    ensures loL as real <= AggregateStats(data, hourOf).avgLatency <= hiL as real
  {
    var a := Fold(data, hourOf);
    TempTotalBetween(data, hourOf, lo, hi);
    LatencyTotalBetween(data, hourOf, loL, hiL);
    MeanBetweenInt(a.totalTemp, |data|, lo, hi);
    MeanBetweenInt(a.totalLatency, |data|, loL, hiL);
  }

  /** The head of the count-sorted entries is a listed beverage whose count
      no other beverage beats. */
  lemma TopLeads(order: seq<Beverage>, counts: map<Beverage, nat>)
    requires |order| > 0
    requires forall b :: b in order <==> b in counts
    ensures TopBeverage(order, counts).Some?
    ensures TopBeverage(order, counts).value in order
    ensures forall b :: Get(counts, b) <= Get(counts, TopBeverage(order, counts).value)
  {
    var e := Entries(order, counts);
    SortHead(e, CountDesc);
    var k := FirstMinIndex(e, CountDesc);
    forall b ensures Get(counts, b) <= Get(counts, order[k]) {
      if b in order {
        var j :| 0 <= j < |order| && order[j] == b;
        assert CountDesc(e[k]) <= CountDesc(e[j]);
      }
    }
  }

  /** The leader has a count no other beverage beats, and it is one of the
      beverages counted. */
  lemma TopIsLeader(data: seq<IoTRecord>, hourOf: int -> Hour)
    requires |data| > 0
    ensures var s := AggregateStats(data, hourOf);
            && s.topBeverage.Some?
            && (forall b :: Get(s.beverageDistribution, b) <= Get(s.beverageDistribution, s.topBeverage.value))
            && s.topBeverage.value in Fold(data, hourOf).bevOrder
  {
    var a := Fold(data, hourOf);
    FoldInvariant(data, hourOf);
    TopLeads(a.bevOrder, a.bevCounts);
    var s := AggregateStats(data, hourOf);
    assert s.topBeverage == TopBeverage(a.bevOrder, a.bevCounts) && s.beverageDistribution == a.bevCounts;
  }

  /** Among beverages tied on the top count, the head of the count-sorted
      entries is the one listed first. */
  lemma TopFirst(order: seq<Beverage>, counts: map<Beverage, nat>, j: nat)
    requires NoDuplicates(order)
    requires j < |order|
    requires order[j] == TopBeverage(order, counts).value
    ensures forall i :: 0 <= i < j ==> Get(counts, order[i]) < Get(counts, order[j])
  {
    var e := Entries(order, counts);
    SortHead(e, CountDesc);
    var k := FirstMinIndex(e, CountDesc);
    assert order[k] == order[j];
    assert k == j;
    forall i | 0 <= i < j ensures Get(counts, order[i]) < Get(counts, order[j]) {
      assert CountDesc(e[k]) < CountDesc(e[i]);
    }
  }

  /** The earliest-counted beverage among those with the top count wins. */
  lemma TopTieBreak(data: seq<IoTRecord>, hourOf: int -> Hour, j: nat)
    requires |data| > 0
    requires j < |Fold(data, hourOf).bevOrder|
    requires Fold(data, hourOf).bevOrder[j] == AggregateStats(data, hourOf).topBeverage.value
    ensures forall i :: 0 <= i < j ==>
              Get(Fold(data, hourOf).bevCounts, Fold(data, hourOf).bevOrder[i])
                < Get(Fold(data, hourOf).bevCounts, Fold(data, hourOf).bevOrder[j])
  {
    var a := Fold(data, hourOf);
    FoldInvariant(data, hourOf);
    assert AggregateStats(data, hourOf).topBeverage == TopBeverage(a.bevOrder, a.bevCounts);
    TopFirst(a.bevOrder, a.bevCounts, j);
  }
}
