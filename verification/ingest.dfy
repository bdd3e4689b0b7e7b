/** The live-stream tick of `App.tsx` (`ingestRealtimeData`): a packet of
    one to three fresh records is appended to the record list, and the
    previous statistics are patched in place of a full `aggregateStats`. */
module Ingest {
  import opened Common
  import opened Types
  import opened Generator
  import opened Aggregation

  /** `Math.floor(Math.random() * 3) + 1` records, each stamped `Date.now()`
      and numbered `Date.now() + i`. */
  function GeneratePacket(clock: Clock, size: Unit, draws: nat -> RecordDraws): (p: seq<IoTRecord>)
    ensures 1 <= |p| <= 3
    ensures forall i :: 0 <= i < |p| ==> p[i].timestamp == clock.now && p[i].id == "REC-" + Show(clock.now + i)
  {
    var n := (size * 3.0).Floor + 1;
    Tabulate(n, i => PacketRecord(clock, draws, i))
  }

  /** The `i`-th record of a packet. */
  function PacketRecord(clock: Clock, draws: nat -> RecordDraws, i: nat): (r: IoTRecord)
    ensures r.timestamp == clock.now && r.id == "REC-" + Show(clock.now + i)
  {
    GenerateSingleRecord(Show(clock.now + i), true, 0, clock, draws(i))
  }

  function ErrorBit(r: IoTRecord): real { if HasError(r) then 1.0 else 0.0 }

  /** `(avg * (n - 1) + x) / n`: the running-mean update for the `n`-th value. */
  function RunningMean(avg: real, n: nat, x: real): real
    requires n > 0
  {
    (avg * (n as real - 1.0) + x) / n as real
  }

  /** `(oldErrorCount + bit) / n` with `oldErrorCount = rate * total`. */
  function RebuiltRate(rate: real, total: nat, bit: real, n: nat): real
    requires n > 0
  {
    (rate * total as real + bit) / n as real
  }

  /** One pass of `newPackets.forEach` over the copy `s`, whose `totalBrews`
      already counts the whole packet. The error rate is rebuilt from
      `prev`, not from `s`. */
  function ApplyPacket(s: AggregatedStats, prev: AggregatedStats, p: IoTRecord, hourOf: int -> Hour): AggregatedStats
    requires s.totalBrews > 0
  {
    s.(cityDistribution := Bump(s.cityDistribution, CityOf(p)),
       beverageDistribution := Bump(s.beverageDistribution, p.beverage),
       timeDistribution := Tick(s.timeDistribution, hourOf(p.timestamp)),
       avgLatency := RunningMean(s.avgLatency, s.totalBrews, p.telemetry.latency as real),
       avgTemp := RunningMean(s.avgTemp, s.totalBrews, p.params.temperature as real),
       errorRate := RebuiltRate(prev.errorRate, prev.totalBrews, ErrorBit(p), s.totalBrews))
  }

  /** The whole `forEach`: every table gains exactly the packet's records. */
  function PacketLoop(s: AggregatedStats, prev: AggregatedStats, packet: seq<IoTRecord>, hourOf: int -> Hour): (t: AggregatedStats)
    requires s.totalBrews > 0 || |packet| == 0
    ensures t.totalBrews == s.totalBrews && t.topBeverage == s.topBeverage && t.activeUsers == s.activeUsers
    ensures forall b :: Get(t.beverageDistribution, b) == Get(s.beverageDistribution, b) + |Select(packet, BeverageOf, b)|
    ensures forall c :: Get(t.cityDistribution, c) == Get(s.cityDistribution, c) + |Select(packet, CityOf, c)|
    ensures SumNat(t.timeDistribution) == SumNat(s.timeDistribution) + |packet|
    decreases |packet|
  {
    if |packet| == 0 then s
    else
      var t := PacketLoop(s, prev, packet[..|packet| - 1], hourOf);
      CountLast(t.beverageDistribution, s.beverageDistribution, packet, BeverageOf);
      CountLast(t.cityDistribution, s.cityDistribution, packet, CityOf);
      ApplyPacket(t, prev, packet[|packet| - 1], hourOf)
  }

  /** `newStats.beverageDistribution[topBev] || 0`, with 'N/A' as `None`. */
  function CountOf(dist: map<Beverage, nat>, top: Option<Beverage>): nat
  {
    if top.Some? then Get(dist, top.value) else 0
  }

  /** The second `forEach`: a packet's beverage takes the lead only with a
      count strictly above the current leader's. */
  function LeaderScan(dist: map<Beverage, nat>, top: Option<Beverage>, packet: seq<IoTRecord>): (r: Option<Beverage>)
    ensures CountOf(dist, top) <= CountOf(dist, r)
    ensures forall i :: 0 <= i < |packet| ==> Get(dist, packet[i].beverage) <= CountOf(dist, r)
    ensures r == top || exists i :: 0 <= i < |packet| && r == Some(packet[i].beverage)
    ensures r != top <==> exists i :: 0 <= i < |packet| && Get(dist, packet[i].beverage) > CountOf(dist, top)
    decreases |packet|
  {
    if |packet| == 0 then top
    else
      var b := packet[0].beverage;
      var next := if Get(dist, b) > CountOf(dist, top) then Some(b) else top;
      var r := LeaderScan(dist, next, packet[1..]);
      assert forall i :: 1 <= i < |packet| ==> packet[i] == packet[1..][i - 1];
      r
  }

  /** The `setStats` reducer for a previous, non-null `prev`. */
  function Ingest(prev: AggregatedStats, packet: seq<IoTRecord>, hourOf: int -> Hour): (s: AggregatedStats)
    ensures s.totalBrews == prev.totalBrews + |packet|
    ensures s.activeUsers == prev.activeUsers
    ensures forall b :: Get(s.beverageDistribution, b) == Get(prev.beverageDistribution, b) + |Select(packet, BeverageOf, b)|
    ensures forall c :: Get(s.cityDistribution, c) == Get(prev.cityDistribution, c) + |Select(packet, CityOf, c)|
    ensures SumNat(s.timeDistribution) == SumNat(prev.timeDistribution) + |packet|
    ensures s.topBeverage != prev.topBeverage <==>
              exists i :: 0 <= i < |packet| && Get(s.beverageDistribution, packet[i].beverage) > CountOf(s.beverageDistribution, prev.topBeverage)
  {
    var looped := PacketLoop(prev.(totalBrews := prev.totalBrews + |packet|), prev, packet, hourOf);
    looped.(topBeverage := LeaderScan(looped.beverageDistribution, prev.topBeverage, packet))
  }

  // ---------------------------------------------------------------------
  // The tick as a whole
  // ---------------------------------------------------------------------

  /** `dataRef.current.slice(-5000)`. */
  function Window(data: seq<IoTRecord>): (w: seq<IoTRecord>)
    ensures |w| == if |data| <= 5000 then |data| else 5000
    ensures w == data[|data| - |w|..]
  {
    if |data| <= 5000 then data else data[|data| - 5000..]
  }

  datatype StreamState = StreamState(window: seq<IoTRecord>, stats: AggregatedStats)

  /** The `setTimeout` body: append, keep the window, and either aggregate
      the window (no stats yet) or patch the previous stats. */
  function IngestTick(prev: Option<AggregatedStats>, data: seq<IoTRecord>, packet: seq<IoTRecord>, hourOf: int -> Hour): (t: StreamState)
    ensures t.window == Window(data + packet)
    ensures prev.None? ==> t.stats.totalBrews == |t.window| <= 5000
    ensures prev.Some? ==> t.stats.totalBrews == prev.value.totalBrews + |packet|
  {
    var w := Window(data + packet);
    StreamState(w, if prev.None? then AggregateStats(w, hourOf) else Ingest(prev.value, packet, hourOf))
  }

  // ---------------------------------------------------------------------
  // Agreement with aggregateStats
  // ---------------------------------------------------------------------

  /** Equal on every field except the leader (ties are broken differently)
      and `activeUsers` (never patched). */
  ghost predicate Matches(s: AggregatedStats, t: AggregatedStats)
  {
    && s.totalBrews == t.totalBrews
    && s.avgTemp == t.avgTemp
    && s.avgLatency == t.avgLatency
    && s.errorRate == t.errorRate
    && s.cityDistribution == t.cityDistribution
    && s.beverageDistribution == t.beverageDistribution
    && s.timeDistribution == t.timeDistribution
  }

  /** The running-mean identity: `Mean(t, n) * n` recovers the total. */
  lemma MeanStep(total: real, n: nat, x: real)
    requires n == 0 ==> total == 0.0
    ensures RunningMean(Mean(total, n), n + 1, x) == Mean(total + x, n + 1)
    ensures RebuiltRate(Mean(total, n), n, x, n + 1) == Mean(total + x, n + 1)
  {
    if n > 0 {
      assert Mean(total, n) * n as real == total;
    }
  }

  /** Appending a record is one more step of the fold. */
  lemma FoldSnoc(data: seq<IoTRecord>, r: IoTRecord, hourOf: int -> Hour)
    ensures Fold(data + [r], hourOf) == Step(Fold(data, hourOf), r, hourOf)
  {
    assert (data + [r])[..|data|] == data;
  }

  /** A one-record packet is one pass of the loop body. */
  lemma IngestOne(prev: AggregatedStats, r: IoTRecord, hourOf: int -> Hour)
    ensures var s := Ingest(prev, [r], hourOf);
            var t := ApplyPacket(prev.(totalBrews := prev.totalBrews + 1), prev, r, hourOf);
            s == t.(topBeverage := s.topBeverage)
  {
    var s0 := prev.(totalBrews := prev.totalBrews + 1);
    assert [r][..0] == [];
    assert PacketLoop(s0, prev, [], hourOf) == s0;
    assert PacketLoop(s0, prev, [r], hourOf) == ApplyPacket(s0, prev, r, hourOf);
  }

  /** The fields of `aggregateStats` that the reducer patches. */
  lemma AggregateFields(data: seq<IoTRecord>, hourOf: int -> Hour)
    ensures var a := Fold(data, hourOf);
            var s := AggregateStats(data, hourOf);
            && s.totalBrews == |data|
            && s.avgTemp == Mean(a.totalTemp as real, |data|)
            && s.avgLatency == Mean(a.totalLatency as real, |data|)
            && s.errorRate == Mean(a.errorCount as real, |data|)
            && s.cityDistribution == a.cityCounts
            && s.beverageDistribution == a.bevCounts
            && s.timeDistribution == a.timeDist
            && (|data| == 0 ==> a.totalTemp == 0 && a.totalLatency == 0 && a.errorCount == 0)
  {
  }

  /** The means and the rate after one pass of the loop body, in terms of
      the fold's totals. */
  lemma ApplyMeans(prev: AggregatedStats, a: Acc, n: nat, r: IoTRecord, hourOf: int -> Hour)
    requires prev.totalBrews == n
    requires prev.avgTemp == Mean(a.totalTemp as real, n)
    requires prev.avgLatency == Mean(a.totalLatency as real, n)
    requires prev.errorRate == Mean(a.errorCount as real, n)
    requires n == 0 ==> a.totalTemp == 0 && a.totalLatency == 0 && a.errorCount == 0
    ensures var t := ApplyPacket(prev.(totalBrews := n + 1), prev, r, hourOf);
            var a' := Step(a, r, hourOf);
            && t.avgTemp == Mean(a'.totalTemp as real, n + 1)
            && t.avgLatency == Mean(a'.totalLatency as real, n + 1)
            && t.errorRate == Mean(a'.errorCount as real, n + 1)
  {
    MeanStep(a.totalTemp as real, n, r.params.temperature as real);
    MeanStep(a.totalLatency as real, n, r.telemetry.latency as real);
    MeanStep(a.errorCount as real, n, ErrorBit(r));
  }

  /** One pass of the loop body, with the total already bumped by one,
      lands on the recomputed statistics. */
  lemma ApplyMatches(prev: AggregatedStats, data: seq<IoTRecord>, r: IoTRecord, hourOf: int -> Hour)
    requires Matches(prev, AggregateStats(data, hourOf))
    ensures Matches(ApplyPacket(prev.(totalBrews := prev.totalBrews + 1), prev, r, hourOf), AggregateStats(data + [r], hourOf))
  {
    var a := Fold(data, hourOf);
    AggregateFields(data, hourOf);
    AggregateFields(data + [r], hourOf);
    FoldSnoc(data, r, hourOf);
    ApplyMeans(prev, a, |data|, r, hourOf);
    var t := ApplyPacket(prev.(totalBrews := prev.totalBrews + 1), prev, r, hourOf);
    var s := AggregateStats(data + [r], hourOf);
    assert t.totalBrews == s.totalBrews;
    assert t.avgTemp == s.avgTemp;
    assert t.avgLatency == s.avgLatency;
    var e := Fold(data + [r], hourOf).errorCount;
    assert e == if HasError(r) then a.errorCount + 1 else a.errorCount;
    assert t.errorRate == Mean(e as real, |data| + 1);
    assert t.cityDistribution == s.cityDistribution;
    assert t.beverageDistribution == s.beverageDistribution;
    assert t.timeDistribution == s.timeDistribution;
  }

  /** A one-record packet patches the stats exactly as a full recompute
      over the extended list would. */
  lemma IngestOneMatches(prev: AggregatedStats, data: seq<IoTRecord>, r: IoTRecord, hourOf: int -> Hour)
    requires Matches(prev, AggregateStats(data, hourOf))
    ensures Matches(Ingest(prev, [r], hourOf), AggregateStats(data + [r], hourOf))
  {
    IngestOne(prev, r, hourOf);
    ApplyMatches(prev, data, r, hourOf);
  }

  lemma SplitLast<T>(a: seq<T>, b: seq<T>)
    requires |b| > 0
    ensures (a + b[..|b| - 1]) + [b[|b| - 1]] == a + b
  {
    assert b == b[..|b| - 1] + [b[|b| - 1]];
  }

  /** The evidently intended reducer: every record of the packet is folded
      in on its own, with its own running total. */
  function IngestCorrected(prev: AggregatedStats, packet: seq<IoTRecord>, hourOf: int -> Hour): (s: AggregatedStats)
    ensures s.totalBrews == prev.totalBrews + |packet|
    decreases |packet|
  {
    if |packet| == 0 then prev
    else Ingest(IngestCorrected(prev, packet[..|packet| - 1], hourOf), [packet[|packet| - 1]], hourOf)
  }

  /** Folding any packet record by record reproduces `aggregateStats` on
      the concatenated list (leader and user count aside). */
  lemma {:induction false} IngestCorrectedMatches(prev: AggregatedStats, data: seq<IoTRecord>, packet: seq<IoTRecord>, hourOf: int -> Hour)
    requires Matches(prev, AggregateStats(data, hourOf))
    ensures Matches(IngestCorrected(prev, packet, hourOf), AggregateStats(data + packet, hourOf))
    decreases |packet|
  {
    if |packet| == 0 {
      assert data + packet == data;
    } else {
      var k := |packet| - 1;
      var mid := IngestCorrected(prev, packet[..k], hourOf);
      var d := data + packet[..k];
      IngestCorrectedMatches(prev, data, packet[..k], hourOf);
      SplitLast(data, packet);
      var whole := d + [packet[k]];
      assert whole == data + packet;
      assert IngestCorrected(prev, packet, hourOf) == Ingest(mid, [packet[k]], hourOf);
      IngestOneMatches(mid, d, packet[k], hourOf);
      assert AggregateStats(whole, hourOf) == AggregateStats(data + packet, hourOf);
    }
  }

  /** On the one-record packets the stream produces a third of the time,
      the reducer as written and the corrected one coincide. */
  lemma SingleRecordAgrees(prev: AggregatedStats, r: IoTRecord, hourOf: int -> Hour)
    ensures Ingest(prev, [r], hourOf) == IngestCorrected(prev, [r], hourOf)
  {
    assert [r][..0] == [];
  }

  // ---------------------------------------------------------------------
  // The leader
  // ---------------------------------------------------------------------

  /** `topBeverage` has a count no beverage beats, and is 'N/A' only while
      every count is zero. */
  ghost predicate Leads(s: AggregatedStats)
  {
    LeadsIn(s.beverageDistribution, s.topBeverage)
  }

  /** `top` has the largest count of `dist`; `None` only when nothing was brewed. */
  ghost predicate LeadsIn(dist: map<Beverage, nat>, top: Option<Beverage>)
  {
    if top.Some? then
      forall b :: Get(dist, b) <= Get(dist, top.value)
    else
      forall b :: Get(dist, b) == 0
  }

  lemma AggregateLeads(data: seq<IoTRecord>, hourOf: int -> Hour)
    ensures Leads(AggregateStats(data, hourOf))
  {
    if |data| > 0 {
      TopIsLeader(data, hourOf);
    }
  }

  /** The patched leader still leads, although only the packet's beverages
      were compared. */
  lemma IngestKeepsLeader(prev: AggregatedStats, packet: seq<IoTRecord>, hourOf: int -> Hour)
    requires Leads(prev)
    ensures Leads(Ingest(prev, packet, hourOf))
  {
    var s := Ingest(prev, packet, hourOf);
    ScanLeads(prev.beverageDistribution, s.beverageDistribution, prev.topBeverage, packet, s.topBeverage);
  }

  /** Counts raised by a packet, and a leader at least as large as the old
      one and as every beverage of the packet: the new leader leads. */
  lemma ScanLeads(before: map<Beverage, nat>, d: map<Beverage, nat>, top: Option<Beverage>, packet: seq<IoTRecord>, r: Option<Beverage>)
    requires LeadsIn(before, top)
    requires forall b :: Get(d, b) == Get(before, b) + |Select(packet, BeverageOf, b)|
    requires CountOf(d, top) <= CountOf(d, r)
    requires forall i :: 0 <= i < |packet| ==> Get(d, packet[i].beverage) <= CountOf(d, r)
    ensures LeadsIn(d, r)
  {
    forall b ensures Get(d, b) <= CountOf(d, r) {
      if exists i :: 0 <= i < |packet| && packet[i].beverage == b {
        var i :| 0 <= i < |packet| && packet[i].beverage == b;
      } else {
        SelectEmpty(packet, BeverageOf, b);
        assert Get(d, b) == Get(before, b);
        if top.Some? {
          assert Get(before, b) <= Get(before, top.value);
        }
      }
    }
    if r.None? {
      forall b ensures Get(d, b) == 0 {
        assert Get(d, b) <= CountOf(d, r);
      }
    }
  }

  /** Patched and recomputed stats agree on the leader's count, though they
      may name different beverages when counts tie. */
  lemma LeaderCountsAgree(prev: AggregatedStats, data: seq<IoTRecord>, r: IoTRecord, hourOf: int -> Hour)
    requires Matches(prev, AggregateStats(data, hourOf)) && Leads(prev)
    ensures var s := Ingest(prev, [r], hourOf);
            var t := AggregateStats(data + [r], hourOf);
            s.topBeverage.Some? && t.topBeverage.Some?
            && Get(s.beverageDistribution, s.topBeverage.value) == Get(t.beverageDistribution, t.topBeverage.value)
  {
    var s := Ingest(prev, [r], hourOf);
    var t := AggregateStats(data + [r], hourOf);
    IngestOneMatches(prev, data, r, hourOf);
    IngestKeepsLeader(prev, [r], hourOf);
    AggregateLeads(data + [r], hourOf);
    assert Get(s.beverageDistribution, r.beverage) > 0;
    LeadersAgree(s, t, r.beverage);
  }

  /** Two leaders of the same distribution with a brewed beverage in it
      are both present and have the same count. */
  lemma LeadersAgree(s: AggregatedStats, t: AggregatedStats, b: Beverage)
    requires Leads(s) && Leads(t) && s.beverageDistribution == t.beverageDistribution
    requires Get(s.beverageDistribution, b) > 0
    ensures s.topBeverage.Some? && t.topBeverage.Some?
    ensures Get(s.beverageDistribution, s.topBeverage.value) == Get(t.beverageDistribution, t.topBeverage.value)
  {
    if s.topBeverage.Some? && t.topBeverage.Some? {
      assert Get(s.beverageDistribution, s.topBeverage.value) <= Get(t.beverageDistribution, t.topBeverage.value);
      assert Get(t.beverageDistribution, t.topBeverage.value) <= Get(s.beverageDistribution, s.topBeverage.value);
    }
  }

  // ---------------------------------------------------------------------
  // Where the reducer as written departs from aggregateStats
  // ---------------------------------------------------------------------

  function Sample(latency: int, fault: bool): IoTRecord
  {
    IoTRecord("REC-0", 0, "USR-0", 30, Female, GeoLocation("Shanghai", 31.2304, 121.4737), Espresso, 1,
      BrewingParams(90, 19.0, 40, 16), Telemetry(latency, -40, 20, if fault then Some(PressureLow) else None),
      "MAC-0", "2.1.0")
  }

  /** The reducer as written on a two-record packet, spelled out. */
  lemma TwoRecordPacket(prev: AggregatedStats, x: IoTRecord, y: IoTRecord, hourOf: int -> Hour)
    ensures var s0 := prev.(totalBrews := prev.totalBrews + 2);
            var s2 := ApplyPacket(ApplyPacket(s0, prev, x, hourOf), prev, y, hourOf);
            Ingest(prev, [x, y], hourOf) == s2.(topBeverage := Ingest(prev, [x, y], hourOf).topBeverage)
  {
    var packet := [x, y];
    var s0 := prev.(totalBrews := prev.totalBrews + 2);
    assert packet[..1] == [x];
    assert packet[..1][..0] == [];
    assert PacketLoop(s0, prev, [], hourOf) == s0;
    assert PacketLoop(s0, prev, [x], hourOf) == ApplyPacket(s0, prev, x, hourOf);
  }

  /** `aggregateStats` on two records, spelled out. */
  lemma TwoRecordFold(x: IoTRecord, y: IoTRecord, hourOf: int -> Hour)
    ensures Fold([x, y], hourOf) == Step(Step(EmptyAcc(), x, hourOf), y, hourOf)
  {
    assert [x, y][..1] == [x];
    assert [x][..0] == [];
    assert Fold([], hourOf) == EmptyAcc();
    assert Fold([x], hourOf) == Step(EmptyAcc(), x, hourOf);
  }

  /** The empty statistics that the stream patches when it starts from an
      empty record list. */
  lemma EmptyStats(hourOf: int -> Hour)
    ensures var e := AggregateStats([], hourOf);
            e.totalBrews == 0 && e.avgLatency == 0.0 && e.errorRate == 0.0
  {
  }

  /** A two-record packet patched into empty statistics: the running mean
      divides both records by two, and the rate is rebuilt from the empty
      statistics for the last record alone. */
  lemma TwoFromEmpty(prev: AggregatedStats, packet: seq<IoTRecord>, hourOf: int -> Hour)
    requires |packet| == 2 && prev.totalBrews == 0 && prev.avgLatency == 0.0 && prev.errorRate == 0.0
    ensures Ingest(prev, packet, hourOf).avgLatency
              == RunningMean(RunningMean(0.0, 2, packet[0].telemetry.latency as real), 2, packet[1].telemetry.latency as real)
    ensures Ingest(prev, packet, hourOf).errorRate == RebuiltRate(0.0, 0, ErrorBit(packet[1]), 2)
  {
    var x, y := packet[0], packet[1];
    assert packet == [x, y];
    TwoRecordPacket(prev, x, y, hourOf);
    var s0 := prev.(totalBrews := 2);
    var s1 := ApplyPacket(s0, prev, x, hourOf);
    assert s1.totalBrews == 2;
    assert s1.avgLatency == RunningMean(0.0, 2, x.telemetry.latency as real);
  }

  lemma LatencyAsWritten(hourOf: int -> Hour)
    ensures Ingest(AggregateStats([], hourOf), [Sample(10, false), Sample(20, false)], hourOf).avgLatency == 12.5
  {
    EmptyStats(hourOf);
    TwoFromEmpty(AggregateStats([], hourOf), [Sample(10, false), Sample(20, false)], hourOf);
    assert RunningMean(0.0, 2, 10.0) == 5.0;
    assert RunningMean(5.0, 2, 20.0) == 12.5;
  }

  lemma ErrorRateAsWritten(hourOf: int -> Hour)
    ensures Ingest(AggregateStats([], hourOf), [Sample(10, true), Sample(10, false)], hourOf).errorRate == 0.0
  {
    EmptyStats(hourOf);
    TwoFromEmpty(AggregateStats([], hourOf), [Sample(10, true), Sample(10, false)], hourOf);
  }

  /** What the recompute and the corrected fold give on a two-record list. */
  lemma TwoRecordTruth(x: IoTRecord, y: IoTRecord, hourOf: int -> Hour)
    ensures var packet := [x, y];
            var truth := AggregateStats(packet, hourOf);
            && truth.avgLatency == (x.telemetry.latency + y.telemetry.latency) as real / 2.0
            && truth.errorRate == (ErrorBit(x) + ErrorBit(y)) / 2.0
            && IngestCorrected(AggregateStats([], hourOf), packet, hourOf).avgLatency == truth.avgLatency
            && IngestCorrected(AggregateStats([], hourOf), packet, hourOf).errorRate == truth.errorRate
  {
    TwoRecordMeans(x, y, hourOf);
    CorrectedFromEmpty([x, y], hourOf);
  }

  lemma TwoRecordMeans(x: IoTRecord, y: IoTRecord, hourOf: int -> Hour)
    ensures var truth := AggregateStats([x, y], hourOf);
            && truth.avgLatency == (x.telemetry.latency + y.telemetry.latency) as real / 2.0
            && truth.errorRate == (ErrorBit(x) + ErrorBit(y)) / 2.0
  {
    TwoRecordTotals(x, y, hourOf);
    MeansOfTwo([x, y], hourOf);
  }

  lemma MeansOfTwo(data: seq<IoTRecord>, hourOf: int -> Hour)
    requires |data| == 2
    ensures AggregateStats(data, hourOf).avgLatency == Fold(data, hourOf).totalLatency as real / 2.0
    ensures AggregateStats(data, hourOf).errorRate == Fold(data, hourOf).errorCount as real / 2.0
  {
    AggregateFields(data, hourOf);
    var a := Fold(data, hourOf);
    HalfMean(a.totalLatency as real);
    HalfMean(a.errorCount as real);
  }

  lemma HalfMean(total: real)
    ensures Mean(total, 2) == total / 2.0
  {
  }

  lemma TwoRecordTotals(x: IoTRecord, y: IoTRecord, hourOf: int -> Hour)
    ensures Fold([x, y], hourOf).totalLatency == x.telemetry.latency + y.telemetry.latency
    ensures Fold([x, y], hourOf).errorCount as real == ErrorBit(x) + ErrorBit(y)
  {
    TwoRecordFold(x, y, hourOf);
  }

  /** Started from the empty statistics, the corrected reducer lands on
      the recomputed means and rate. */
  lemma CorrectedFromEmpty(packet: seq<IoTRecord>, hourOf: int -> Hour)
    ensures var truth := AggregateStats(packet, hourOf);
            var corrected := IngestCorrected(AggregateStats([], hourOf), packet, hourOf);
            corrected.avgLatency == truth.avgLatency && corrected.errorRate == truth.errorRate
  {
    var e := AggregateStats([], hourOf);
    assert Matches(e, e);
    IngestCorrectedMatches(e, [], packet, hourOf);
    assert [] + packet == packet;
  }

  /** Two records in one packet: each is averaged in with the final
      denominator, so latencies 10 and 20 give 12.5 instead of 15. */
  lemma RunningMeanCounterexample(hourOf: int -> Hour)
    ensures var packet := [Sample(10, false), Sample(20, false)];
            var empty := AggregateStats([], hourOf);
            && Ingest(empty, packet, hourOf).avgLatency == 12.5
            && AggregateStats(packet, hourOf).avgLatency == 15.0
            && IngestCorrected(empty, packet, hourOf).avgLatency == 15.0
  {
    LatencyAsWritten(hourOf);
    TwoRecordTruth(Sample(10, false), Sample(20, false), hourOf);
  }

  /** Error then success in one packet: the error rate is rebuilt from the
      previous stats for each record, so only the last record counts. */
  lemma ErrorRateCounterexample(hourOf: int -> Hour)
    ensures var packet := [Sample(10, true), Sample(10, false)];
            var empty := AggregateStats([], hourOf);
            && Ingest(empty, packet, hourOf).errorRate == 0.0
            && AggregateStats(packet, hourOf).errorRate == 0.5
            && IngestCorrected(empty, packet, hourOf).errorRate == 0.5
  {
    ErrorRateAsWritten(hourOf);
    TwoRecordTruth(Sample(10, true), Sample(10, false), hourOf);
  }
}
