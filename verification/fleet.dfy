/** `getFleetStatus` of `services/dataGenerator.ts`: one row per vending
    machine, grouped from the record list. Every presentational field of a
    row (interface, street, uptime, map jitter) is derived from a hash of
    the machine id, here the uninterpreted parameter `hash` standing for
    `cyrb53`. */
module Fleet {
  import opened Common
  import opened Types
  import opened Generator

  /** `1000 * 60 * 60 * 4`: four hours without a record means offline. */
  const OfflineAfterMs: int := 14_400_000

  const Interfaces: seq<IotInterface> := [WiFi, FiveG, WiFi, LoRaWAN]

  /** `STREET_NAMES`: eight streets for each configured city. */
  const StreetTable: seq<(string, seq<string>)> := [
    ("Shanghai", ["南京西路", "淮海中路", "长宁路", "延安西路", "世纪大道", "陆家嘴环路", "张江高科路", "徐家汇路"]),
    ("Beijing", ["长安街", "王府井大街", "三里屯路", "西单北大街", "中关村大街", "朝阳北路", "建国门外大街", "金融大街"]),
    ("Shenzhen", ["深南大道", "滨海大道", "华强北路", "科苑南路", "益田路", "南海大道", "宝安大道", "前海路"]),
    ("Guangzhou", ["天河路", "北京路", "珠江新城大道", "中山五路", "江南西路", "环市东路", "东风中路", "广州大道"]),
    ("Chengdu", ["春熙路", "红星路", "天府大道", "蜀都大道", "建设路", "人民南路", "二环路南段", "宽窄巷子"]),
    ("Hangzhou", ["延安路", "解放路", "庆春路", "凤起路", "文三路", "滨盛路", "莫干山路", "南山路"])
  ]

  const FallbackStreets: seq<string> := ["Main Road", "Center Ave", "Technology Drive"]

  /** `STREET_NAMES[city]`, or the fallback list for a city without one. */
  function StreetsFor(city: string): (s: seq<string>)
    ensures |s| == 8 || s == FallbackStreets
    ensures s == FallbackStreets <==> forall k :: 0 <= k < |StreetTable| ==> StreetTable[k].0 != city
  {
    StreetsFrom(city, 0)
  }

  function StreetsFrom(city: string, k: nat): (s: seq<string>)
    requires k <= |StreetTable|
    ensures |s| == 8 || s == FallbackStreets
    ensures s == FallbackStreets <==> forall j :: k <= j < |StreetTable| ==> StreetTable[j].0 != city
    decreases |StreetTable| - k
  {
    if k == |StreetTable| then FallbackStreets
    else if StreetTable[k].0 == city then StreetTable[k].1
    else StreetsFrom(city, k + 1)
  }

  /** `cityConfig.spread`, 0.1 for a city without a configuration. */
  function SpreadFor(city: string): (d: real)
    ensures 0.08 <= d <= 0.15
  {
    var c := ConfigFor(city);
    if c.Some? then c.value.spread else 0.1
  }

  /** The status rule: maintenance above a 5% error rate, then offline
      overriding it when the latest record is more than four hours old. */
  function StatusOf(errorRate: real, now: int, latest: int): (s: MachineStatus)
    ensures s == Offline <==> now - latest > OfflineAfterMs
    ensures s == MachineStatus.Maintenance <==> now - latest <= OfflineAfterMs && errorRate > 0.05
    ensures s == Active <==> now - latest <= OfflineAfterMs && errorRate <= 0.05
  {
    var s := if errorRate > 0.05 then MachineStatus.Maintenance else Active;
    if now - latest > OfflineAfterMs then Offline else s
  }

  /** The row fields that depend on the machine id's hash alone. */
  datatype SeedFields = SeedFields(
    iotInterface: IotInterface, hours: nat, mins: nat, street: string, streetNum: nat,
    angleDeg: nat, radius: real)

  function FromSeed(seed: nat, city: string): (f: SeedFields)
    ensures f.iotInterface == Interfaces[seed % 4]
    ensures f.iotInterface == FiveG <==> seed % 4 == 1
    ensures f.iotInterface == LoRaWAN <==> seed % 4 == 3
    ensures 2 <= f.hours <= 13 && f.mins <= 59
    ensures 1 <= f.streetNum <= 800
    ensures f.street in StreetsFor(city)
    ensures f.angleDeg < 360
    ensures 0.0 <= f.radius < SpreadFor(city)
  {
    SeedFields(
      Interfaces[seed % |Interfaces|],
      seed % 12 + 2,
      seed % 60,
      StreetOf(seed, city),
      seed % 800 + 1,
      seed % 360,
      Radius(seed, SpreadFor(city)))
  }

  /** The street picked by the hash among the city's streets. */
  function StreetOf(seed: nat, city: string): (street: string)
    ensures street in StreetsFor(city)
  {
    var streets := StreetsFor(city);
    streets[seed % |streets|]
  }

  /** The pin's distance from the centre: a hundredth step of the spread. */
  function Radius(seed: nat, spread: real): (r: real)
    requires spread > 0.0
    ensures 0.0 <= r < spread
  {
    var dist := (seed % 100) as real / 100.0;
    assert dist * spread < 1.0 * spread;
    dist * spread
  }

  function TotalQty(records: seq<IoTRecord>): nat
  {
    if |records| == 0 then 0 else TotalQty(records[..|records| - 1]) + records[|records| - 1].quantity
  }

  /** The share of records carrying a fault code. */
  function ErrorRate(records: seq<IoTRecord>): (r: real)
    requires |records| > 0
    ensures 0.0 <= r <= 1.0
    ensures r * |records| as real == |Select(records, ErrorFlag, true)| as real
  {
    var errors := |Select(records, ErrorFlag, true)|;
    DivBounds(errors as real, |records| as real);
    errors as real / |records| as real
  }

  /** `Math.floor(totalLatency / count)`. */
  function AvgLatency(records: seq<IoTRecord>): (l: int)
    requires |records| > 0
    ensures l == TotalLatency(records) / |records|
  {
    FloorOfQuotient(TotalLatency(records), |records|);
    (TotalLatency(records) as real / |records| as real).Floor
  }

  /** The number of different beverages among the records. */
  function CategoryCount(records: seq<IoTRecord>): (c: nat)
    requires |records| > 0
    ensures c == |Elements(Keys(records, BeverageOf))|
    ensures 1 <= c <= |records|
  {
    DistinctIsSetSize(Keys(records, BeverageOf));
    assert records[0].beverage in Distinct(Keys(records, BeverageOf)) by {
      assert Keys(records, BeverageOf)[0] == records[0].beverage;
    }
    |Distinct(Keys(records, BeverageOf))|
  }

  /** The row for machine `mid`, given its records in input order. */
  function MachineRow(mid: string, records: seq<IoTRecord>, now: int, hash: string -> nat): (m: MachineFleetStatus)
    requires |records| > 0
    ensures m.machineId == mid
    ensures var latest := records[|records| - 1];
            && m.city == latest.location.city
            && m.baseLat == latest.location.lat && m.baseLng == latest.location.lng
            && m.signalStrength == latest.telemetry.signalStrength
            && m.cpuLoad == latest.telemetry.cpuUsage
            && (m.status == Offline <==> now - latest.timestamp > OfflineAfterMs)
            && (m.status == MachineStatus.Maintenance <==> now - latest.timestamp <= OfflineAfterMs && m.errorRate > 0.05)
    ensures m.errorRate == ErrorRate(records) && m.avgLatency == AvgLatency(records)
    ensures m.categoryCount == CategoryCount(records)
    ensures m.totalSalesQty == TotalQty(records) && m.totalRevenue == 4.5 * m.totalSalesQty as real
  {
    var latest := records[|records| - 1];
    var f := FromSeed(hash(mid), latest.location.city);
    var errorRate := ErrorRate(records);
    MachineFleetStatus(
      mid,
      latest.location.city,
      latest.location.city + "市" + f.street + Show(f.streetNum) + "号",
      latest.location.lat,
      latest.location.lng,
      f.angleDeg,
      f.radius,
      StatusOf(errorRate, now, latest.timestamp),
      Show(f.hours) + "h " + Show(f.mins) + "m",
      TotalQty(records),
      TotalQty(records) as real * 4.5,
      CategoryCount(records),
      f.iotInterface,
      latest.telemetry.signalStrength,
      AvgLatency(records),
      errorRate,
      latest.telemetry.cpuUsage)
  }

  /** The machine ids in order of first appearance: the key order of the
      `machines` map. */
  function MachineOrder(data: seq<IoTRecord>): (o: seq<string>)
    ensures forall i, j :: 0 <= i < j < |o| ==> o[i] != o[j]
    ensures forall i :: 0 <= i < |o| ==> o[i] in Keys(data, MachineOf)
    ensures forall k :: 0 <= k < |data| ==> data[k].machineId in o
  {
    var o := Distinct(Keys(data, MachineOf));
    assert forall k :: 0 <= k < |data| ==> Keys(data, MachineOf)[k] == data[k].machineId;
    o
  }

  /** `machines.get(mid)`: the machine's records, in input order. It holds
      every record of the machine, as often as the data does, and no record
      of another machine. */
  function Group(data: seq<IoTRecord>, mid: string): (g: seq<IoTRecord>)
    requires mid in Keys(data, MachineOf)
    ensures 0 < |g| <= |data|
    ensures g == Select(data, MachineOf, mid)
    ensures forall i :: 0 <= i < |g| ==> g[i].machineId == mid
    ensures forall x :: multiset(g)[x] == if x.machineId == mid then multiset(data)[x] else 0
  {
    SelectNonEmpty(data, MachineOf, mid);
    SelectMultiset(data, MachineOf, mid);
    Select(data, MachineOf, mid)
  }

  /** `Array.from(machines.entries()).map(...)`. */
  function Rows(data: seq<IoTRecord>, order: seq<string>, now: int, hash: string -> nat): (rows: seq<MachineFleetStatus>)
    requires forall i :: 0 <= i < |order| ==> order[i] in Keys(data, MachineOf)
    ensures |rows| == |order|
    ensures forall i :: 0 <= i < |order| ==> rows[i].machineId == order[i]
    ensures forall i :: 0 <= i < |order| ==> rows[i] == MachineRow(order[i], Group(data, order[i]), now, hash)
  {
    seq(|order|, i requires 0 <= i < |order| => MachineRow(order[i], Group(data, order[i]), now, hash))
  }

  /** Some row is for machine `mid`. */
  predicate HasRow(rows: seq<MachineFleetStatus>, mid: string)
  {
    exists i :: 0 <= i < |rows| && rows[i].machineId == mid
  }

  /** One row per distinct machine id: no id twice, no id missing, and no
      row for a machine without records. */
  function GetFleetStatus(data: seq<IoTRecord>, now: int, hash: string -> nat): (rows: seq<MachineFleetStatus>)
    ensures |rows| == |MachineOrder(data)| <= |data|
    ensures forall i, j :: 0 <= i < j < |rows| ==> rows[i].machineId != rows[j].machineId
    ensures forall k :: 0 <= k < |data| ==> HasRow(rows, data[k].machineId)
    ensures forall i :: 0 <= i < |rows| ==> rows[i].machineId in Keys(data, MachineOf)
    ensures forall i :: 0 <= i < |rows| ==>
              rows[i] == MachineRow(rows[i].machineId, Group(data, rows[i].machineId), now, hash)
  {
    var order := MachineOrder(data);
    var rows := Rows(data, order, now, hash);
    EveryMachineHasARow(data, order, rows);
    rows
  }

  lemma EveryMachineHasARow(data: seq<IoTRecord>, order: seq<string>, rows: seq<MachineFleetStatus>)
    requires |rows| == |order|
    requires forall i :: 0 <= i < |order| ==> rows[i].machineId == order[i]
    requires forall k :: 0 <= k < |data| ==> data[k].machineId in order
    ensures forall k :: 0 <= k < |data| ==> HasRow(rows, data[k].machineId)
  {
    forall k | 0 <= k < |data|
      ensures HasRow(rows, data[k].machineId)
    {
      var i :| 0 <= i < |order| && order[i] == data[k].machineId;
      assert rows[i].machineId == data[k].machineId;
    }
  }

  /** A row's city, position and status come from the machine's last record
      in input order. */
  lemma RowFollowsLatest(data: seq<IoTRecord>, now: int, hash: string -> nat, i: nat)
    requires i < |GetFleetStatus(data, now, hash)|
    ensures var row := GetFleetStatus(data, now, hash)[i];
            exists j :: 0 <= j < |data| && data[j].machineId == row.machineId
              && (forall j' :: j < j' < |data| ==> data[j'].machineId != row.machineId)
              && row.city == data[j].location.city
              && (row.status == Offline <==> now - data[j].timestamp > OfflineAfterMs)
  {
    var order := MachineOrder(data);
    var g := Group(data, order[i]);
    var row := MachineRow(order[i], g, now, hash);
    assert GetFleetStatus(data, now, hash)[i] == row;
    LatestRecordFields(data, order[i], row, now);
  }

  /** A row built from the last record of machine `mid`'s group reports
      that machine's last record in the data. */
  lemma LatestRecordFields(data: seq<IoTRecord>, mid: string, row: MachineFleetStatus, now: int)
    requires mid in Keys(data, MachineOf)
    requires var g := Group(data, mid);
             && row.machineId == mid && row.city == g[|g| - 1].location.city
             && (row.status == Offline <==> now - g[|g| - 1].timestamp > OfflineAfterMs)
    ensures exists j :: 0 <= j < |data| && data[j].machineId == row.machineId
              && (forall j' :: j < j' < |data| ==> data[j'].machineId != row.machineId)
              && row.city == data[j].location.city
              && (row.status == Offline <==> now - data[j].timestamp > OfflineAfterMs)
  {
    LatestOfGroup(data, mid);
  }

  /** The last record of a machine's group is its last record in the data. */
  lemma LatestOfGroup(data: seq<IoTRecord>, mid: string)
    requires mid in Keys(data, MachineOf)
    ensures var g := Group(data, mid);
            exists j :: 0 <= j < |data| && data[j] == g[|g| - 1] && data[j].machineId == mid
              && (forall j' :: j < j' < |data| ==> data[j'].machineId != mid)
  {
    var g := Group(data, mid);
    assert g == Select(data, MachineOf, mid);
    SelectLast(data, MachineOf, mid);
    var j :| 0 <= j < |data| && data[j] == g[|g| - 1] && MachineOf(data[j]) == mid
             && forall j' :: j < j' < |data| ==> MachineOf(data[j']) != mid;
    assert forall j' :: j < j' < |data| ==> data[j'].machineId != mid;
  }

  /** The hash-derived fields are a function of the machine id alone: two
      rows for the same id in the same city agree on all of them. */
  lemma SeedFieldsDependOnIdOnly(a: seq<IoTRecord>, b: seq<IoTRecord>, mid: string, now: int, now': int, hash: string -> nat)
    requires |a| > 0 && |b| > 0
    requires a[|a| - 1].location.city == b[|b| - 1].location.city
    ensures var x := MachineRow(mid, a, now, hash);
            var y := MachineRow(mid, b, now', hash);
            x.iotInterface == y.iotInterface && x.address == y.address && x.onlineTime == y.onlineTime
            && x.jitterAngleDeg == y.jitterAngleDeg && x.jitterRadius == y.jitterRadius
  {
  }
}
