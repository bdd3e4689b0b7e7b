# Coffee-machine IoT dashboard: a Dafny model of its data core

The dashboard simulates a fleet of networked coffee machines. It generates
brewing records and folds them into dashboard statistics. A live tick adds
small packets of records through a state reducer. It reports the status of
each machine, builds a CRM profile for every user and tags users with a
persona from a simulated clustering model. It also keeps a version history
of trained models, one of which is in production.

This project models that core in Dafny and proves what it promises. The
modules follow the source files:

| module | file | models |
|---|---|---|
| `Types` | `types.dfy` | the records, statistics, profiles and model results of `types.ts` |
| `Common` | `common.dfy` | rounding, decimal rendering, grouping by key, count tables |
| `Sorting` | `sorting.dfy` | JavaScript's stable `Array.prototype.sort`, as a stable insertion sort |
| `Generator` | `generator.dfy` | `weightedRandom`, `generateSingleRecord`, `generateBatch` |
| `Aggregation` | `aggregate.dfy` | `aggregateStats` |
| `Ingest` | `ingest.dfy` | the live-tick packet and the statistics reducer of `App.tsx` |
| `Fleet` | `fleet.dfy` | `getFleetStatus` |
| `Lifecycle` | `lifecycle.dfy` | `handleVersionCreated` and `handleVersionDeployed` of `App.tsx` |
| `Ml` | `ml.dfy` | `normalize`, `predictUserCluster`, the cluster table and the AutoML candidate ranking of `trainModel` |
| `CrmMetrics` | `crm_metrics.dfy` | the behavioural, financial and inventory figures of `generateUserProfile` |
| `CrmEngine` | `crm_engine.dfy` | tags, feedback, sentiment, action scores, the next best action, `generateUserProfile` and `getCRMProfiles` |

Everything the source draws from `Math.random()` is an explicit input. Each
draw is a `Unit`, a real in [0, 1), and the draws are grouped in records such
as `Generator.RecordDraws`, `Generator.BatchDraw` and `CrmEngine.ProfileDraws`. The clock is a parameter
`Generator.Clock`, which has the current time in milliseconds and the local
hour and calendar day of a timestamp. The string hash `cyrb53` is a parameter
`hash: string -> nat`. The churn sigmoid is a parameter
`CrmEngine.ChurnModel`. JavaScript's `'N/A'` fallback for a missing
favourite beverage is `None`. The `NaN` of an average over no records is
`None` as well.

## Model

| member | source | states |
|---|---|---|
| Types.AllBeverages | types.ts:2-11 | the eight beverage kinds, listed without repetition |
| Types.AllBeveragesComplete | types.ts:2-11 | every beverage kind is in the list, Ristretto included |
| Common.Round | services/dataGenerator.ts:77 | `Math.round`: the result is within half a unit of its argument, with halves rounded up |
| Common.Ceil | services/crmEngine.ts:98 | `Math.ceil`: the least integer not below its argument |
| Common.RoundTenth | services/crmEngine.ts:412 | `Number(x.toFixed(1))`: a whole number of tenths within 0.05 of its argument |
| Common.Show | services/dataGenerator.ts:99 | a number rendered in a template string is a non-empty run of digits, one digit exactly when below ten |
| Common.ShowRoundTrip | services/dataGenerator.ts:99 | parsing the rendering of a number gives the number back |
| Common.ShowInjective | services/dataGenerator.ts:99 | two numbers with the same rendering are equal, so `REC-<n>` ids of different numbers differ |
| Common.Distinct | services/crmEngine.ts:426-432 | the keys of a `Map` filled in order: no key twice, exactly the keys that occur |
| Common.DistinctIsSetSize | services/dataGenerator.ts:160 | the number of distinct keys is the size of the `Set` of the keys |
| Common.GroupsPartition | services/crmEngine.ts:426-430 | grouping records by key puts every record in exactly one group: the group sizes add up to the number of records |
| Common.Bump | services/dataGenerator.ts:144 | `counts[k] = (counts[k] \|\| 0) + 1`: key `k` goes up by one, every other entry is unchanged |
| Common.SelectMultiset | services/dataGenerator.ts:184-186 | selecting by key keeps each element with that key as often as in the input and drops every other |
| Sorting.SortBy | services/dataGenerator.ts:132 | the sort returns a permutation of its input, ordered by the key, and stable: the elements of each key keep their input order |
| Sorting.InsertTies | services/dataGenerator.ts:132 | inserting an element into a sorted run puts it before every element of equal key |
| Sorting.SortHead | services/crmEngine.ts:292 | the stable sort puts first the earliest element among those with the least key |
| Sorting.FirstMinIndex | services/crmEngine.ts:292 | the earliest position of a least key: no key is smaller, and every earlier key is larger |
| Sorting.FirstMinUnique | services/crmEngine.ts:292 | any position with those two properties is that position |
| Generator.PrefixSums | services/dataGenerator.ts:27-28 | the running sums of the weights: the first is the first weight and each later one adds its weight |
| Generator.RunningSums | services/dataGenerator.ts:27-28 | the in-place accumulation loop leaves exactly the running sums |
| Generator.RunningSumsUnique | services/dataGenerator.ts:27-28 | any sequence that satisfies the running-sum recurrence is the running sums |
| Generator.PickIndex | services/dataGenerator.ts:30-33 | the first index whose running sum exceeds the draw, or the last index when none does |
| Generator.PickIndexUnique | services/dataGenerator.ts:30-33 | the picked index is the only index with that property |
| Generator.FirstAbove | services/dataGenerator.ts:30-33 | the scanning loop returns the picked index |
| Generator.ScaleIsProduct | services/dataGenerator.ts:29 | the scaled draw is the draw times the total weight, below the total when the total is positive |
| Generator.WeightedRandomLoop | services/dataGenerator.ts:25-34 | the loop version returns the weighted pick, which is one of the items |
| Generator.WeightedRandom | services/dataGenerator.ts:25-34 | the pick is the item at the first index whose running sum exceeds the scaled draw, or the last item; with a positive total, that item has a positive weight |
| Generator.PickHasWeight | services/dataGenerator.ts:30-32 | when the draw is below the total, the index where the scan stops has a running sum above the draw and a positive weight |
| Generator.PrefixPositive | services/dataGenerator.ts:27-29 | a positive first weight makes the total positive |
| Generator.ConfigFor | services/dataGenerator.ts:5-12 | the configuration of a city comes from the table and has that city; there is none exactly when no entry has it |
| Generator.UserSeed | services/dataGenerator.ts:90-96 | the user number falls in the band chosen by the first draw: below 12, 12 to 49, 50 to 99, 100 to 149 |
| Generator.DrawUser | services/dataGenerator.ts:90-96 | every user id is `USR-<n>` with n below 150 |
| Generator.DrawHour | services/dataGenerator.ts:46-49 | the hour is the first whose running hourly weight exceeds the scaled draw |
| Generator.DrawBeverage | services/dataGenerator.ts:59-67 | a coffee draw gives one of the four coffees and a tea draw one of the three teas; Ristretto never appears |
| Generator.DrawCity | services/dataGenerator.ts:57 | the location is the centre of one of the six configured cities |
| Generator.DrawFirmware | services/dataGenerator.ts:120 | the firmware is 2.1.0, 2.0.5 or 1.9.8 |
| Generator.DrawTimestamp | services/dataGenerator.ts:42-55 | a live record is stamped now; a historical one at some local hour and minute of the day the given number of days back, which for zero days can lie later today |
| Generator.DrawParams | services/dataGenerator.ts:69-79 | temperature within 2 and volume within 5 of the beverage's base values |
| Generator.DrawTelemetry | services/dataGenerator.ts:81-88 | a faulty record has CPU 95 and latency 220 to 299; a healthy one latency 20 to 99 and CPU 10 to 69; signal -69 to -30 dBm |
| Generator.DrawFault | services/dataGenerator.ts:85-88 | a fault exactly when the first draw exceeds 0.98; low pressure when the second exceeds one half, else a gateway timeout |
| Generator.DrawAge | services/dataGenerator.ts:102 | the age is the floor of the scaled draw, between 18 and 64 |
| Generator.DrawQuantity | services/dataGenerator.ts:106 | the quantity is 1 or 2, and 2 exactly when the draw is at least one half |
| Generator.GenerateSingleRecord | services/dataGenerator.ts:37-122 | a record carries `REC-<id>`, the timestamp rule, the fault-dependent telemetry, a known user, age, quantity, category-dependent beverage and parameters, city and firmware |
| Generator.DaysAgo | services/dataGenerator.ts:129 | the day offset is the floor of 30 times the squared draw, at most 29 |
| Generator.BatchRecord | services/dataGenerator.ts:126-130 | batch record i carries `REC-<i>` and is stamped at some hour and minute of a day at most 29 days back |
| Generator.GenerateBatch | services/dataGenerator.ts:124-133 | the batch has `count` records, in ascending timestamp order, and is a permutation of the generated records |
| Generator.BatchRecordsGenerated | services/dataGenerator.ts:126-132 | every record of the sorted batch is one of the generated records |
| Generator.BatchIdsDistinct | services/dataGenerator.ts:130 | records generated with different ids carry different `REC-` ids |
| Aggregation.NoBrews | services/dataGenerator.ts:138 | the hour histogram starts at zero for all 24 hours |
| Aggregation.Tick | services/dataGenerator.ts:150-151 | a brew raises its hour's count by one, leaves the other hours alone, and raises the histogram total by one |
| Aggregation.StepCounts | services/dataGenerator.ts:143-151 | one record raises its beverage, city and hour counts by one, adds its temperature and latency, and counts its error, leaving the other keys alone |
| Aggregation.MeanTimesCount | services/dataGenerator.ts:158-165 | `x / n \|\| 0`: zero without records, else the mean times the count gives the total |
| Aggregation.AggregateStats | services/dataGenerator.ts:135-167 | the total is the number of records; no records give zero means, zero rate and no top beverage; otherwise the averages are the temperature and latency sums over the count and the error rate the share of faulty records, in [0, 1], and there is a top beverage |
| Aggregation.FoldInvariant | services/dataGenerator.ts:143-152 | after every prefix, each key is listed once in insertion order, every table adds up to the records folded, and errors never exceed them |
| Aggregation.FoldSums | services/dataGenerator.ts:146-148 | after the fold, the running totals are the temperature and latency sums and the error count the number of faulty records |
| Aggregation.ActiveUsersAreDistinctIds | services/dataGenerator.ts:160 | the active-user count is the number of distinct user ids |
| Aggregation.CountsAreOccurrences | services/dataGenerator.ts:143-145 | each beverage and city count is the number of records with that beverage or city |
| Aggregation.FoldBeverageCount | services/dataGenerator.ts:144 | after the fold, each beverage's count is its number of records |
| Aggregation.FoldCityCount | services/dataGenerator.ts:145 | after the fold, each city's count is its number of records |
| Aggregation.FoldHourCount | services/dataGenerator.ts:150-151 | after the fold, each hour's bucket is the number of timestamps in that hour |
| Aggregation.HourCountsAreOccurrences | services/dataGenerator.ts:150-162 | `timeDistribution[h]` counts the records brewed in hour h |
| Aggregation.DistributionsSumToTotal | services/dataGenerator.ts:143-163 | the beverage, city and hour distributions each add up to the total brew count |
| Aggregation.ErrorCountPositive | services/dataGenerator.ts:148 | one faulty record makes the error count positive |
| Aggregation.RateBetween | services/dataGenerator.ts:165 | a rate of at most n errors in n records lies in [0, 1] |
| Aggregation.AveragesBetween | services/dataGenerator.ts:158-164 | the mean temperature and latency lie between the least and greatest bounds of the records |
| Aggregation.TopIsLeader | services/dataGenerator.ts:154 | the top beverage has a count no other beverage exceeds |
| Aggregation.TopLeads | services/dataGenerator.ts:154 | with any beverage counted, the top beverage is one of them and no count exceeds its count |
| Aggregation.TopTieBreak | services/dataGenerator.ts:154 | among tied leaders, the top beverage is the one counted first |
| Aggregation.TopFirst | services/dataGenerator.ts:154 | every beverage counted before the top one has a strictly smaller count |
| Ingest.GeneratePacket | App.tsx:83-87 | a packet holds one to three live records, numbered from the current time |
| Ingest.PacketRecord | App.tsx:86 | a packet record is stamped now and carries `REC-<now + i>` |
| Ingest.PacketLoop | App.tsx:101-118 | the per-record loop adds each record to its city, beverage and hour counts and leaves the total, leader and user count alone |
| Ingest.LeaderScan | App.tsx:119-127 | the scan keeps the old leader unless a packet beverage now has a strictly higher count, and then returns one with the highest count among them |
| Ingest.Ingest | App.tsx:94-128 | the reducer adds the packet to the total and to every distribution, keeps the active-user count, and changes the leader exactly when a packet beverage overtakes it |
| Ingest.Window | App.tsx:90 | `slice(-5000)`: the last 5000 records, or all of them when there are fewer |
| Ingest.IngestTick | App.tsx:89-93 | the window grows by the packet; the first tick aggregates the window, later ticks reduce the previous statistics |
| Ingest.MeanStep | App.tsx:108-109 | one running-mean step with the new count is the mean of one more value |
| Ingest.IngestOneMatches | App.tsx:92-128 | with a one-record packet, the reduced statistics match those recomputed from all the data, with the leader and the active-user count left out of the comparison |
| Ingest.SingleRecordAgrees | App.tsx:100-117 | for a one-record packet the reducer as written and the corrected reducer agree |
| Ingest.IngestCorrected | App.tsx:100-117 | the corrected reducer adds the packet to the total |
| Ingest.IngestCorrectedMatches | App.tsx:100-117 | the corrected reducer matches the recomputed statistics for packets of any size |
| Ingest.AggregateLeads | services/dataGenerator.ts:154 | the aggregated top beverage has the highest count |
| Ingest.IngestKeepsLeader | App.tsx:119-127 | if the old leader had the highest count, the reducer's leader still has the highest count |
| Ingest.LeaderCountsAgree | App.tsx:119-127 | after a one-record packet, the reducer's leader and the recomputed one have the same count |
| Ingest.RunningMeanCounterexample | App.tsx:100-109 | latencies 10 and 20 in one packet give a mean of 12.5 where the data mean is 15; the corrected reducer gives 15 |
| Ingest.ErrorRateCounterexample | App.tsx:111-117 | a faulty then a healthy record in one packet give an error rate of 0 where the data rate is 0.5; the corrected reducer gives 0.5 |
| Fleet.StreetsFor | services/dataGenerator.ts:16-23 | a city's eight streets, or the fallback list exactly when the city has no entry |
| Fleet.SpreadFor | services/dataGenerator.ts:203 | a city's spread, or 0.1 for an unknown city; always between 0.08 and 0.15 |
| Fleet.StatusOf | services/dataGenerator.ts:199-201 | offline after four hours of silence; otherwise maintenance above a 5% error rate, else active |
| Fleet.FromSeed | services/dataGenerator.ts:205-221 | the interface, online time, street, number, angle and radius derived from the hash, with their ranges |
| Fleet.Radius | services/dataGenerator.ts:206-207 | the jitter radius lies in [0, spread) |
| Fleet.ErrorRate | services/dataGenerator.ts:194-195 | the machine's error rate is the share of its faulty records |
| Fleet.AvgLatency | services/dataGenerator.ts:193 | the floored mean latency of the machine's records |
| Fleet.CategoryCount | services/dataGenerator.ts:192 | the number of distinct beverages the machine brewed, between 1 and its record count |
| Fleet.MachineRow | services/dataGenerator.ts:189-243 | a row takes city, location, signal, CPU and its offline or maintenance status from the machine's latest record, and the totals from all its records; revenue is 4.5 per unit sold |
| Fleet.MachineOrder | services/dataGenerator.ts:182-187 | every machine is listed once, in order of first appearance |
| Fleet.Rows | services/dataGenerator.ts:189-243 | one row per listed machine, in order, each the summary of that machine's group |
| Fleet.Group | services/dataGenerator.ts:184-186 | a machine's group is exactly its records in data order: non-empty, and each record of the machine as often as in the data |
| Fleet.GetFleetStatus | services/dataGenerator.ts:181-245 | one row per machine: no machine twice, every machine of the data present, no other machine, and each row the summary of that machine's group |
| Fleet.RowFollowsLatest | services/dataGenerator.ts:190-225 | each row reports the city and offline status of its machine's last record in the data |
| Fleet.LatestOfGroup | services/dataGenerator.ts:184-190 | the last record of a machine's group is its last record in the data |
| Fleet.SeedFieldsDependOnIdOnly | services/dataGenerator.ts:197-221 | two rows for one machine id in one city agree on interface, address, online time and jitter |
| Lifecycle.Current | App.tsx:30 | a model type without history has no versions and no production version |
| Lifecycle.VersionCreated | App.tsx:28-39 | the new version goes in front of the history; production and the other model types are untouched |
| Lifecycle.Restatus | App.tsx:51 | the deployed version becomes production, a previous production version becomes ready, others keep their status |
| Lifecycle.Promote | App.tsx:46-52 | the production id becomes the deployed id; exactly the versions with that id are in production, a former production version becomes ready, and nothing but the status changes |
| Lifecycle.VersionDeployed | App.tsx:41-57 | the history and the trained result of only the deployed type change |
| Lifecycle.DeployedIsSoleProduction | App.tsx:41-57 | after a deploy, exactly the deployed version is in production and ids and metrics are unchanged |
| Lifecycle.DeployIdempotent | App.tsx:41-57 | deploying the same version twice equals deploying it once |
| Lifecycle.CreatedKeepsConsistent | App.tsx:28-39 | recording a non-production version keeps the production bookkeeping consistent |
| Lifecycle.CreateThenDeploy | App.tsx:28-57 | after training and deploying, the newest version is the production version and its result is the trained model |
| Ml.Normalize | services/mlEngine.ts:5 | min-max scaling: the bounds go to 0 and 1, the range into [0, 1], values outside it outside [0, 1] |
| Ml.NormalizeMonotone | services/mlEngine.ts:5 | normalising keeps order |
| Ml.SquaredDistance | services/mlEngine.ts:158-160 | the squared distance is non-negative and zero between equal points |
| Ml.PredictUserCluster | services/mlEngine.ts:162-188 | no label without clusters; otherwise the label of the first closest centroid |
| Ml.EffectiveK | services/mlEngine.ts:98 | `k \|\| 4`: a positive k is used as given; a missing or zero k means four clusters |
| Ml.SegmentHour | services/mlEngine.ts:102 | the segment hour lies in 0 to 23 |
| Ml.SegmentHourCycle | services/mlEngine.ts:102 | segment hours repeat 8, 14, 20, 2 |
| Ml.NoHotAndStrong | services/mlEngine.ts:102-107 | no segment is ever labelled Hot & Strong |
| Ml.Centroid | services/mlEngine.ts:109-118 | a centroid's id, hour and label, its age in 25 to 54 and temperature in 80 to 94, and its size as the floored share |
| Ml.ClusterTable | services/mlEngine.ts:97-120 | the persona table has k rows, each with those properties |
| Ml.Registry | services/mlEngine.ts:17-39 | three algorithms for every model type, each with base performance between 0.5 and 1 |
| Ml.AlgoEpochs | services/mlEngine.ts:58 | `max(5, floor(epochs / 3))`: at least five and at least a third of the epochs, and exactly the floored third when that exceeds five |
| Ml.EpochMetrics | services/mlEngine.ts:65-74 | loss is the larger of 0.01 and one minus accuracy; precision and recall are offset from accuracy |
| Ml.RunEpochs | services/mlEngine.ts:59-78 | the epoch loop leaves the initial metrics without epochs, and otherwise the last epoch's metrics, whose accuracy depends on the last noise draw alone |
| Ml.FinalAccuracy | services/mlEngine.ts:61-78 | after all epochs the accuracy is within 0.025 of the base performance, offset by exactly the last draw's noise |
| Ml.TrainCandidate | services/mlEngine.ts:51-85 | a candidate keeps its algorithm's name, is not yet best and lands near the base performance |
| Ml.CrownChampion | services/mlEngine.ts:88-90 | the candidates by descending accuracy, the head flagged best and no other, a permutation of the input |
| Ml.Forecast | services/mlEngine.ts:128-131 | thirteen forecast days from -5 to 7, each value in its 200-wide band |
| Ml.TrainModel | services/mlEngine.ts:41-154 | three candidates, the training of the registry's algorithms for the type, best first and used as the result; the persona clusters are the cluster table for the effective k, the rules the fixed association rules; clusters, regression and rules only for their own model type |
| CrmMetrics.RecencyEnds | services/crmEngine.ts:44-45 | newest-first sorting puts the latest record first and the earliest last |
| CrmMetrics.LastActive | services/crmEngine.ts:45 | the latest timestamp, or now when there is none or it is 0 |
| CrmMetrics.JoinDate | services/crmEngine.ts:403 | the earliest timestamp, or now when there is none or it is 0 |
| CrmMetrics.DaysActive | services/crmEngine.ts:49 | the number of distinct days, zero exactly without records |
| CrmMetrics.DailyBrews | services/crmEngine.ts:50 | 0.5 without records, else between 1 and the record count |
| CrmMetrics.DailyBrewsIsRate | services/crmEngine.ts:50 | daily brews times active days is the record count |
| CrmMetrics.LifetimeValue | services/crmEngine.ts:68 | the linear score capped at 100 |
| CrmMetrics.LifetimeValueMonotone | services/crmEngine.ts:68 | more brews and more daily brews never lower the score |
| CrmMetrics.Tier | services/crmEngine.ts:90-93 | Platinum from 80, Gold from 45, Silver from 15, else Bronze |
| CrmMetrics.TierMonotone | services/crmEngine.ts:90-93 | a higher score never gives a lower tier |
| CrmMetrics.WindowSplit | services/crmEngine.ts:76-77 | the previous week and the recent week together count the last two weeks |
| CrmMetrics.Newer | services/crmEngine.ts:76 | the records newer than a time: none exactly when every timestamp is at most it, all exactly when every one is newer |
| CrmMetrics.Window | services/crmEngine.ts:77 | the records in a half-open time window: none exactly when no timestamp falls inside |
| CrmMetrics.WeekCounts | services/crmEngine.ts:73-77 | the first count is the records newer than a week, the second those of the week before; together the records of the last two weeks |
| CrmMetrics.Declining | services/crmEngine.ts:80-81 | declining exactly when there was a previous week and the ratio is below 0.7 |
| CrmMetrics.DeclineRule | services/crmEngine.ts:80-81 | the real-valued ratio test and the integer form agree |
| CrmMetrics.Slope | services/crmEngine.ts:83 | 2 or 0 without a previous week, else the recent-to-previous ratio |
| CrmMetrics.RecencyDays | services/crmEngine.ts:70-84 | days since last activity, capped at 30 |
| CrmMetrics.EstimatedOrders | services/crmEngine.ts:98 | one order without brews, else the fewest orders of 50 pods that hold all brews |
| CrmMetrics.OrderFrequencyDays | services/crmEngine.ts:101 | active days per order, floored, or 30 with at most one order |
| CrmMetrics.FinancialsOf | services/crmEngine.ts:96-101 | spend is 4.5 per brew and the last order amount is the average order value |
| CrmMetrics.AverageOrderValue | services/crmEngine.ts:99 | the average order value times the number of orders is the spend |
| CrmMetrics.RandomFactor | services/crmEngine.ts:104 | the user-id factor lies in [0, 0.99]; an empty id has none |
| CrmMetrics.LastOrderDate | services/crmEngine.ts:104-106 | the last order lies 1 to 40 whole days before now |
| CrmMetrics.ConsumedSince | services/crmEngine.ts:118 | pods of a beverage used since the last order: that beverage's records newer than the order date, none when the date is missing |
| CrmMetrics.StockStatusOf | services/crmEngine.ts:124-127 | Critical up to 3 days, Low up to 7, Medium up to 14, else High |
| CrmMetrics.OrderQuantity | services/crmEngine.ts:115-117 | the last order is the least multiple of ten covering 35 days of use, or 20 when that is less |
| CrmMetrics.Item | services/crmEngine.ts:113-143 | stock is the order less consumption, or a small refill draw below 5 when overdrawn; days left and status follow |
| CrmMetrics.DaysOfStock | services/crmEngine.ts:122 | dividing stock by the daily rate and flooring equals the integer quotient |
| CrmMetrics.WorstOf | services/crmEngine.ts:109-133 | Critical if any item is, else Low if any item is, else High |
| CrmMetrics.Worsen | services/crmEngine.ts:129-133 | one scan step: critical sticks, low replaces anything but critical, other statuses change nothing |
| CrmMetrics.Inventory | services/crmEngine.ts:103-150 | at most three items for the first ranked beverages, each the inventory line of that beverage's count, the active days, its pods consumed since the last order and its refill draw; the overall status is the worst item's |
| CrmEngine.BrewsBetween | services/crmEngine.ts:158-161 | brews within an hour range never exceed the records |
| CrmEngine.DisjointHours | services/crmEngine.ts:158-162 | morning and night brews together never exceed the records |
| CrmEngine.AgeOf | services/crmEngine.ts:65 | the first record's age, or 30 when absent or zero |
| CrmEngine.Average | services/crmEngine.ts:63-64 | no average without records, else total over count |
| CrmEngine.SignalsOf | services/crmEngine.ts:46-101 | the user's figures from the records: brews, errors, favourite, mean temperature and hour, age, morning and night brews, value, churn from recency, slope and brews, the decline flag, spend, orders, daily brews and order frequency |
| CrmEngine.ShareAbove | services/crmEngine.ts:159 | a share test holds exactly when there are records and the count exceeds the share |
| CrmEngine.TagIf | services/crmEngine.ts:155-170 | a tag is emitted exactly when its condition holds |
| CrmEngine.ClusterLabel | services/crmEngine.ts:173-176 | a cluster label comes only from a trained persona model, as its prediction |
| CrmEngine.HabitTags | services/crmEngine.ts:155-162 | high and low temperature, morning and night tags exactly by their rules, from the library |
| CrmEngine.AccountTags | services/crmEngine.ts:164-170 | churn risk, VIP, high spender and hardware tags exactly by their rules, from the library |
| CrmEngine.ClusterTag | services/crmEngine.ts:173-185 | one AI tag exactly when a non-empty label was predicted |
| CrmEngine.Tags | services/crmEngine.ts:153-185 | every rule tag present exactly when its rule holds |
| CrmEngine.TagsCarryTheirValues | services/crmEngine.ts:170-183 | the hardware tag carries the error count and the AI tag the predicted label |
| CrmEngine.TagsFromLibrary | services/crmEngine.ts:10-27 | every tag is the library entry of its kind, AI-generated exactly in the AI category |
| CrmEngine.TagCategory | services/crmEngine.ts:26 | a tag is AI-generated exactly when it is the cluster tag |
| CrmEngine.ExclusiveTags | services/crmEngine.ts:155-167 | never both morning and night, high and low temperature, or VIP and high spender |
| CrmEngine.TeaFavorites | services/crmEngine.ts:207 | a favourite's name contains Tea exactly for Green Tea and Black Tea |
| CrmEngine.ComplaintTicket | services/crmEngine.ts:190-196 | the complaint is dated one to three days ago |
| CrmEngine.RawFeedback | services/crmEngine.ts:188-223 | complaint iff errors, inquiry iff value above 70, suggestion iff tea favourite, praise otherwise on the draw |
| CrmEngine.OnlyComplaintsOpen | services/crmEngine.ts:188-223 | a ticket is open exactly when it is a complaint |
| CrmEngine.Feedback | services/crmEngine.ts:224 | the tickets, newest first, as a permutation |
| CrmEngine.LastRequest | services/crmEngine.ts:228-249 | the kind of the first ticket, none exactly without tickets |
| CrmEngine.LastRequestIsNewest | services/crmEngine.ts:224-249 | the last request is the kind of a ticket no other ticket postdates |
| CrmEngine.NewestHead | services/crmEngine.ts:224-228 | the head of a newest-first permutation is the latest ticket |
| CrmEngine.OpenTickets | services/crmEngine.ts:248 | the open tickets: none exactly when no ticket is open |
| CrmEngine.NoneOpen | services/crmEngine.ts:248 | an empty selection of open tickets means no ticket is open, and back |
| CrmEngine.SentimentOf | services/crmEngine.ts:227-235 | the latest ticket decides the sentiment; without tickets churn above 70 is negative, value above 70 positive |
| CrmEngine.ErrorsOpenTicket | services/crmEngine.ts:189-196 | a hardware error always leaves an open ticket |
| CrmEngine.ScoresOf | services/crmEngine.ts:254-283 | the four action scores within their bounds; replenishment at most 20 unless stock is critical or low; upsell vetoed to -100 exactly by critical stock, an open ticket or negative sentiment |
| CrmEngine.ScoreEntries | services/crmEngine.ts:285-290 | the four scored actions, each once, never engagement, each with its own score |
| CrmEngine.WinnerIndex | services/crmEngine.ts:285-292 | the first of the highest scores, in the order replenishment, maintenance, retention, upsell |
| CrmEngine.Winner | services/crmEngine.ts:292-294 | the winner is that entry, never engagement |
| CrmEngine.FirstUrgent | services/crmEngine.ts:314 | the index of the first critical or low item, none exactly when no item is |
| CrmEngine.RestockTarget | services/crmEngine.ts:314 | the first critical or low item, with no such item before it, else the first item |
| CrmEngine.RuleFor | services/crmEngine.ts:362 | the consequent of the first rule for the favourite, with no matching rule before it; none when no rule matches |
| CrmEngine.RuleShift | services/crmEngine.ts:362 | a first match in the rules after a non-matching head is the first match of the whole list |
| CrmEngine.UpsellOffer | services/crmEngine.ts:357-367 | with trained rules, the product of the first rule for the favourite; without a recommendation model, no product |
| CrmEngine.Decide | services/crmEngine.ts:296-383 | engagement iff the winning score is at most 20, else the winner's action, each with its confidence, priority and offer |
| CrmEngine.ReplenishmentNeedsScore | services/crmEngine.ts:292-299 | replenishment is decided only on a replenishment score above 20 |
| CrmEngine.EmptyStockNoRestock | services/crmEngine.ts:109-314 | with no inventory lines the stock is High, so replenishment is never decided |
| CrmEngine.ReplenishmentHasStock | services/crmEngine.ts:254-314 | a profile whose action is replenishment has an inventory line to restock |
| CrmEngine.VetoAndMaintenance | services/crmEngine.ts:263-292 | a vetoed upsell never wins; a maintenance score of 145 beats every other score |
| CrmEngine.Evidence | services/crmEngine.ts:386-395 | eight metrics in order; each trend and colour fixed or set by its threshold, with both sides of every threshold stated |
| CrmEngine.Ranked | services/crmEngine.ts:61 | the beverage entries by descending count |
| CrmEngine.RankedIsTally | services/crmEngine.ts:53-61 | each brewed beverage appears once, with its number of records |
| CrmEngine.RankedLeaders | services/crmEngine.ts:61-111 | a beverage outside the first ranked entries is brewed no more often than any of them |
| CrmEngine.InventoryOf | services/crmEngine.ts:103-150 | one inventory line for each of the first three ranked beverages, built from its count, the active days and its pods consumed since the last order date; the overall status the worst line's |
| CrmEngine.GenerateUserProfile | services/crmEngine.ts:37-423 | a profile has the user's id, record count, the rounded value and its tier, the churn of the signals, the favourite, the rounded daily brews, the financials, the inventory, the tags and tickets of the signals, the sentiment of those tickets, the action decided on the scores and evidence, at most three tickets and first and last activity |
| CrmEngine.ErrorsMeanMaintenance | services/crmEngine.ts:169-328 | any faulty record makes maintenance the next best action |
| CrmEngine.ProfilesOf | services/crmEngine.ts:432 | one generated profile per listed user, from that user's records |
| CrmEngine.GetCRMProfiles | services/crmEngine.ts:425-433 | the profiles follow the distinct users in order of first appearance |
| CrmEngine.ProfilesPerUser | services/crmEngine.ts:425-433 | no user twice, and each profile counts that user's records, never zero |
| CrmEngine.ProfilesCoverRecords | services/crmEngine.ts:425-433 | the profiles' brew counts add up to the number of records |

## Left out

- `Math.random()`, `Date.now()`, `new Date(...)`, `setHours` and `getHours` are parameters. Timers, `setTimeout`, React state, `async` and progress callbacks are not modelled.
- `weightedRandom` overwrites its caller's weight array with the running sums. The model returns the running sums from `Generator.RunningSums` and leaves the weights unchanged.
- `cyrb53` is a parameter `hash`, because its 32-bit `Math.imul` arithmetic only spreads machine ids and no property depends on it.
- The sine and cosine of the machine jitter are left out. A row keeps the angle in degrees and the radius; the offsets would need floating-point trigonometry.
- The churn sigmoid `1 / (1 + exp(-z))` is the parameter `CrmEngine.ChurnModel`, because Dafny has no exponential or logarithm.
- JavaScript numbers are unbounded reals and integers here. Floating-point rounding is not modelled, and `toFixed` is only modelled where it feeds a value (`Common.RoundTenth`).
- The mock name, e-mail, phone, avatar, the narrative texts, titles, descriptions and the evidence value strings are left out, because nothing else reads them.
- Strings are Dafny sequences of characters, not UTF-16 code units. `charCodeAt` is the character's code point.
- The `geminiService` analysis and the rest of the interface are not part of this model.
- `trainModel`'s abort signal, delays and progress reports are left out. Its noise draws come in as `Unit` parameters.
- Ingest.Ingest: keeps the source's `activeUsers` unchanged, as the reducer does, and so is not compared with the recomputed user count.
- Ingest.IngestOneMatches: leaves the top beverage and the active-user count out of the comparison; the count is kept as the reducer keeps it (see `Ingest.Ingest`). On a tie the reducer keeps the old leader while `aggregateStats` takes the first counted; `Ingest.LeaderCountsAgree` proves both leaders have the same count.
- Ml.SquaredDistance: the source takes a square root; the model compares squared distances, which pick the same closest centroid.
- CrmMetrics.Item: the refill after an overdrawn stock is a draw below 5, as in the source, but the draw itself is a parameter.
- CrmEngine.Decide: with no inventory items a replenishment action carries no offer, where the source would read a field of `undefined`. `CrmEngine.ReplenishmentHasStock` proves that a generated profile never reaches that case.
- `RecommendationRule`'s antecedent and consequent are beverages rather than strings. The only rules ever trained (services/mlEngine.ts:141-143) name beverage kinds, and the missing favourite `'N/A'` is `None`, which matches no rule.

## Findings

| source | as written | input that shows it | evidently intended | confidence | as-written member | corrected member |
|---|---|---|---|---|---|---|
| App.tsx:100-109 | the total is raised by the whole packet first, and each record is then averaged in as `(mean * (total - 1) + x) / total` with that final total | an empty history and one packet with latencies 10 and 20: the mean becomes 12.5 | the mean of all records, 15 | not executed | Ingest.RunningMeanCounterexample | Ingest.IngestCorrectedMatches |
| App.tsx:111-117 | each record rebuilds the error rate from the previous statistics, so only the packet's last record counts | an empty history and one packet with a faulty then a healthy record: the rate becomes 0 | the share of faulty records, 0.5 | not executed | Ingest.ErrorRateCounterexample | Ingest.IngestCorrectedMatches |
