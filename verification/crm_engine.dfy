/** `generateUserProfile` and `getCRMProfiles` of `services/crmEngine.ts`:
    the rule-based tags, the simulated feedback tickets, the sentiment, the
    four action scores and the next best action with its eight pieces of
    evidence, assembled into one profile per user. */
module CrmEngine {
  import opened Common
  import opened Types
  import opened Sorting
  import opened CrmMetrics
  import Aggregation
  import Ml
  import Generator
  import Lifecycle

  // ---------------------------------------------------------------------
  // What the profile is computed from
  // ---------------------------------------------------------------------

  /** The number of records brewed between hours `lo` and `hi` inclusive. */
  function BrewsBetween(records: seq<IoTRecord>, hourOf: int -> Hour, lo: int, hi: int): (n: nat)
    ensures n <= |records|
  {
    if |records| == 0 then 0
    else
      var h := hourOf(records[|records| - 1].timestamp);
      BrewsBetween(records[..|records| - 1], hourOf, lo, hi) + (if lo <= h <= hi then 1 else 0)
  }

  /** Disjoint hour ranges never count a record twice. */
  lemma {:induction false} DisjointHours(records: seq<IoTRecord>, hourOf: int -> Hour, lo: int, hi: int, lo': int, hi': int)
    requires hi < lo'
    ensures BrewsBetween(records, hourOf, lo, hi) + BrewsBetween(records, hourOf, lo', hi') <= |records|
  {
    if |records| > 0 {
      DisjointHours(records[..|records| - 1], hourOf, lo, hi, lo', hi');
    }
  }

  /** `totalHour`: the local hours of all records added up. */
  function HourTotal(records: seq<IoTRecord>, hourOf: int -> Hour): (t: nat)
    ensures t <= 23 * |records|
  {
    if |records| == 0 then 0 else HourTotal(records[..|records| - 1], hourOf) + hourOf(records[|records| - 1].timestamp)
  }

  /** `records[0]?.age || 30`. */
  function AgeOf(records: seq<IoTRecord>): (a: int)
    ensures a != 0
    ensures |records| > 0 && records[0].age != 0 ==> a == records[0].age
  {
    if |records| == 0 || records[0].age == 0 then 30 else records[0].age
  }

  /** `total / n`, or `None` for the NaN of an empty list. */
  function Average(total: int, n: nat): (r: Option<real>)
    ensures r.None? <==> n == 0
    ensures r.Some? ==> r.value * n as real == total as real
  {
    if n == 0 then None else Some(total as real / n as real)
  }

  /** The figures of one user that the tagging and scoring rules read. */
  datatype Signals = Signals(
    total: nat,
    avgTemp: Option<real>,
    avgHour: Option<real>,
    age: int,
    morning: nat,
    night: nat,
    errors: nat,
    churn: Percent,
    ltv: real,
    dailyBrews: real,
    spend: real,
    orders: nat,
    frequency: int,
    declining: bool,
    favorite: Option<Beverage>)

  /** The churn model `round(100 / (1 + exp(-z)))` with
      `z = 0.8 recency - 3.5 slope - 0.5 ln(total + 1) - 1.5`, taken as a
      parameter of its three inputs. */
  type ChurnModel = (real, real, nat) -> Percent

  /** The signals of a user's records: counts, averages and financial
      figures, each by the rule of its own definition. */
  function SignalsOf(records: seq<IoTRecord>, clock: Generator.Clock, churnOf: ChurnModel): (s: Signals)
    ensures s.total == |records|
    ensures s.errors == Aggregation.Fold(records, clock.hourOf).errorCount
    ensures s.favorite == Aggregation.AggregateStats(records, clock.hourOf).topBeverage
    ensures s.avgTemp == Average(Aggregation.Fold(records, clock.hourOf).totalTemp, |records|)
    ensures s.avgHour == Average(HourTotal(records, clock.hourOf), |records|)
    ensures s.age == AgeOf(records)
    ensures s.morning == BrewsBetween(records, clock.hourOf, 0, 9)
    ensures s.night == BrewsBetween(records, clock.hourOf, 21, 23)
    ensures s.morning + s.night <= s.total
    ensures s.ltv == LifetimeValue(|records|, DailyBrews(records, clock.dayOf)) && s.ltv <= 100.0
    ensures var weeks := WeekCounts(records, clock.now);
            && s.churn == churnOf(RecencyDays(clock.now, LastActive(records, clock.now)), Slope(weeks.0, weeks.1), |records|)
            && s.declining == Declining(weeks.0, weeks.1)
    ensures s.orders >= 1 && s.spend == 4.5 * s.total as real
    ensures s.dailyBrews == DailyBrews(records, clock.dayOf)
    ensures s.frequency == FinancialsOf(|records|, DaysActive(records, clock.dayOf)).orderFrequencyDays
  {
    var a := Aggregation.Fold(records, clock.hourOf);
    var n := |records|;
    var days := DaysActive(records, clock.dayOf);
    var adb := DailyBrews(records, clock.dayOf);
    var weeks := WeekCounts(records, clock.now);
    var recency := RecencyDays(clock.now, LastActive(records, clock.now));
    var fin := FinancialsOf(n, days);
    DisjointHours(records, clock.hourOf, 0, 9, 21, 23);
    Signals(
      n,
      Average(a.totalTemp, n),
      Average(HourTotal(records, clock.hourOf), n),
      AgeOf(records),
      BrewsBetween(records, clock.hourOf, 0, 9),
      BrewsBetween(records, clock.hourOf, 21, 23),
      a.errorCount,
      churnOf(recency, Slope(weeks.0, weeks.1), n),
      LifetimeValue(n, adb),
      adb,
      fin.totalSpend,
      EstimatedOrders(n),
      fin.orderFrequencyDays,
      Declining(weeks.0, weeks.1),
      Aggregation.TopBeverage(a.bevOrder, a.bevCounts))
  }

  // ---------------------------------------------------------------------
  // Tags
  // ---------------------------------------------------------------------

  /** The `TAG_LIBRARY` category of each tag. */
  function CategoryOf(k: TagKind): TagCategory
  {
    match k
    case HighTemp => Habit
    case LowTemp => Habit
    case MorningUser => Habit
    case NightUser => Habit
    case ChurnRisk => Risk
    case HardwareIssue(_) => Risk
    case Vip => Value
    case HighSpender => Value
    case AiCluster(_) => AI
  }

  function TagId(k: TagKind): string
  {
    match k
    case HighTemp => "t_high_temp"
    case LowTemp => "t_low_temp"
    case MorningUser => "t_morning"
    case NightUser => "t_night"
    case ChurnRisk => "t_churn"
    case Vip => "t_vip"
    case HighSpender => "t_spender"
    case HardwareIssue(_) => "t_hardware"
    case AiCluster(_) => "ai-cluster-res"
  }

  /** A library tag; only the cluster tag is flagged as AI-generated. */
  function Tag(k: TagKind): CRMTag
  {
    CRMTag(TagId(k), k, CategoryOf(k), k.AiCluster?)
  }

  function TagIf(c: bool, k: TagKind): (t: seq<CRMTag>)
    ensures Tag(k) in t <==> c
    ensures forall i :: 0 <= i < |t| ==> t[i] == Tag(k)
  {
    if c then [Tag(k)] else []
  }

  /** `count / total > share`, false for the NaN of an empty list. */
  function ShareAbove(count: nat, total: nat, share: real): (b: bool)
    ensures b <==> total > 0 && count as real > share * total as real
  {
    if total == 0 then false
    else
      var q := count as real / total as real;
      assert q * total as real == count as real;
      assert q > share <==> count as real > share * total as real by {
        if q > share { assert q * total as real > share * total as real; }
        if q <= share { assert q * total as real <= share * total as real; }
      }
      q > share
  }

  /** The label `predictUserCluster` gives the user under the trained
      persona model, if one with clusters is registered. An empty history
      gives NaN features, every distance is NaN, and no cluster is chosen. */
  function ClusterLabel(models: Lifecycle.ModelRegistry, s: Signals): (l: Option<string>)
    ensures l.Some? ==> UserPersona in models && models[UserPersona].clusters.Some? && s.avgHour.Some? && s.avgTemp.Some?
    ensures l.Some? ==> l == Ml.PredictUserCluster(Ml.Features(s.age as real, s.avgHour.value, s.avgTemp.value), models[UserPersona])
  {
    if UserPersona !in models || models[UserPersona].clusters.None? then None
    else if s.avgHour.None? || s.avgTemp.None? then None
    else Ml.PredictUserCluster(Ml.Features(s.age as real, s.avgHour.value, s.avgTemp.value), models[UserPersona])
  }

  /** The four habit entries of the library. */
  function HabitLibrary(): seq<CRMTag>
  {
    [Tag(HighTemp), Tag(LowTemp), Tag(MorningUser), Tag(NightUser)]
  }

  /** The churn, value and hardware entries; the hardware tag reports `errors`. */
  function AccountLibrary(errors: nat): seq<CRMTag>
  {
    [Tag(ChurnRisk), Tag(Vip), Tag(HighSpender), Tag(HardwareIssue(errors))]
  }

  /** The habit rules: each habit tag is present exactly when its
      threshold is crossed. */
  predicate HabitRules(s: Signals, tags: seq<CRMTag>)
  {
    && (Tag(HighTemp) in tags <==> s.avgTemp.Some? && s.avgTemp.value > 92.0)
    && (Tag(LowTemp) in tags <==> s.avgTemp.Some? && s.avgTemp.value < 85.0)
    && (Tag(MorningUser) in tags <==> s.total > 0 && s.morning as real > 0.6 * s.total as real)
    && (Tag(NightUser) in tags <==> s.total > 0 && s.night as real > 0.4 * s.total as real)
  }

  /** The account rules: churn above 70, VIP above 80 LTV, big spender
      only below it, and the hardware tag with the error count. */
  predicate AccountRules(s: Signals, tags: seq<CRMTag>)
  {
    && (Tag(ChurnRisk) in tags <==> s.churn > 70)
    && (Tag(Vip) in tags <==> s.ltv > 80.0)
    && (Tag(HighSpender) in tags <==> s.ltv <= 80.0 && s.spend > 2000.0)
    && (Tag(HardwareIssue(s.errors)) in tags <==> s.errors > 0)
  }

  /** The four habit tags. */
  function HabitTags(s: Signals): (tags: seq<CRMTag>)
    ensures HabitRules(s, tags)
    ensures forall t :: t in tags ==> t in HabitLibrary()
  {
    TagIf(s.avgTemp.Some? && s.avgTemp.value > 92.0, HighTemp)
      + TagIf(s.avgTemp.Some? && s.avgTemp.value < 85.0, LowTemp)
      + TagIf(ShareAbove(s.morning, s.total, 0.6), MorningUser)
      + TagIf(ShareAbove(s.night, s.total, 0.4), NightUser)
  }

  /** The churn, value and hardware tags; VIP excludes big spender. */
  function AccountTags(s: Signals): (tags: seq<CRMTag>)
    ensures AccountRules(s, tags)
    ensures forall t :: t in tags ==> t in AccountLibrary(s.errors)
  {
    TagIf(s.churn > 70, ChurnRisk)
      + TagIf(s.ltv > 80.0, Vip)
      + TagIf(s.ltv <= 80.0 && s.spend > 2000.0, HighSpender)
      + TagIf(s.errors > 0, HardwareIssue(s.errors))
  }

  /** The cluster tag, for a non-empty label. */
  function ClusterTag(cluster: Option<string>): (tags: seq<CRMTag>)
    ensures cluster.Some? && cluster.value != "" <==> |tags| == 1
    ensures forall t :: t in tags ==> cluster.Some? && cluster.value != "" && t == Tag(AiCluster(cluster.value))
  {
    if cluster.Some? && cluster.value != "" then [Tag(AiCluster(cluster.value))] else []
  }

  /** The tagging rules, in the order the source pushes them. */
  function Tags(s: Signals, cluster: Option<string>): (tags: seq<CRMTag>)
    ensures HabitRules(s, tags)
    ensures AccountRules(s, tags)
  {
    var h, a, c := HabitTags(s), AccountTags(s), ClusterTag(cluster);
    HabitRulesKept(s, h, a, c);
    AccountRulesKept(s, h, a, c);
    h + a + c
  }

  /** Account and cluster tags appended after the habit tags leave the
      habit rules as they were. */
  lemma HabitRulesKept(s: Signals, h: seq<CRMTag>, a: seq<CRMTag>, c: seq<CRMTag>)
    requires HabitRules(s, h)
    requires forall t :: t in a ==> t in AccountLibrary(s.errors)
    requires forall t :: t in c ==> t.kind.AiCluster?
    ensures HabitRules(s, h + a + c)
  {
  }

  /** Habit tags before and cluster tags after the account tags leave the
      account rules as they were. */
  lemma AccountRulesKept(s: Signals, h: seq<CRMTag>, a: seq<CRMTag>, c: seq<CRMTag>)
    requires AccountRules(s, a)
    requires forall t :: t in h ==> t in HabitLibrary()
    requires forall t :: t in c ==> t.kind.AiCluster?
    ensures AccountRules(s, h + a + c)
  {
  }

  /** Every listed entry is the library tag of its kind; only the cluster
      entry is AI, and the hardware entry reports the given count. */
  lemma LibraryEntries(errors: nat)
    ensures forall t :: t in HabitLibrary() ==> t == Tag(t.kind) && !t.kind.HardwareIssue? && !t.kind.AiCluster?
    ensures forall t :: t in AccountLibrary(errors) ==>
              t == Tag(t.kind) && !t.kind.AiCluster? && (t.kind.HardwareIssue? ==> t.kind.errors == errors)
  {
  }

  /** The hardware tag carries the error count, and the user gets the AI
      cluster tag, with its label, exactly when a non-empty label exists. */
  lemma TagsCarryTheirValues(s: Signals, cluster: Option<string>)
    ensures forall t :: t in Tags(s, cluster) && t.kind.HardwareIssue? ==> t.kind.errors == s.errors
    ensures cluster.Some? && cluster.value != "" <==> exists t :: t in Tags(s, cluster) && t.kind.AiCluster?
    ensures forall t :: t in Tags(s, cluster) && t.kind.AiCluster? ==> t.kind == AiCluster(cluster.value) && cluster.value != ""
  {
    var h, a, c := HabitTags(s), AccountTags(s), ClusterTag(cluster);
    assert Tags(s, cluster) == h + a + c;
    assert |c| == 1 ==> c[0] in h + a + c;
    forall t: CRMTag | t in h + a + c
      ensures t.kind.HardwareIssue? ==> t.kind.errors == s.errors
      ensures t.kind.AiCluster? ==> t in c
    {
      LibraryEntries(s.errors);
      assert t in h || t in a || t in c;
    }
  }

  /** Every tag is an entry of the library, and exactly the cluster tag is
      flagged as AI-generated, in the AI category. */
  lemma TagsFromLibrary(s: Signals, cluster: Option<string>)
    ensures forall t :: t in Tags(s, cluster) ==> t == Tag(t.kind)
    ensures forall t :: t in Tags(s, cluster) ==> (t.isAiGenerated <==> t.category == AI) && (t.isAiGenerated <==> t.kind.AiCluster?)
  {
    var h, a, c := HabitTags(s), AccountTags(s), ClusterTag(cluster);
    assert Tags(s, cluster) == h + a + c;
    forall t: CRMTag | t in h + a + c
      ensures t == Tag(t.kind) && (t.isAiGenerated <==> t.category == AI) && (t.isAiGenerated <==> t.kind.AiCluster?)
    {
      LibraryEntries(s.errors);
      assert t in h || t in a || t in c;
      TagCategory(t.kind);
    }
  }

  /** Only the cluster entry of the library is AI-generated, and it alone
      is in the AI category. */
  lemma TagCategory(k: TagKind)
    ensures Tag(k).isAiGenerated <==> Tag(k).category == AI
    ensures Tag(k).isAiGenerated <==> k.AiCluster?
  {
  }

  /** No user is tagged both a morning and a night person, both hot and
      cold, or both VIP and big spender. */
  lemma ExclusiveTags(records: seq<IoTRecord>, clock: Generator.Clock, churnOf: ChurnModel, cluster: Option<string>)
    ensures var tags := Tags(SignalsOf(records, clock, churnOf), cluster);
            && !(Tag(MorningUser) in tags && Tag(NightUser) in tags)
            && !(Tag(HighTemp) in tags && Tag(LowTemp) in tags)
            && !(Tag(Vip) in tags && Tag(HighSpender) in tags)
  {
    var s := SignalsOf(records, clock, churnOf);
    assert s.morning as real + s.night as real <= s.total as real;
  }

  // ---------------------------------------------------------------------
  // Feedback and sentiment
  // ---------------------------------------------------------------------

  /** `t` occurs in `s` at position `i`, compared from the `j`-th
      character of `t` on. */
  predicate OccursAt(s: string, t: string, i: nat, j: nat)
    decreases |t| - j
  {
    j >= |t| || (i + j < |s| && s[i + j] == t[j] && OccursAt(s, t, i, j + 1))
  }

  /** `t` occurs in `s` at position `i` or later; from 0, this is
      `s.includes(t)`. */
  predicate OccursFrom(s: string, t: string, i: nat)
    decreases |s| - i
  {
    i + |t| <= |s| && (OccursAt(s, t, i, 0) || OccursFrom(s, t, i + 1))
  }

  /** `favoriteProduct.includes('Tea')`; 'N/A' does not. */
  predicate TeaFavorite(fav: Option<Beverage>)
  {
    fav.Some? && OccursFrom(BeverageName(fav.value), "Tea", 0)
  }

  /** Only the two teas named "... Tea" match; Earl Grey does not. */
  lemma TeaFavorites(b: Beverage)
    ensures TeaFavorite(Some(b)) <==> b == GreenTea || b == BlackTea
  {
    match b
    case GreenTea => assert OccursFrom("Green Tea", "Tea", 0);
    case BlackTea => assert OccursFrom("Black Tea", "Tea", 0);
    case EarlGrey => NoTea("Earl Grey", 0);
    case LatteMacchiato => NoTea("Latte Macchiato", 0);
    case Cappuccino => NoTea("Cappuccino", 0);
    case Espresso => NoTea("Espresso", 0);
    case Lungo => NoTea("Lungo", 0);
    case Ristretto => NoTea("Ristretto", 0);
  }

  /** A name without a capital T does not contain "Tea". */
  lemma {:induction false} NoTea(s: string, i: nat)
    requires 'T' !in s
    ensures !OccursFrom(s, "Tea", i)
    decreases |s| - i
  {
    if i + 3 <= |s| {
      assert s[i] in s;
      assert !OccursAt(s, "Tea", i, 0);
      NoTea(s, i + 1);
    }
  }

  /** The draws of the feedback simulation: the age of each ticket and the
      gate for the praise message. */
  datatype FeedbackDraws = FeedbackDraws(complaint: Unit, inquiry: Unit, suggestion: Unit, praiseGate: Unit, praise: Unit)

  /** `Date.now() - DayMs * days`. */
  function DaysBefore(now: int, days: real): real
  {
    now as real - DayMs as real * days
  }

  function Ticket(userId: string, suffix: string, date: real, kind: FeedbackType, status: TicketStatus): FeedbackRecord
  {
    FeedbackRecord("fb-" + userId + "-" + suffix, date, kind, status)
  }

  /** The open hardware complaint, one to three days old. */
  function ComplaintTicket(userId: string, now: int, d: FeedbackDraws): (f: FeedbackRecord)
    ensures DaysBefore(now, 3.0) < f.date <= DaysBefore(now, 1.0)
  {
    Ticket(userId, "err", DaysBefore(now, d.complaint * 2.0 + 1.0), Complaint, Open)
  }

  function InquiryTicket(userId: string, now: int, d: FeedbackDraws): FeedbackRecord
  {
    Ticket(userId, "vip", DaysBefore(now, d.inquiry * 10.0 + 5.0), Inquiry, Resolved)
  }

  function SuggestionTicket(userId: string, now: int, d: FeedbackDraws): FeedbackRecord
  {
    Ticket(userId, "tea", DaysBefore(now, d.suggestion * 20.0 + 2.0), Suggestion, Pending)
  }

  function PraiseTicket(userId: string, now: int, d: FeedbackDraws): FeedbackRecord
  {
    Ticket(userId, "praise", DaysBefore(now, d.praise * 5.0 + 1.0), Praise, Resolved)
  }

  /** The tickets in the order they are pushed. */
  function RawFeedback(userId: string, s: Signals, now: int, d: FeedbackDraws): (f: seq<FeedbackRecord>)
    ensures |f| <= 3
    ensures ComplaintTicket(userId, now, d) in f <==> s.errors > 0
    ensures InquiryTicket(userId, now, d) in f <==> s.ltv > 70.0
    ensures SuggestionTicket(userId, now, d) in f <==> TeaFavorite(s.favorite)
    ensures PraiseTicket(userId, now, d) in f <==> !TeaFavorite(s.favorite) && d.praiseGate > 0.8
    ensures forall i :: 0 <= i < |f| ==> f[i] in {ComplaintTicket(userId, now, d), InquiryTicket(userId, now, d),
                                                  SuggestionTicket(userId, now, d), PraiseTicket(userId, now, d)}
  {
    var c := if s.errors > 0 then [ComplaintTicket(userId, now, d)] else [];
    var v := if s.ltv > 70.0 then [InquiryTicket(userId, now, d)] else [];
    var t := if TeaFavorite(s.favorite) then [SuggestionTicket(userId, now, d)]
             else if d.praiseGate > 0.8 then [PraiseTicket(userId, now, d)]
             else [];
    var f := c + v + t;
    assert forall i :: 0 <= i < |f| ==> f[i] in c || f[i] in v || f[i] in t;
    f
  }

  /** Only the complaint is open. */
  lemma OnlyComplaintsOpen(userId: string, s: Signals, now: int, d: FeedbackDraws)
    ensures var f := Feedback(userId, s, now, d);
            forall i :: 0 <= i < |f| ==> (f[i].status == Open <==> f[i].kind == Complaint)
  {
    var f := Feedback(userId, s, now, d);
    forall i | 0 <= i < |f| ensures f[i].status == Open <==> f[i].kind == Complaint {
      assert f[i] in multiset(RawFeedback(userId, s, now, d));
    }
  }

  /** The comparator `(a, b) => b.date - a.date`. */
  function NewestTicketFirst(f: FeedbackRecord): real { -f.date }

  /** `feedbackHistory` after its newest-first sort. */
  function Feedback(userId: string, s: Signals, now: int, d: FeedbackDraws): (f: seq<FeedbackRecord>)
    ensures multiset(f) == multiset(RawFeedback(userId, s, now, d))
    ensures forall i, j :: 0 <= i < j < |f| ==> f[i].date >= f[j].date
  {
    var f := SortBy(RawFeedback(userId, s, now, d), NewestTicketFirst);
    assert forall i, j :: 0 <= i < j < |f| ==> NewestTicketFirst(f[i]) <= NewestTicketFirst(f[j]);
    f
  }

  /** The sentiment: the newest ticket decides if there is one, otherwise
      churn risk and then value. */
  function SentimentOf(feedback: seq<FeedbackRecord>, churn: Percent, ltv: real): (s: Sentiment)
    ensures |feedback| > 0 ==> (s == Negative <==> feedback[0].kind == Complaint) && (s == Positive <==> feedback[0].kind == Praise)
    ensures |feedback| == 0 ==> (s == Negative <==> churn > 70) && (s == Positive <==> churn <= 70 && ltv > 70.0)
  {
    if |feedback| > 0 then
      if feedback[0].kind == Complaint then Negative
      else if feedback[0].kind == Praise then Positive
      else Neutral
    else if churn > 70 then Negative
    else if ltv > 70.0 then Positive
    else Neutral
  }

  /** `lastFeedback.type`, `None` for '无': the kind of the first ticket of
      the history. */
  function LastRequest(feedback: seq<FeedbackRecord>): (r: Option<FeedbackType>)
    ensures r.None? <==> |feedback| == 0
    ensures r.Some? ==> r.value == feedback[0].kind
  {
    if |feedback| > 0 then Some(feedback[0].kind) else None
  }

  /** On the sorted history the last request is the kind of a newest
      ticket: no ticket pushed for the user is dated later. */
  lemma LastRequestIsNewest(userId: string, s: Signals, now: int, d: FeedbackDraws)
    ensures var raw := RawFeedback(userId, s, now, d);
            var r := LastRequest(Feedback(userId, s, now, d));
            && (r.None? <==> |raw| == 0)
            && (r.Some? ==> exists t :: t in raw && t.kind == r.value && forall i :: 0 <= i < |raw| ==> raw[i].date <= t.date)
  {
    var raw := RawFeedback(userId, s, now, d);
    var f := Feedback(userId, s, now, d);
    NewestHead(f, raw);
  }

  /** The head of a newest-first ordering of `raw` is one of its newest
      tickets. */
  lemma NewestHead(f: seq<FeedbackRecord>, raw: seq<FeedbackRecord>)
    requires multiset(f) == multiset(raw)
    requires forall i, j :: 0 <= i < j < |f| ==> f[i].date >= f[j].date
    ensures |f| == |raw|
    ensures |f| > 0 ==> f[0] in raw && forall i :: 0 <= i < |raw| ==> raw[i].date <= f[0].date
  {
    assert |f| == |raw| by {
      assert |multiset(f)| == |multiset(raw)|;
    }
    if |f| > 0 {
      assert f[0] in multiset(raw);
      forall i | 0 <= i < |raw| ensures raw[i].date <= f[0].date {
        assert raw[i] in multiset(f);
        var j :| 0 <= j < |f| && f[j] == raw[i];
      }
    }
  }

  function TicketStatusOf(f: FeedbackRecord): TicketStatus { f.status }

  /** `feedbackHistory.filter(f => f.status === 'open').length`: zero
      exactly when no ticket is open. */
  function OpenTickets(feedback: seq<FeedbackRecord>): (n: nat)
    ensures n <= |feedback|
    ensures n == 0 <==> forall i :: 0 <= i < |feedback| ==> feedback[i].status != Open
  {
    NoneOpen(feedback);
    |Select(feedback, TicketStatusOf, Open)|
  }

  lemma NoneOpen(feedback: seq<FeedbackRecord>)
    ensures |Select(feedback, TicketStatusOf, Open)| == 0 <==> forall i :: 0 <= i < |feedback| ==> feedback[i].status != Open
  {
    if forall i :: 0 <= i < |feedback| ==> feedback[i].status != Open {
      SelectEmpty(feedback, TicketStatusOf, Open);
    } else {
      var i :| 0 <= i < |feedback| && feedback[i].status == Open;
      assert Keys(feedback, TicketStatusOf)[i] == Open;
      SelectNonEmpty(feedback, TicketStatusOf, Open);
    }
  }

  /** A user with an error in the history has an open complaint ticket. */
  lemma ErrorsOpenTicket(userId: string, s: Signals, now: int, d: FeedbackDraws)
    requires s.errors > 0
    ensures OpenTickets(Feedback(userId, s, now, d)) > 0
  {
    var f := Feedback(userId, s, now, d);
    var c := ComplaintTicket(userId, now, d);
    assert c in multiset(f);
    OpenTicketCounted(f, c);
  }

  /** An open ticket in the history is counted. */
  lemma OpenTicketCounted(f: seq<FeedbackRecord>, c: FeedbackRecord)
    requires c in f && c.status == Open
    ensures OpenTickets(f) > 0
  {
    var j :| 0 <= j < |f| && f[j] == c;
  }

  // ---------------------------------------------------------------------
  // Action scores and the next best action
  // ---------------------------------------------------------------------

  datatype Scores = Scores(replenishment: int, maintenance: int, retention: int, upsell: int)

  /** The four weighted scores. Upsell is vetoed (-100) by critical stock,
      an open ticket or negative sentiment. */
  function ScoresOf(s: Signals, stock: StockLevel, sentiment: Sentiment, open: nat, last: Option<FeedbackType>): (r: Scores)
    ensures 0 <= r.replenishment <= 110 && (stock == Critical ==> r.replenishment >= 90)
    ensures stock != Critical && stock != StockLevel.Low ==> r.replenishment <= 20
    ensures 0 <= r.maintenance <= 215
    ensures open > 0 && s.errors > 0 ==> r.maintenance >= 145
    ensures 0 <= r.retention <= 140
    ensures r.upsell == -100 <==> stock == Critical || open > 0 || sentiment == Negative
    ensures r.upsell != -100 ==> 0 <= r.upsell <= 100
  {
    var rep := (if stock == Critical then 90 else if stock == StockLevel.Low then 60 else 0)
               + (if s.dailyBrews > 2.0 then 10 else 0)
               + (if s.frequency < 20 then 10 else 0);
    var mnt := (if open > 0 then 95 else 0)
               + (if s.errors > 0 then 50 else 0)
               + (if sentiment == Negative then 30 else 0)
               + (if last == Some(Complaint) then 40 else 0);
    var ret := (if s.churn > 80 then 90 else if s.churn > 50 then 60 else 0)
               + (if s.declining then 20 else 0)
               + (if sentiment == Negative then 20 else 0)
               + (if s.ltv > 60.0 then 10 else 0);
    var ups := if stock == Critical || open > 0 || sentiment == Negative then -100
               else (if s.ltv > 50.0 then 40 else 0)
                    + (if s.spend > 2000.0 then 20 else 0)
                    + (if sentiment == Positive then 30 else 0)
                    + (if s.frequency < 45 then 10 else 0);
    Scores(rep, mnt, ret, ups)
  }

  /** The score of an action; engagement has none and counts as 0. */
  function ScoreFor(s: Scores, a: ActionType): int
  {
    match a
    case Replenishment => s.replenishment
    case Maintenance => s.maintenance
    case Retention => s.retention
    case Upsell => s.upsell
    case Engagement => 0
  }

  /** `Object.entries(scores)` in key order: each of the four scored
      actions once, with its score. */
  function ScoreEntries(s: Scores): (r: seq<(ActionType, int)>)
    ensures |r| == 4
    ensures forall i :: 0 <= i < |r| ==> r[i].0 != Engagement && r[i].1 == ScoreFor(s, r[i].0)
    ensures forall i, j :: 0 <= i < j < |r| ==> r[i].0 != r[j].0
  {
    [(Replenishment, s.replenishment), (ActionType.Maintenance, s.maintenance), (Retention, s.retention), (Upsell, s.upsell)]
  }

  /** The comparator `(a, b) => b[1] - a[1]`. */
  function ScoreDesc(e: (ActionType, int)): real { -(e.1 as real) }

  /** The position of the winning entry: the highest score, the earliest
      among ties. */
  function WinnerIndex(s: Scores): (k: nat)
    ensures k < 4
    ensures forall i :: 0 <= i < 4 ==> ScoreEntries(s)[i].1 <= ScoreEntries(s)[k].1
    ensures forall i :: 0 <= i < k ==> ScoreEntries(s)[i].1 < ScoreEntries(s)[k].1
  {
    FirstMinIndex(ScoreEntries(s), ScoreDesc)
  }

  /** `Object.entries(scores).sort(...)[0]`. */
  function Winner(s: Scores): (w: (ActionType, int))
    ensures w == ScoreEntries(s)[WinnerIndex(s)]
    ensures w.0 != Engagement
  {
    var e := ScoreEntries(s);
    var h := SortHeadOf(e, ScoreDesc);
    assert h == e[WinnerIndex(s)];
    h
  }

  /** The stock levels that call for a refill. */
  predicate Urgent(it: InventoryItem)
  {
    it.status == Critical || it.status == StockLevel.Low
  }

  /** `items.findIndex(critical or low)`, `None` for -1. */
  function FirstUrgent(items: seq<InventoryItem>): (k: Option<nat>)
    ensures k.Some? ==> k.value < |items| && Urgent(items[k.value])
                        && forall j :: 0 <= j < k.value ==> !Urgent(items[j])
    ensures k.None? ==> forall i :: 0 <= i < |items| ==> !Urgent(items[i])
  {
    if |items| == 0 then None
    else if Urgent(items[0]) then Some(0)
    else
      var k := FirstUrgent(items[1..]);
      assert forall i :: 1 <= i < |items| ==> items[i] == items[1..][i - 1];
      if k.Some? then Some(k.value + 1) else None
  }

  /** `inventory.items.find(critical or low) || inventory.items[0]`: the
      first item that is critical or low, else the first item. */
  function RestockTarget(items: seq<InventoryItem>): (it: InventoryItem)
    requires |items| > 0
    ensures it in items
    ensures (exists i :: 0 <= i < |items| && Urgent(items[i])) ==>
              exists i :: 0 <= i < |items| && it == items[i] && Urgent(it) && forall j :: 0 <= j < i ==> !Urgent(items[j])
    ensures (forall i :: 0 <= i < |items| ==> !Urgent(items[i])) ==> it == items[0]
  {
    var k := FirstUrgent(items);
    if k.Some? then items[k.value] else items[0]
  }

  /** `rules.find(r => r.antecedent === favoriteProduct)?.consequent`: the
      consequent of the first rule for the favourite, if any. */
  function RuleFor(rules: seq<RecommendationRule>, fav: Option<Beverage>): (c: Option<Beverage>)
    ensures c.Some? ==> exists i :: 0 <= i < |rules| && Some(rules[i].antecedent) == fav && rules[i].consequent == c.value
                                    && forall j :: 0 <= j < i ==> Some(rules[j].antecedent) != fav
    ensures c.None? ==> forall i :: 0 <= i < |rules| ==> Some(rules[i].antecedent) != fav
  {
    if |rules| == 0 then None
    else if Some(rules[0].antecedent) == fav then Some(rules[0].consequent)
    else
      var c := RuleFor(rules[1..], fav);
      assert forall i :: 1 <= i < |rules| ==> rules[i] == rules[1..][i - 1];
      if c.Some? then RuleShift(rules, fav, c.value); c else c
  }

  /** A first match in the tail, behind a head that does not match, is the
      first match of the whole list. */
  lemma RuleShift(rules: seq<RecommendationRule>, fav: Option<Beverage>, b: Beverage)
    requires |rules| > 0 && Some(rules[0].antecedent) != fav
    requires exists i :: 0 <= i < |rules[1..]| && Some(rules[1..][i].antecedent) == fav && rules[1..][i].consequent == b
                         && forall j :: 0 <= j < i ==> Some(rules[1..][j].antecedent) != fav
    ensures exists i :: 0 <= i < |rules| && Some(rules[i].antecedent) == fav && rules[i].consequent == b
                        && forall j :: 0 <= j < i ==> Some(rules[j].antecedent) != fav
  {
    var i :| 0 <= i < |rules[1..]| && Some(rules[1..][i].antecedent) == fav && rules[1..][i].consequent == b
             && forall j :: 0 <= j < i ==> Some(rules[1..][j].antecedent) != fav;
    assert rules[i + 1] == rules[1..][i];
    forall j | 0 <= j < i + 1 ensures Some(rules[j].antecedent) != fav {
      if j > 0 { assert rules[j] == rules[1..][j - 1]; }
    }
  }

  /** The upsell offer: the consequent of the association rule for the
      favourite product when a trained recommendation model has one, the
      membership upgrade otherwise. */
  function UpsellOffer(models: Lifecycle.ModelRegistry, fav: Option<Beverage>): (o: Offer)
    ensures o.Recommend?
    ensures Recommendation in models && models[Recommendation].recommendations.Some? ==>
              o.product == RuleFor(models[Recommendation].recommendations.value, fav)
    ensures !(Recommendation in models && models[Recommendation].recommendations.Some?) ==> o.product.None?
  {
    if Recommendation in models && models[Recommendation].recommendations.Some? then
      Recommend(RuleFor(models[Recommendation].recommendations.value, fav))
    else Recommend(None)
  }

  /** The action for a winning score above 20, engagement otherwise; the
      winner is read by its index, which `Winner` shows is the head of the
      sorted entries. An
      empty inventory has no restock target; its overall status is High,
      so replenishment never wins (`ReplenishmentHasStock`). */
  function Decide(s: Scores, items: seq<InventoryItem>, upsell: Offer, evidence: seq<EvidenceMetric>): (a: NextBestAction)
    ensures a.evidence == evidence
    ensures a.actionType == Engagement <==> ScoreEntries(s)[WinnerIndex(s)].1 <= 20
    ensures a.actionType != Engagement ==> a.actionType == ScoreEntries(s)[WinnerIndex(s)].0
    ensures a.actionType == Engagement ==> a.confidenceScore == 92 && a.priority == Priority.Low && a.offer == NoOffer
    ensures a.actionType == Replenishment ==> a.confidenceScore == 97 && a.priority == Priority.High
    ensures a.actionType == Replenishment && |items| > 0 ==> a.offer == Restock(RestockTarget(items).sku)
    ensures a.actionType == ActionType.Maintenance ==> a.confidenceScore == 99 && a.priority == Priority.High && a.offer == NoOffer
    ensures a.actionType == Retention ==> a.confidenceScore == 89 && a.priority == Priority.High && a.offer == RetentionVoucher
    ensures a.actionType == Upsell ==> a.confidenceScore == 85 && a.priority == Priority.Medium && a.offer == upsell
  {
    var w := ScoreEntries(s)[WinnerIndex(s)];
    if w.1 <= 20 then NextBestAction(Engagement, 92, Priority.Low, NoOffer, evidence)
    else
      if w.0 == Replenishment then
        NextBestAction(Replenishment, 97, Priority.High, if |items| > 0 then Restock(RestockTarget(items).sku) else NoOffer, evidence)
      else if w.0 == ActionType.Maintenance then NextBestAction(ActionType.Maintenance, 99, Priority.High, NoOffer, evidence)
      else if w.0 == Retention then NextBestAction(Retention, 89, Priority.High, RetentionVoucher, evidence)
      else NextBestAction(Upsell, 85, Priority.Medium, upsell, evidence)
  }

  /** Replenishment wins only with a replenishment score above 20. */
  lemma ReplenishmentNeedsScore(s: Scores, items: seq<InventoryItem>, upsell: Offer, evidence: seq<EvidenceMetric>)
    ensures Decide(s, items, upsell, evidence).actionType == Replenishment ==> s.replenishment > 20
  {
    var w := ScoreEntries(s)[WinnerIndex(s)];
    assert w.1 == ScoreFor(s, w.0);
  }

  /** Scores built on the worst status of no items never make
      replenishment the action. */
  lemma EmptyStockNoRestock(s: Signals, sentiment: Sentiment, open: nat, last: Option<FeedbackType>,
                            items: seq<InventoryItem>, upsell: Offer, evidence: seq<EvidenceMetric>)
    ensures var a := Decide(ScoresOf(s, WorstOf(items), sentiment, open, last), items, upsell, evidence);
            a.actionType == Replenishment ==> |items| > 0
  {
    if |items| == 0 {
      assert WorstOf(items) == StockLevel.High;
      ReplenishmentNeedsScore(ScoresOf(s, WorstOf(items), sentiment, open, last), items, upsell, evidence);
    }
  }

  /** A profile whose next best action is replenishment has an inventory
      line to restock, so the restock target always exists. */
  lemma ReplenishmentHasStock(userId: string, records: seq<IoTRecord>, models: Lifecycle.ModelRegistry,
                              clock: Generator.Clock, churnOf: ChurnModel, d: ProfileDraws)
    ensures var p := GenerateUserProfile(userId, records, models, clock, churnOf, d);
            p.nextBestAction.actionType == Replenishment ==> |p.inventory.items| > 0
  {
    var p := GenerateUserProfile(userId, records, models, clock, churnOf, d);
    var s := SignalsOf(records, clock, churnOf);
    var last := LastRequest(p.feedbackHistory);
    EmptyStockNoRestock(s, p.currentSentiment, OpenTickets(p.feedbackHistory), last, p.inventory.items,
                        UpsellOffer(models, s.favorite), Evidence(s, p.inventory.overallStatus, p.currentSentiment, last));
  }

  /** A vetoed upsell never wins, and a maintenance score of 145 beats
      every other score can reach. */
  lemma VetoAndMaintenance(s: Scores, items: seq<InventoryItem>, upsell: Offer, evidence: seq<EvidenceMetric>)
    ensures s.upsell == -100 ==> Decide(s, items, upsell, evidence).actionType != Upsell
    ensures (s.maintenance >= 145 && s.replenishment <= 110 && s.retention <= 140 && s.upsell <= 100)
              ==> Decide(s, items, upsell, evidence).actionType == ActionType.Maintenance
  {
    var k := WinnerIndex(s);
    var e := ScoreEntries(s);
    assert e[1].1 <= e[k].1;
    if s.maintenance >= 145 && s.replenishment <= 110 && s.retention <= 140 && s.upsell <= 100 {
      assert k == 1;
    }
  }

  /** The eight evidence metrics, in the order the source lists them. */
  function EvidenceLabels(): seq<EvidenceLabel>
  {
    [LtvScoreLabel, TotalOrdersLabel, OrderFrequencyLabel, TotalSpendLabel, InventoryLabel, SentimentLabel, LastRequestLabel, ChurnLabel]
  }

  /** The eight evidence rows: value, orders, frequency, spend, stock,
      sentiment, last request and churn, with their trend arrows and
      colours. */
  function Evidence(s: Signals, stock: StockLevel, sentiment: Sentiment, last: Option<FeedbackType>): (e: seq<EvidenceMetric>)
    ensures |e| == 8
    ensures forall i :: 0 <= i < |e| ==> e[i].metric == EvidenceLabels()[i]
    ensures e[0].color == Green <==> s.ltv > 70.0
    ensures e[0].color == Slate <==> s.ltv <= 70.0
    ensures e[0].trend == Up <==> s.ltv > 60.0
    ensures e[0].trend == Stable <==> s.ltv <= 60.0
    ensures e[1].trend == Up && e[1].color == Blue
    ensures e[2].trend == Stable && e[2].color == Slate
    ensures e[3].trend == Up && e[3].color == Green
    ensures e[4].color == Red <==> stock == Critical
    ensures e[4].color == Green <==> stock != Critical
    ensures e[4].trend == Down <==> stock == Critical
    ensures e[4].trend == Stable <==> stock != Critical
    ensures e[5].trend == Stable
    ensures e[5].color == Red <==> sentiment == Negative
    ensures e[5].color == Green <==> sentiment == Positive
    ensures e[5].color == Slate <==> sentiment == Neutral
    ensures e[6].trend == Stable
    ensures e[6].color == Red <==> last == Some(Complaint)
    ensures e[6].color == Slate <==> last != Some(Complaint)
    ensures e[7].color == Red <==> s.churn > 50
    ensures e[7].color == Green <==> s.churn <= 50
    ensures e[7].trend == Up <==> s.churn > 50
    ensures e[7].trend == Stable <==> s.churn <= 50
    ensures forall i :: 0 <= i < 8 ==> e[i].color != Red ==> e[i].trend != Down
  {
    [
      EvidenceMetric(LtvScoreLabel, if s.ltv > 60.0 then Up else Stable, if s.ltv > 70.0 then Green else Slate),
      EvidenceMetric(TotalOrdersLabel, Up, Blue),
      EvidenceMetric(OrderFrequencyLabel, Stable, Slate),
      EvidenceMetric(TotalSpendLabel, Up, Green),
      EvidenceMetric(InventoryLabel, if stock == Critical then Down else Stable, if stock == Critical then Red else Green),
      EvidenceMetric(SentimentLabel, Stable, if sentiment == Positive then Green else if sentiment == Negative then Red else Slate),
      EvidenceMetric(LastRequestLabel, Stable, if last == Some(Complaint) then Red else Slate),
      EvidenceMetric(ChurnLabel, if s.churn > 50 then Up else Stable, if s.churn > 50 then Red else Green)
    ]
  }

  // ---------------------------------------------------------------------
  // The profile
  // ---------------------------------------------------------------------

  datatype ProfileDraws = ProfileDraws(feedback: FeedbackDraws, refill: nat -> Unit)

  /** The beverage entries, most brewed first (`sortedBevs`). */
  function Ranked(records: seq<IoTRecord>, hourOf: int -> Hour): (r: seq<(Beverage, nat)>)
    ensures forall i, j :: 0 <= i < j < |r| ==> r[i].1 >= r[j].1
  {
    var a := Aggregation.Fold(records, hourOf);
    var r := SortBy(Aggregation.Entries(a.bevOrder, a.bevCounts), Aggregation.CountDesc);
    assert forall i, j :: 0 <= i < j < |r| ==> Aggregation.CountDesc(r[i]) <= Aggregation.CountDesc(r[j]);
    r
  }

  /** The ranked entries tally the user's beverages: every beverage brewed
      appears once, with the number of records brewing it. */
  lemma RankedIsTally(records: seq<IoTRecord>, hourOf: int -> Hour)
    ensures var r := Ranked(records, hourOf);
            && (forall i :: 0 <= i < |r| ==> r[i].1 == |Select(records, BeverageOf, r[i].0)|)
            && (forall i, j :: 0 <= i < j < |r| ==> r[i].0 != r[j].0)
            && (forall k :: 0 <= k < |records| ==> exists i :: 0 <= i < |r| && r[i].0 == records[k].beverage)
  {
    var a := Aggregation.Fold(records, hourOf);
    Aggregation.FoldInvariant(records, hourOf);
    forall b ensures Get(a.bevCounts, b) == |Select(records, BeverageOf, b)| {
      Aggregation.FoldBeverageCount(records, hourOf, b);
    }
    TallyOfEntries(records, a.bevOrder, a.bevCounts, Ranked(records, hourOf));
  }

  /** A permutation of the entries of a beverage tally, listed in an order
      without repeats, is the tally of every beverage brewed. */
  lemma TallyOfEntries(records: seq<IoTRecord>, order: seq<Beverage>, counts: map<Beverage, nat>, r: seq<(Beverage, nat)>)
    requires Aggregation.NoDuplicates(order)
    requires forall b :: b in order <==> b in counts
    requires forall b :: Get(counts, b) == |Select(records, BeverageOf, b)|
    requires multiset(r) == multiset(Aggregation.Entries(order, counts))
    ensures forall i :: 0 <= i < |r| ==> r[i].1 == |Select(records, BeverageOf, r[i].0)|
    ensures forall i, j :: 0 <= i < j < |r| ==> r[i].0 != r[j].0
    ensures forall k :: 0 <= k < |records| ==> exists i :: 0 <= i < |r| && r[i].0 == records[k].beverage
  {
    var e := Aggregation.Entries(order, counts);
    assert forall i, j :: 0 <= i < j < |e| ==> e[i].0 != e[j].0;
    assert forall j :: 0 <= j < |e| ==> e[j].1 == |Select(records, BeverageOf, e[j].0)|;
    TallyOfPermutation(records, e, r);
    forall k | 0 <= k < |records| ensures exists i :: 0 <= i < |r| && r[i].0 == records[k].beverage {
      EntryPresent(records, order, counts, r, k);
    }
  }

  /** The beverage of every record has an entry in the tally. */
  lemma EntryPresent(records: seq<IoTRecord>, order: seq<Beverage>, counts: map<Beverage, nat>, r: seq<(Beverage, nat)>, k: nat)
    requires k < |records|
    requires forall b :: b in order <==> b in counts
    requires forall b :: Get(counts, b) == |Select(records, BeverageOf, b)|
    requires multiset(r) == multiset(Aggregation.Entries(order, counts))
    ensures exists i :: 0 <= i < |r| && r[i].0 == records[k].beverage
  {
    var b := records[k].beverage;
    assert Keys(records, BeverageOf)[k] == b;
    SelectNonEmpty(records, BeverageOf, b);
    assert Get(counts, b) > 0;
    assert b in order;
    var j :| 0 <= j < |order| && order[j] == b;
    var e := Aggregation.Entries(order, counts);
    assert e[j] in multiset(r);
    var i :| 0 <= i < |r| && r[i] == e[j];
  }

  /** A permutation of distinct entries, each carrying its beverage's
      count, is again distinct and carries the counts. */
  lemma TallyOfPermutation(records: seq<IoTRecord>, e: seq<(Beverage, nat)>, r: seq<(Beverage, nat)>)
    requires multiset(r) == multiset(e)
    requires forall i, j :: 0 <= i < j < |e| ==> e[i].0 != e[j].0
    requires forall j :: 0 <= j < |e| ==> e[j].1 == |Select(records, BeverageOf, e[j].0)|
    ensures forall i :: 0 <= i < |r| ==> r[i].1 == |Select(records, BeverageOf, r[i].0)|
    ensures forall i, j :: 0 <= i < j < |r| ==> r[i].0 != r[j].0
  {
    forall i | 0 <= i < |r| ensures r[i].1 == |Select(records, BeverageOf, r[i].0)| {
      assert r[i] in multiset(e);
    }
    PermutationKeepsDistinct(e, r);
  }

  /** A permutation of a sequence without repeated elements has none. */
  lemma PermutationKeepsDistinct<T>(e: seq<T>, r: seq<T>)
    requires multiset(r) == multiset(e)
    requires forall i, j :: 0 <= i < j < |e| ==> e[i] != e[j]
    ensures forall i, j :: 0 <= i < j < |r| ==> r[i] != r[j]
  {
    AtMostOnce(e);
    forall i, j | 0 <= i < j < |r| ensures r[i] != r[j] {
      TwiceCounted(r, i, j);
    }
  }

  /** Two equal elements at different positions count twice. */
  lemma TwiceCounted<T>(r: seq<T>, i: nat, j: nat)
    requires i < j < |r|
    ensures r[i] == r[j] ==> multiset(r)[r[j]] >= 2
  {
    assert r == r[..j] + [r[j]] + r[j + 1..];
    assert r[..j][i] == r[i];
    assert multiset(r[..j])[r[i]] >= 1;
  }

  /** Without repeated elements every multiplicity is at most one. */
  lemma {:induction false} AtMostOnce<T>(e: seq<T>)
    requires forall i, j :: 0 <= i < j < |e| ==> e[i] != e[j]
    ensures forall x :: multiset(e)[x] <= 1
  {
    if |e| > 0 {
      var n := |e| - 1;
      AtMostOnce(e[..n]);
      assert e == e[..n] + [e[n]];
      assert e[n] !in e[..n];
    }
  }

  /** The inventory of a user: one line for each of the (at most) three
      first ranked beverages, the overall status the worst of theirs. */
  function InventoryOf(userId: string, records: seq<IoTRecord>, clock: Generator.Clock, refill: nat -> Unit): (inv: InventoryStatus)
    ensures var r := Ranked(records, clock.hourOf);
            && |inv.items| == (if |r| < 3 then |r| else 3)
            && forall i :: 0 <= i < |inv.items| ==> inv.items[i].sku == r[i].0
    ensures var r := Ranked(records, clock.hourOf);
            forall i :: 0 <= i < |inv.items| ==>
              inv.items[i] == Item(r[i].0, r[i].1, DaysActive(records, clock.dayOf),
                                   ConsumedSince(records, r[i].0, LastOrderDate(userId, clock.now)), refill(i))
    ensures inv.overallStatus == WorstOf(inv.items)
    ensures inv.lastOrderDate == LastOrderDate(userId, clock.now)
  {
    Inventory(records, Ranked(records, clock.hourOf), DaysActive(records, clock.dayOf), LastOrderDate(userId, clock.now), refill)
  }

  /** A beverage outside the first `n` ranked entries is brewed no more
      often than any of them. */
  lemma RankedLeaders(records: seq<IoTRecord>, hourOf: int -> Hour, n: nat, b: Beverage)
    requires n <= |Ranked(records, hourOf)|
    requires forall j :: 0 <= j < n ==> Ranked(records, hourOf)[j].0 != b
    ensures forall i :: 0 <= i < n ==>
              |Select(records, BeverageOf, b)| <= |Select(records, BeverageOf, Ranked(records, hourOf)[i].0)|
  {
    RankedIsTally(records, hourOf);
    LeadersOfTally(records, Ranked(records, hourOf), n, b);
  }

  /** The head of a sorted tally holds the most brewed beverages. */
  lemma LeadersOfTally(records: seq<IoTRecord>, r: seq<(Beverage, nat)>, n: nat, b: Beverage)
    requires forall i, j :: 0 <= i < j < |r| ==> r[i].1 >= r[j].1
    requires forall i :: 0 <= i < |r| ==> r[i].1 == |Select(records, BeverageOf, r[i].0)|
    requires forall k :: 0 <= k < |records| ==> exists i :: 0 <= i < |r| && r[i].0 == records[k].beverage
    requires n <= |r|
    requires forall j :: 0 <= j < n ==> r[j].0 != b
    ensures forall i :: 0 <= i < n ==> |Select(records, BeverageOf, b)| <= |Select(records, BeverageOf, r[i].0)|
  {
    if b in Keys(records, BeverageOf) {
      var k :| 0 <= k < |records| && Keys(records, BeverageOf)[k] == b;
      var m :| 0 <= m < |r| && r[m].0 == b;
      assert m >= n;
    } else {
      forall i | 0 <= i < |records| ensures BeverageOf(records[i]) != b {
        assert Keys(records, BeverageOf)[i] == BeverageOf(records[i]);
      }
      SelectEmpty(records, BeverageOf, b);
    }
  }


  /** `generateUserProfile(userId, records, trainedModels)` without the
      mock name, e-mail, phone, avatar and narrative texts. */
  function GenerateUserProfile(userId: string, records: seq<IoTRecord>, models: Lifecycle.ModelRegistry,
                               clock: Generator.Clock, churnOf: ChurnModel, d: ProfileDraws): (p: CustomerProfile)
    ensures p.userId == userId && p.totalBrews == |records|
    ensures var ltv := LifetimeValue(|records|, DailyBrews(records, clock.dayOf));
            && p.ltvScore == Round(ltv) && p.loyaltyTier == Tier(ltv)
    ensures 0 <= p.ltvScore <= 100
    ensures p.churnProbability == SignalsOf(records, clock, churnOf).churn
    ensures p.favoriteProduct == Aggregation.AggregateStats(records, clock.hourOf).topBeverage
    ensures |p.nextBestAction.evidence| == 8
    ensures |p.feedbackHistory| <= 3
    ensures p.lastActive == LastActive(records, clock.now) && p.joinDate == JoinDate(records, clock.now)
    ensures p.averageDailyBrews == RoundTenth(DailyBrews(records, clock.dayOf))
    ensures p.financials == FinancialsOf(|records|, DaysActive(records, clock.dayOf))
    ensures p.inventory == InventoryOf(userId, records, clock, d.refill)
    ensures var s := SignalsOf(records, clock, churnOf);
            && p.tags == Tags(s, ClusterLabel(models, s))
            && p.feedbackHistory == Feedback(userId, s, clock.now, d.feedback)
            && p.currentSentiment == SentimentOf(p.feedbackHistory, s.churn, s.ltv)
    ensures var s := SignalsOf(records, clock, churnOf);
            var last := LastRequest(p.feedbackHistory);
            var stock := p.inventory.overallStatus;
            p.nextBestAction == Decide(ScoresOf(s, stock, p.currentSentiment, OpenTickets(p.feedbackHistory), last),
                                       p.inventory.items, UpsellOffer(models, s.favorite),
                                       Evidence(s, stock, p.currentSentiment, last))
  {
    var s := SignalsOf(records, clock, churnOf);
    var inv := InventoryOf(userId, records, clock, d.refill);
    var tags := Tags(s, ClusterLabel(models, s));
    var feedback := Feedback(userId, s, clock.now, d.feedback);
    assert |feedback| == |RawFeedback(userId, s, clock.now, d.feedback)|;
    var sentiment := SentimentOf(feedback, s.churn, s.ltv);
    var last := LastRequest(feedback);
    var scores := ScoresOf(s, inv.overallStatus, sentiment, OpenTickets(feedback), last);
    var action := Decide(scores, inv.items, UpsellOffer(models, s.favorite), Evidence(s, inv.overallStatus, sentiment, last));
    assert 0.0 <= s.ltv by {
      assert s.dailyBrews >= 0.0;
    }
    CustomerProfile(
      userId,
      JoinDate(records, clock.now),
      Round(s.ltv),
      s.churn,
      Tier(s.ltv),
      tags,
      action,
      LastActive(records, clock.now),
      s.total,
      s.favorite,
      RoundTenth(s.dailyBrews),
      feedback,
      inv,
      FinancialsOf(s.total, DaysActive(records, clock.dayOf)),
      sentiment)
  }

  /** A hardware error anywhere in the history makes maintenance the next
      best action: the open complaint and the error add up to 145, which
      no other score reaches. */
  lemma ErrorsMeanMaintenance(userId: string, records: seq<IoTRecord>, models: Lifecycle.ModelRegistry,
                              clock: Generator.Clock, churnOf: ChurnModel, d: ProfileDraws)
    requires exists i :: 0 <= i < |records| && HasError(records[i])
    ensures GenerateUserProfile(userId, records, models, clock, churnOf, d).nextBestAction.actionType == ActionType.Maintenance
  {
    var s := SignalsOf(records, clock, churnOf);
    Aggregation.ErrorCountPositive(records, clock.hourOf);
    ErrorsOpenTicket(userId, s, clock.now, d.feedback);
    var inv := InventoryOf(userId, records, clock, d.refill);
    var feedback := Feedback(userId, s, clock.now, d.feedback);
    var sentiment := SentimentOf(feedback, s.churn, s.ltv);
    var last := LastRequest(feedback);
    var scores := ScoresOf(s, inv.overallStatus, sentiment, OpenTickets(feedback), last);
    VetoAndMaintenance(scores, inv.items, UpsellOffer(models, s.favorite), Evidence(s, inv.overallStatus, sentiment, last));
  }

  // ---------------------------------------------------------------------
  // getCRMProfiles
  // ---------------------------------------------------------------------

  /** The per-user draws and churn inputs come from the caller. Every
      distinct user id, in order of first appearance, gets the profile
      generated from exactly that user's records. */
  function GetCRMProfiles(data: seq<IoTRecord>, models: Lifecycle.ModelRegistry, clock: Generator.Clock,
                          churnOf: ChurnModel, draws: string -> ProfileDraws): (ps: seq<CustomerProfile>)
    ensures |ps| == |Distinct(Keys(data, UserOf))|
    ensures forall i :: 0 <= i < |ps| ==>
              var u := Distinct(Keys(data, UserOf))[i];
              ps[i] == GenerateUserProfile(u, Select(data, UserOf, u), models, clock, churnOf, draws(u))
  {
    var users := Distinct(Keys(data, UserOf));
    ProfilesOf(data, users, (u: string, records: seq<IoTRecord>) => GenerateUserProfile(u, records, models, clock, churnOf, draws(u)))
  }

  /** `Array.from(userGroups.entries()).map(...)`: the generator applied to
      each listed user and that user's group of records, in list order. */
  function ProfilesOf(data: seq<IoTRecord>, users: seq<string>, generate: (string, seq<IoTRecord>) -> CustomerProfile): (ps: seq<CustomerProfile>)
    ensures |ps| == |users|
    ensures forall i :: 0 <= i < |users| ==> ps[i] == generate(users[i], Select(data, UserOf, users[i]))
  {
    if |users| == 0 then []
    else
      var n := |users| - 1;
      var front := ProfilesOf(data, users[..n], generate);
      assert forall i :: 0 <= i < n ==> users[..n][i] == users[i];
      front + [generate(users[n], Select(data, UserOf, users[n]))]
  }

  /** One profile per user: the profiles list the distinct user ids in
      order of first appearance, none twice, each with the number of that
      user's records, which is never zero. */
  lemma ProfilesPerUser(data: seq<IoTRecord>, models: Lifecycle.ModelRegistry, clock: Generator.Clock,
                        churnOf: ChurnModel, draws: string -> ProfileDraws)
    ensures var ps := GetCRMProfiles(data, models, clock, churnOf, draws);
            && |ps| <= |data|
            && (forall i :: 0 <= i < |ps| ==> ps[i].userId == Distinct(Keys(data, UserOf))[i])
            && (forall i, j :: 0 <= i < j < |ps| ==> ps[i].userId != ps[j].userId)
            && (forall i :: 0 <= i < |ps| ==> ps[i].totalBrews == |Select(data, UserOf, ps[i].userId)| > 0)
  {
    var ps := GetCRMProfiles(data, models, clock, churnOf, draws);
    var users := Distinct(Keys(data, UserOf));
    forall i | 0 <= i < |ps|
      ensures ps[i].userId == users[i] && ps[i].totalBrews == |Select(data, UserOf, users[i])| > 0
    {
      SelectNonEmpty(data, UserOf, users[i]);
    }
  }

  /** Every record is counted in exactly one profile: the brews of all
      profiles add up to the number of records. */
  lemma ProfilesCoverRecords(data: seq<IoTRecord>, models: Lifecycle.ModelRegistry, clock: Generator.Clock,
                             churnOf: ChurnModel, draws: string -> ProfileDraws)
    ensures TotalBrews(GetCRMProfiles(data, models, clock, churnOf, draws)) == |data|
  {
    var ps := GetCRMProfiles(data, models, clock, churnOf, draws);
    var users := Distinct(Keys(data, UserOf));
    ProfilesPerUser(data, models, clock, churnOf, draws);
    BrewsAreGroupSizes(data, users, ps);
    GroupsPartition(data, UserOf);
  }

  function TotalBrews(ps: seq<CustomerProfile>): nat
  {
    if |ps| == 0 then 0 else TotalBrews(ps[..|ps| - 1]) + ps[|ps| - 1].totalBrews
  }

  lemma {:induction false} BrewsAreGroupSizes(data: seq<IoTRecord>, users: seq<string>, ps: seq<CustomerProfile>)
    requires |ps| == |users|
    requires forall i :: 0 <= i < |ps| ==> ps[i].totalBrews == |Select(data, UserOf, users[i])|
    ensures TotalBrews(ps) == GroupSizes(data, UserOf, users)
  {
    if |ps| > 0 {
      var n := |ps| - 1;
      BrewsAreGroupSizes(data, users[..n], ps[..n]);
    }
  }
}
