/**
 * The health-report rule engine (health_rules.py): safe numeric coercion,
 * account-wide aggregation, per-record threshold rules and the summary.
 */
module HealthRules {
  import opened Wrappers
  import opened Rounding
  import opened Models

  // ---------------------------------------------------------------------------
  // Raw campaign-day records
  // ---------------------------------------------------------------------------

  /**
   * A decimal field as it arrives from the insights provider: a value that
   * `float()` accepts (with the number it parses to), a missing key, or a value
   * on which `float()` raises.
   */
  datatype Raw = Num(x: real) | Absent | Bad

  /** One conversion-action entry; `actionType` is `None` when the key is missing. */
  datatype Action = Action(actionType: Option<string>, value: Raw)

  /**
   * One campaign-day record. A missing id or name is `None`; `actions` is
   * `None` when the key is missing or null. Impressions and clicks are taken
   * as already-valid integers.
   */
  datatype Row = Row(
    campaignId: Option<string>,
    campaignName: Option<string>,
    spend: Raw,
    impressions: int,
    clicks: int,
    frequency: Raw,
    actions: Option<seq<Action>>)

  /** `_safe_float`: the parsed number, and 0.0 for a missing key or a failed conversion. */
  function SafeFloat(v: Raw): (r: real)
    ensures v.Num? ==> r == v.x
    ensures !v.Num? ==> r == 0.0
  {
    match v
    case Num(x) => x
    case Absent => 0.0
    case Bad => 0.0
  }

  /** `num / den if den else 0.0`: a quotient guarded against a zero denominator. */
  function Ratio(num: real, den: real): (q: real)
    ensures den == 0.0 ==> q == 0.0
  {
    if den != 0.0 then num / den else 0.0
  }

  /** Away from a zero denominator the guarded quotient is the true quotient. */
  lemma RatioTimesDenominator(num: real, den: real)
    ensures den != 0.0 ==> Ratio(num, den) * den == num
  {
  }

  // ---------------------------------------------------------------------------
  // Stats aggregator (aggregate_account_stats)
  // ---------------------------------------------------------------------------

  const ConversionTypes: set<string> := {"purchase", "lead", "complete_registration"}

  predicate IsConversion(a: Action)
  {
    a.actionType.Some? && a.actionType.value in ConversionTypes
  }

  /** `r.get("actions") or []` */
  function ActionsOf(r: Row): seq<Action>
  {
    r.actions.GetOr([])
  }

  /** What one action adds to the results total. */
  function ActionResult(a: Action): real
  {
    if IsConversion(a) then SafeFloat(a.value) else 0.0
  }

  /** Results of a list of actions, accumulated left to right. */
  function ActionsResults(acts: seq<Action>): real
  {
    if acts == [] then 0.0
    else ActionsResults(acts[..|acts| - 1]) + ActionResult(acts[|acts| - 1])
  }

  /** Results over every record's actions, accumulated left to right. */
  function ResultsSum(rows: seq<Row>): real
  {
    if rows == [] then 0.0
    else ResultsSum(rows[..|rows| - 1]) + ActionsResults(ActionsOf(rows[|rows| - 1]))
  }

  function SpendSum(rows: seq<Row>): real
  {
    if rows == [] then 0.0
    else SpendSum(rows[..|rows| - 1]) + SafeFloat(rows[|rows| - 1].spend)
  }

  function ImpressionsSum(rows: seq<Row>): int
  {
    if rows == [] then 0
    else ImpressionsSum(rows[..|rows| - 1]) + rows[|rows| - 1].impressions
  }

  function ClicksSum(rows: seq<Row>): int
  {
    if rows == [] then 0
    else ClicksSum(rows[..|rows| - 1]) + rows[|rows| - 1].clicks
  }

  /** The account totals that aggregate_account_stats returns for `rows`. */
  function AccountStatsOf(rows: seq<Row>): AccountStats
  {
    var spend := SpendSum(rows);
    var impressions := ImpressionsSum(rows);
    var clicks := ClicksSum(rows);
    var ctr := Ratio(clicks as real, impressions as real);
    var cpc := Ratio(spend, clicks as real);
    var results := ResultsSum(rows);
    var cpr := Ratio(spend, results);
    AccountStats(
      Round(spend, 2),
      impressions,
      clicks,
      ctr,
      if cpc != 0.0 then Round(cpc, 4) else 0.0,
      if results != 0.0 then Some(results) else None,
      if cpr != 0.0 then Some(Round(cpr, 2)) else None)
  }

  /**
   * aggregate_account_stats: the totals are sums over the records, and the
   * conversion results are accumulated by a nested loop over every record's actions.
   */
  method AggregateAccountStats(rows: seq<Row>) returns (stats: AccountStats)
    ensures stats == AccountStatsOf(rows)
  {
    var totalSpend := SpendSum(rows);
    var totalImpressions := ImpressionsSum(rows);
    var totalClicks := ClicksSum(rows);

    var ctr := if totalImpressions != 0 then totalClicks as real / totalImpressions as real else 0.0;
    var cpc := if totalClicks != 0 then totalSpend / totalClicks as real else 0.0;

    var totalResults := 0.0;
    for i := 0 to |rows|
      invariant totalResults == ResultsSum(rows[..i])
    {
      var actions := ActionsOf(rows[i]);
      for j := 0 to |actions|
        invariant totalResults == ResultsSum(rows[..i]) + ActionsResults(actions[..j])
      {
        if IsConversion(actions[j]) {
          totalResults := totalResults + SafeFloat(actions[j].value);
        }
        assert actions[..j + 1][..j] == actions[..j];
      }
      assert actions[..|actions|] == actions;
      assert rows[..i + 1][..i] == rows[..i];
    }
    assert rows[..|rows|] == rows;

    var cpr := if totalResults != 0.0 then totalSpend / totalResults else 0.0;

    stats := AccountStats(
      Round(totalSpend, 2),
      totalImpressions,
      totalClicks,
      ctr,
      if cpc != 0.0 then Round(cpc, 4) else 0.0,
      if totalResults != 0.0 then Some(totalResults) else None,
      if cpr != 0.0 then Some(Round(cpr, 2)) else None);
  }

  /** The totals are the sums over the records; spend is rounded to cents. */
  lemma AggregateTotals(rows: seq<Row>)
    ensures AccountStatsOf(rows).spend == Round(SpendSum(rows), 2)
    ensures AccountStatsOf(rows).impressions == ImpressionsSum(rows)
    ensures AccountStatsOf(rows).clicks == ClicksSum(rows)
  {
  }

  /**
   * ctr and cpc are guarded against zero denominators: ctr is clicks per
   * impression, cpc is spend per click rounded to 4 places.
   */
  lemma AggregateRates(rows: seq<Row>)
    ensures var s := AccountStatsOf(rows);
      && (s.impressions == 0 ==> s.ctr == 0.0)
      && (s.impressions != 0 ==> s.ctr * s.impressions as real == s.clicks as real)
      && (s.clicks == 0 ==> s.cpc == 0.0)
      && (s.clicks != 0 ==> s.cpc == Round(SpendSum(rows) / s.clicks as real, 4))
  {
    RoundExact(0.0, 4);
    RatioTimesDenominator(ClicksSum(rows) as real, ImpressionsSum(rows) as real);
  }

  /**
   * results is present exactly when the conversion sum is non-zero, and is
   * then that sum; cpr is absent exactly when results or spend is zero.
   */
  lemma AggregateResults(rows: seq<Row>)
    ensures var s := AccountStatsOf(rows);
      && (s.results.Some? <==> ResultsSum(rows) != 0.0)
      && (s.results.Some? ==> s.results.value == ResultsSum(rows))
      && (s.cpr.None? <==> ResultsSum(rows) == 0.0 || SpendSum(rows) == 0.0)
      && (s.cpr.Some? ==> s.cpr.value == Round(SpendSum(rows) / ResultsSum(rows), 2))
  {
  }

  /** No records: every total is zero and neither results nor cpr is present. */
  lemma AggregateEmpty()
    ensures AccountStatsOf([]) == AccountStats(0.0, 0, 0, 0.0, 0.0, None, None)
  {
  }

  /** Every total is additive over a split of the record list. */
  lemma {:induction false} TotalsAppend(a: seq<Row>, b: seq<Row>)
    ensures SpendSum(a + b) == SpendSum(a) + SpendSum(b)
    ensures ImpressionsSum(a + b) == ImpressionsSum(a) + ImpressionsSum(b)
    ensures ClicksSum(a + b) == ClicksSum(a) + ClicksSum(b)
    ensures ResultsSum(a + b) == ResultsSum(a) + ResultsSum(b)
  {
    if b == [] {
      assert a + b == a;
    } else {
      var front := b[..|b| - 1];
      TotalsAppend(a, front);
      assert (a + b)[..|a + b| - 1] == a + front;
      assert (a + b)[|a + b| - 1] == b[|b| - 1];
    }
  }

  /** The conversion actions of `acts`, in order. */
  function ConversionsOnly(acts: seq<Action>): (c: seq<Action>)
    ensures forall k :: 0 <= k < |c| ==> IsConversion(c[k])
    ensures forall a :: a in c <==> a in acts && IsConversion(a)
  {
    if acts == [] then []
    else
      var front := acts[..|acts| - 1];
      assert acts == front + [acts[|acts| - 1]];
      var kept := ConversionsOnly(front);
      if IsConversion(acts[|acts| - 1]) then kept + [acts[|acts| - 1]] else kept
  }

  /** Filtering keeps the order: the conversions of `a + b` are those of `a`, then those of `b`. */
  lemma {:induction false} ConversionsOnlyAppend(a: seq<Action>, b: seq<Action>)
    ensures ConversionsOnly(a + b) == ConversionsOnly(a) + ConversionsOnly(b)
  {
    if b == [] {
      assert a + b == a;
    } else {
      var front := b[..|b| - 1];
      ConversionsOnlyAppend(a, front);
      assert (a + b)[..|a + b| - 1] == a + front;
      assert (a + b)[|a + b| - 1] == b[|b| - 1];
    }
  }

  /** Actions of other types contribute nothing: only the conversion actions count. */
  lemma {:induction false} NonConversionsIgnored(acts: seq<Action>)
    ensures ActionsResults(acts) == ActionsResults(ConversionsOnly(acts))
  {
    if acts != [] {
      var front := acts[..|acts| - 1];
      NonConversionsIgnored(front);
      var c := ConversionsOnly(front);
      if IsConversion(acts[|acts| - 1]) {
        assert (c + [acts[|acts| - 1]])[..|c|] == c;
      }
    }
  }

  /** When no record has a conversion action, results and cpr are both absent. */
  lemma {:induction false} NoConversionsNoResults(rows: seq<Row>)
    requires forall i, j :: 0 <= i < |rows| && 0 <= j < |ActionsOf(rows[i])| ==> !IsConversion(ActionsOf(rows[i])[j])
    ensures ResultsSum(rows) == 0.0
    ensures AccountStatsOf(rows).results == None && AccountStatsOf(rows).cpr == None
  {
    if rows != [] {
      var front := rows[..|rows| - 1];
      assert forall i :: 0 <= i < |front| ==> front[i] == rows[i];
      NoConversionsNoResults(front);
      NoConversionsInActions(ActionsOf(rows[|rows| - 1]));
    }
  }

  lemma {:induction false} NoConversionsInActions(acts: seq<Action>)
    requires forall j :: 0 <= j < |acts| ==> !IsConversion(acts[j])
    ensures ActionsResults(acts) == 0.0
  {
    if acts != [] {
      NoConversionsInActions(acts[..|acts| - 1]);
    }
  }

  // ---------------------------------------------------------------------------
  // Issue detector (detect_issues)
  // ---------------------------------------------------------------------------

  const MinCtr: real := 0.01
  const MaxCpc: real := 1.5
  const MaxFrequency: real := 5.0
  const MinSpendToJudge: real := 20.0

  const High: string := "high"
  const Medium: string := "medium"

  const CtrMetric: string := "CTR (%)"
  const CpcMetric: string := "CPC"
  const FrequencyMetric: string := "Frequency"

  const CtrReason: string := "CTR is lower than the normal range."
  const CtrSuggestion: string := "Update primary text and test new visuals."
  const CpcReason: string := "Cost per click is high."
  const CpcSuggestion: string := "Try broader audiences or cheaper placements."
  const FrequencyReason: string := "Ad is being shown too many times."
  const FrequencySuggestion: string := "Rotate new creatives or reduce budget."

  /** `r.get("campaign_id", "")` */
  function CampaignId(r: Row): string
  {
    r.campaignId.GetOr("")
  }

  /** `r.get("campaign_name", "Unnamed campaign")` */
  function CampaignName(r: Row): string
  {
    r.campaignName.GetOr("Unnamed campaign")
  }

  /** The record's own click-through rate, as a fraction. */
  function RowCtr(r: Row): real
  {
    Ratio(r.clicks as real, r.impressions as real)
  }

  /** The record's own cost per click. */
  function RowCpc(r: Row): real
  {
    Ratio(SafeFloat(r.spend), r.clicks as real)
  }

  /** The spend gate: only records spending at least MinSpendToJudge are judged. */
  predicate Judged(r: Row)
  {
    !(SafeFloat(r.spend) < MinSpendToJudge)
  }

  function CtrIssue(r: Row): Issue
  {
    Issue(High, CampaignId(r), CampaignName(r), CtrMetric,
          Round(RowCtr(r) * 100.0, 2), Some(MinCtr * 100.0), CtrReason, CtrSuggestion)
  }

  function CpcIssue(r: Row): Issue
  {
    Issue(Medium, CampaignId(r), CampaignName(r), CpcMetric,
          Round(RowCpc(r), 4), Some(MaxCpc), CpcReason, CpcSuggestion)
  }

  function FrequencyIssue(r: Row): Issue
  {
    Issue(Medium, CampaignId(r), CampaignName(r), FrequencyMetric,
          Round(SafeFloat(r.frequency), 2), Some(MaxFrequency), FrequencyReason, FrequencySuggestion)
  }

  /** Position of a metric's rule in the fixed evaluation order. */
  function RuleRank(metric: string): nat
  {
    if metric == CtrMetric then 0 else if metric == CpcMetric then 1 else 2
  }

  /**
   * The issues one record contributes: none below the spend gate; otherwise each
   * rule whose threshold is crossed, in the order CTR, CPC, Frequency.
   */
  function RowIssues(r: Row): seq<Issue>
  {
    if !Judged(r) then []
    else
      (if RowCtr(r) < MinCtr then [CtrIssue(r)] else [])
      + (if RowCpc(r) > MaxCpc then [CpcIssue(r)] else [])
      + (if SafeFloat(r.frequency) > MaxFrequency then [FrequencyIssue(r)] else [])
  }

  /**
   * Each rule fires exactly when the record passes the spend gate and crosses
   * that rule's threshold; a record yields at most one issue per rule, in the
   * order CTR, CPC, Frequency.
   */
  lemma RowIssuesRules(r: Row)
    ensures var issues := RowIssues(r);
      && (!Judged(r) ==> issues == [])
      && (CtrIssue(r) in issues <==> Judged(r) && RowCtr(r) < MinCtr)
      && (CpcIssue(r) in issues <==> Judged(r) && RowCpc(r) > MaxCpc)
      && (FrequencyIssue(r) in issues <==> Judged(r) && SafeFloat(r.frequency) > MaxFrequency)
      && (forall k :: 0 <= k < |issues| ==> issues[k] in [CtrIssue(r), CpcIssue(r), FrequencyIssue(r)])
      && (forall k, l :: 0 <= k < l < |issues| ==> RuleRank(issues[k].metric) < RuleRank(issues[l].metric))
      && |issues| <= 3
  {
  }

  /** The issues detect_issues reports: each record's issues, in record order. */
  function IssuesOf(rows: seq<Row>): seq<Issue>
  {
    FlatMap(rows, RowIssues)
  }

  function FlatMap<T, U>(xs: seq<T>, f: T -> seq<U>): seq<U>
  {
    if xs == [] then []
    else FlatMap(xs[..|xs| - 1], f) + f(xs[|xs| - 1])
  }

  lemma {:induction false} FlatMapAppend<T, U>(a: seq<T>, b: seq<T>, f: T -> seq<U>)
    ensures FlatMap(a + b, f) == FlatMap(a, f) + FlatMap(b, f)
  {
    if b == [] {
      assert a + b == a;
    } else {
      var front := b[..|b| - 1];
      FlatMapAppend(a, front, f);
      assert (a + b)[..|a + b| - 1] == a + front;
      assert (a + b)[|a + b| - 1] == b[|b| - 1];
    }
  }

  /** detect_issues: one pass over the records, skipping those below the spend gate. */
  method DetectIssues(rows: seq<Row>) returns (issues: seq<Issue>)
    ensures issues == IssuesOf(rows)
  {
    issues := [];
    for i := 0 to |rows|
      invariant issues == IssuesOf(rows[..i])
    {
      assert rows[..i + 1][..i] == rows[..i];
      var r := rows[i];
      var cid := CampaignId(r);
      var cname := CampaignName(r);
      var spend := SafeFloat(r.spend);
      var impressions := r.impressions;
      var clicks := r.clicks;
      var freq := SafeFloat(r.frequency);

      if spend < MinSpendToJudge {
        continue;
      }

      var ctr := if impressions != 0 then clicks as real / impressions as real else 0.0;
      var ctrPct := ctr * 100.0;
      var cpc := if clicks != 0 then spend / clicks as real else 0.0;

      if ctr < MinCtr {
        issues := issues + [Issue(High, cid, cname, CtrMetric,
                                  Round(ctrPct, 2), Some(MinCtr * 100.0), CtrReason, CtrSuggestion)];
      }
      if cpc > MaxCpc {
        issues := issues + [Issue(Medium, cid, cname, CpcMetric,
                                  Round(cpc, 4), Some(MaxCpc), CpcReason, CpcSuggestion)];
      }
      if freq > MaxFrequency {
        issues := issues + [Issue(Medium, cid, cname, FrequencyMetric,
                                  Round(freq, 2), Some(MaxFrequency), FrequencyReason, FrequencySuggestion)];
      }
    }
    assert rows[..|rows|] == rows;
  }

  /** Detection distributes over a split of the records: output order is input order. */
  lemma {:induction false} IssuesAppend(a: seq<Row>, b: seq<Row>)
    ensures IssuesOf(a + b) == IssuesOf(a) + IssuesOf(b)
  {
    FlatMapAppend(a, b, RowIssues);
  }

  /** Records below the spend gate never produce issues, whatever their other fields. */
  lemma {:induction false} LowSpendRowsNoIssues(rows: seq<Row>)
    requires forall i :: 0 <= i < |rows| ==> SafeFloat(rows[i].spend) < MinSpendToJudge
    ensures IssuesOf(rows) == []
  {
    if rows != [] {
      LowSpendRowsNoIssues(rows[..|rows| - 1]);
    }
  }

  /**
   * A record below the spend gate adds no issues, yet its spend, impressions
   * and clicks still enter the account totals.
   */
  lemma LowSpendRowStillCounted(rows: seq<Row>, r: Row)
    requires SafeFloat(r.spend) < MinSpendToJudge
    ensures IssuesOf(rows + [r]) == IssuesOf(rows)
    ensures SpendSum(rows + [r]) == SpendSum(rows) + SafeFloat(r.spend)
    ensures AccountStatsOf(rows + [r]).impressions == AccountStatsOf(rows).impressions + r.impressions
    ensures AccountStatsOf(rows + [r]).clicks == AccountStatsOf(rows).clicks + r.clicks
  {
  }

  /** A judged record with no impressions always gets the CTR issue, first, valued 0 against 1.0. */
  lemma ZeroImpressionsFlagCtr(r: Row)
    requires Judged(r) && r.impressions == 0
    ensures |RowIssues(r)| >= 1
    ensures RowIssues(r)[0] == Issue(High, CampaignId(r), CampaignName(r), CtrMetric, 0.0, Some(1.0),
                                     CtrReason, CtrSuggestion)
  {
  }

  /** A record with no clicks never gets the CPC issue. */
  lemma ZeroClicksNoCpcIssue(r: Row)
    requires r.clicks == 0
    ensures forall k :: 0 <= k < |RowIssues(r)| ==> RowIssues(r)[k].metric != CpcMetric
  {
  }

  /** Every reported issue is "high" exactly when it is a CTR issue, and "medium" otherwise. */
  lemma {:induction false} IssueLevels(rows: seq<Row>)
    ensures forall k :: 0 <= k < |IssuesOf(rows)| ==>
      (IssuesOf(rows)[k].level == High <==> IssuesOf(rows)[k].metric == CtrMetric)
    ensures forall k :: 0 <= k < |IssuesOf(rows)| ==>
      (IssuesOf(rows)[k].level == Medium <==> IssuesOf(rows)[k].metric != CtrMetric)
  {
    if rows != [] {
      var front, r := rows[..|rows| - 1], rows[|rows| - 1];
      IssueLevels(front);
      RowIssuesRules(r);
      assert IssuesOf(rows) == IssuesOf(front) + RowIssues(r);
    }
  }

  // ---------------------------------------------------------------------------
  // Summary builder (build_summary)
  // ---------------------------------------------------------------------------

  /** The content of the summary sentence, before it is formatted as text. */
  datatype Summary =
    | Healthy(spend: real, impressions: int, clicks: int)
    | IssuesFound(total: nat, high: nat, medium: nat, spend: real)

  /** How many issues carry `level`. */
  function CountLevel(issues: seq<Issue>, level: string): (n: nat)
    ensures n <= |issues|
  {
    if issues == [] then 0
    else (if issues[0].level == level then 1 else 0) + CountLevel(issues[1..], level)
  }

  /** Counts are additive over a split of the issue list. */
  lemma {:induction false} CountLevelAppend(a: seq<Issue>, b: seq<Issue>, level: string)
    ensures CountLevel(a + b, level) == CountLevel(a, level) + CountLevel(b, level)
  {
    if a == [] {
      assert a + b == b;
    } else {
      assert (a + b)[0] == a[0];
      assert (a + b)[1..] == a[1..] + b;
      CountLevelAppend(a[1..], b, level);
    }
  }

  /** The count is zero exactly when no issue has the level, and full exactly when all have it. */
  lemma {:induction false} CountLevelExtremes(issues: seq<Issue>, level: string)
    ensures CountLevel(issues, level) == 0 <==> forall k :: 0 <= k < |issues| ==> issues[k].level != level
    ensures CountLevel(issues, level) == |issues| <==> forall k :: 0 <= k < |issues| ==> issues[k].level == level
  {
    if issues != [] {
      CountLevelExtremes(issues[1..], level);
      assert forall k :: 1 <= k < |issues| ==> issues[k] == issues[1..][k - 1];
    }
  }

  /**
   * The high and medium counts never exceed the total, and they make it up
   * exactly when every issue is high or medium.
   */
  lemma {:induction false} LevelSplit(issues: seq<Issue>)
    ensures CountLevel(issues, High) + CountLevel(issues, Medium) <= |issues|
    ensures (forall k :: 0 <= k < |issues| ==> issues[k].level == High || issues[k].level == Medium)
            ==> CountLevel(issues, High) + CountLevel(issues, Medium) == |issues|
  {
    if issues != [] {
      LevelSplit(issues[1..]);
      assert forall k :: 1 <= k < |issues| ==> issues[k] == issues[1..][k - 1];
    }
  }

  /** build_summary: the healthy message exactly when there are no issues. */
  function BuildSummary(stats: AccountStats, issues: seq<Issue>): (s: Summary)
    ensures s.Healthy? <==> issues == []
    ensures s.Healthy? ==> s.spend == stats.spend && s.impressions == stats.impressions && s.clicks == stats.clicks
    ensures s.IssuesFound? ==> s.total == |issues| && s.spend == stats.spend
    ensures s.IssuesFound? ==> s.high == CountLevel(issues, High) && s.medium == CountLevel(issues, Medium)
    ensures s.IssuesFound? ==> s.high + s.medium <= s.total
  {
    if issues == [] then Healthy(stats.spend, stats.impressions, stats.clicks)
    else
      LevelSplit(issues);
      IssuesFound(|issues|, CountLevel(issues, High), CountLevel(issues, Medium), stats.spend)
  }

  // ---------------------------------------------------------------------------
  // The three parts together
  // ---------------------------------------------------------------------------

  /** The account is reported healthy exactly when no record trips a rule. */
  lemma {:induction false} HealthyIffNoRuleFires(rows: seq<Row>)
    ensures BuildSummary(AccountStatsOf(rows), IssuesOf(rows)).Healthy?
            <==> forall i :: 0 <= i < |rows| ==> RowIssues(rows[i]) == []
  {
    if rows != [] {
      var front := rows[..|rows| - 1];
      HealthyIffNoRuleFires(front);
      assert forall i :: 0 <= i < |front| ==> front[i] == rows[i];
    }
  }

  /**
   * For detected issues the high/medium split is exact: every issue is high
   * or medium, so the two counts add up to the total.
   */
  lemma DetectedSplitIsExact(rows: seq<Row>)
    requires IssuesOf(rows) != []
    ensures var s := BuildSummary(AccountStatsOf(rows), IssuesOf(rows));
            s.IssuesFound? && s.high + s.medium == s.total
  {
    IssueLevels(rows);
    LevelSplit(IssuesOf(rows));
  }

  // ---------------------------------------------------------------------------
  // Worked examples
  // ---------------------------------------------------------------------------

  /** A single record's issues are reported as they are. */
  lemma SingleRowIssues(r: Row)
    ensures IssuesOf([r]) == RowIssues(r)
  {
    assert [r][..0] == [];
    assert FlatMap([r], RowIssues) == FlatMap([], RowIssues) + RowIssues(r);
  }

  /**
   * One purchase-bearing record spending 50 on 1000 impressions and 5 clicks:
   * ctr 0.005 and cpc 10 both cross their thresholds, so it gets a CTR issue
   * (0.5 against 1.0) and then a CPC issue (10 against 1.5).
   */
  lemma PurchaseRecordExample()
    ensures var r := Row(Some("1"), Some("A"), Num(50.0), 1000, 5, Num(1.0),
                         Some([Action(Some("purchase"), Num(20.0))]));
      && AccountStatsOf([r]) == AccountStats(50.0, 1000, 5, 0.005, 10.0, Some(20.0), Some(2.5))
      && IssuesOf([r]) == [
           Issue(High, "1", "A", CtrMetric, 0.5, Some(1.0), CtrReason, CtrSuggestion),
           Issue(Medium, "1", "A", CpcMetric, 10.0, Some(1.5), CpcReason, CpcSuggestion)]
  {
    var r := Row(Some("1"), Some("A"), Num(50.0), 1000, 5, Num(1.0),
                 Some([Action(Some("purchase"), Num(20.0))]));
    assert [r][..0] == [];
    var acts := ActionsOf(r);
    assert acts[..0] == [];
    assert ResultsSum([r]) == 20.0;
    assert Scale(2) == 100.0 && Scale(4) == 10000.0;
    RoundExact(50.0, 2);
    RoundExact(10.0, 4);
    RoundExact(2.5, 2);
    RoundExact(0.5, 2);
  }

  /**
   * A record with spend 100, 100 impressions, no clicks and frequency 10 gets
   * exactly the CTR and Frequency issues: with no clicks its cpc is 0, under 1.5.
   */
  lemma RuleIndependenceExample()
    ensures var r := Row(None, None, Num(100.0), 100, 0, Num(10.0), None);
      && |RowIssues(r)| == 2
      && RowIssues(r)[0].metric == CtrMetric
      && RowIssues(r)[1].metric == FrequencyMetric
  {
  }

  /**
   * A record spending 5 is skipped by the detector, while the account totals
   * still show its spend, impressions and clicks.
   */
  lemma LowSpendRecordExample()
    ensures var r := Row(None, None, Num(5.0), 10, 0, Num(0.0), None);
      && IssuesOf([r]) == []
      && AccountStatsOf([r]).spend == 5.0
      && AccountStatsOf([r]).impressions == 10
      && AccountStatsOf([r]).clicks == 0
  {
  }
}
