# Meta daily health check: rule engine model

A Dafny model of the rule engine behind the daily health check of an
advertising account (`health_rules.py`). The engine takes the campaign-day
records for an account and produces three things:

- **account totals** (`aggregate_account_stats`). These are spend, impressions
  and clicks, with CTR and CPC guarded against zero denominators. Conversion
  results are summed over the `purchase`, `lead` and `complete_registration`
  actions. CPR is derived from them. Results and CPR are absent rather than zero.
- **issues** (`detect_issues`). A record is judged only when its spend is at
  least 20. A judged record then meets three fixed threshold rules, always in
  this order: CTR under 1% (`high`), CPC over 1.50 (`medium`), frequency over
  5 (`medium`).
- **a summary** (`build_summary`). It is the healthy form when there are no
  issues. Otherwise it gives the issue count, its high/medium split and the
  spend.

Modules:

- `Wrappers` holds `Option`, for the fields the source leaves as `None`.
- `Rounding` holds Python's `round(x, places)` on exact reals. It rounds to the
  nearest multiple of 10^-places, and ties go to the even multiple.
- `Models` holds the output records `AccountStats` and `Issue` (models.py).
- `HealthRules` holds the raw records, the three operations and their properties.

The imperative parts of the source stay imperative. `AggregateAccountStats`
keeps the nested `for` loop that accumulates conversion results.
`DetectIssues` keeps the loop over records, with its early `continue` and the
appends. Each method is proved equal to a specification function
(`AccountStatsOf`, `IssuesOf`), and the properties are lemmas about those
functions. The sums written as generator expressions and `build_summary`
are functions.

A raw decimal field is `Raw = Num(x) | Absent | Bad`. `Num(x)` is a value
that `float()` parses to `x`. `Absent` is a missing key, which the source
defaults to `0`. `Bad` is a value on which `float()` raises. With this,
`_safe_float` is the total function `SafeFloat`.

The model follows the code exactly on three points that are easy to misread:

- CPR is guarded by `if total_results`, a non-zero test, not a positivity test.
  CPR is also absent when total spend is 0, because the code tests `if cpr`.
- Nothing in the code makes spend, action values, impressions or clicks
  non-negative, so the model allows negative values.
- The code can raise on impressions and clicks: `int(...)` is unguarded there.
  So the engine is not total over arbitrary input.

## Model

| member | source | states |
|---|---|---|
| `HealthRules.SafeFloat` | health_rules.py:4-8 | never fails: the parsed number for a value `float()` accepts, 0.0 for a missing key or a failed conversion |
| `HealthRules.Ratio` | health_rules.py:15-16 | a guarded quotient is 0.0 whenever the denominator is zero |
| `HealthRules.RatioTimesDenominator` | health_rules.py:15-16 | away from a zero denominator the guarded quotient times the denominator gives back the numerator |
| `HealthRules.AggregateAccountStats` | health_rules.py:10-35 | the method, with its nested loop over records and actions, returns exactly the totals `AccountStatsOf` specifies |
| `HealthRules.AggregateTotals` | health_rules.py:11-13 | spend is the sum of coerced spends rounded to 2 places; impressions and clicks are the sums over the records |
| `HealthRules.AggregateRates` | health_rules.py:15-16 | ctr is 0 when impressions are 0, and otherwise ctr times impressions equals clicks; cpc is 0 when clicks are 0, and otherwise spend/clicks rounded to 4 places |
| `HealthRules.AggregateResults` | health_rules.py:18-34 | results is present iff the conversion sum is non-zero, and then equals it; cpr is absent iff results or spend is zero, and otherwise is spend/results rounded to 2 places |
| `HealthRules.AggregateEmpty` | health_rules.py:10-35 | no records give spend 0, impressions 0, clicks 0, ctr 0, cpc 0, and no results or cpr |
| `HealthRules.TotalsAppend` | health_rules.py:11-23 | spend, impressions, clicks and results are each additive over a split of the record list |
| `HealthRules.ConversionsOnly` | health_rules.py:22 | an action is kept iff it is one of the input actions and its type is purchase, lead or complete_registration |
| `HealthRules.ConversionsOnlyAppend` | health_rules.py:21-22 | the filter keeps input order: filtering `a + b` gives the conversions of `a`, then those of `b` |
| `HealthRules.NonConversionsIgnored` | health_rules.py:18-23 | the results of a list of actions equal the results of its conversion actions alone, so other types contribute nothing |
| `HealthRules.NoConversionsInActions` | health_rules.py:21-23 | a list of actions with no conversion action adds 0 to the results |
| `HealthRules.NoConversionsNoResults` | health_rules.py:18-34 | with no conversion action in any record, results and cpr are both absent |
| `HealthRules.RowIssuesRules` | health_rules.py:53-94 | a record below the spend gate yields nothing; each rule's issue is present iff the record is judged and crosses that rule's threshold; every issue is one of the three rule issues, at most three, in the order CTR, CPC, Frequency |
| `HealthRules.DetectIssues` | health_rules.py:37-96 | the method, with its loop, `continue` and appends, returns exactly `IssuesOf`: each record's issues in record order |
| `HealthRules.FlatMapAppend` | health_rules.py:45-96 | concatenating per-record outputs over a split list is the concatenation of the two halves' outputs |
| `HealthRules.IssuesAppend` | health_rules.py:45-96 | detection of `a + b` is detection of `a` followed by detection of `b` |
| `HealthRules.SingleRowIssues` | health_rules.py:45-96 | a one-record list reports that record's issues unchanged |
| `HealthRules.LowSpendRowsNoIssues` | health_rules.py:53-54 | if every record spends under 20, no issues are reported, whatever the other fields |
| `HealthRules.LowSpendRowStillCounted` | health_rules.py:11-54 | appending a record that spends under 20 adds no issues, but adds its spend, impressions and clicks to the totals |
| `HealthRules.ZeroImpressionsFlagCtr` | health_rules.py:56-70 | a judged record with 0 impressions always gets the CTR issue first, valued 0 against the benchmark 1.0 |
| `HealthRules.ZeroClicksNoCpcIssue` | health_rules.py:58-82 | a record with 0 clicks never gets the CPC issue |
| `HealthRules.IssueLevels` | health_rules.py:60-94 | every reported issue is `high` exactly when it is a CTR issue, and `medium` exactly when it is not |
| `HealthRules.CountLevel` | health_rules.py:105-106 | a level count never exceeds the number of issues |
| `HealthRules.CountLevelAppend` | health_rules.py:105-106 | level counts are additive over a split of the issue list |
| `HealthRules.CountLevelExtremes` | health_rules.py:105-106 | a count is 0 iff no issue has the level, and is the full length iff every issue has it |
| `HealthRules.LevelSplit` | health_rules.py:105-110 | high plus medium is at most the total, and equals it when every level is high or medium |
| `HealthRules.BuildSummary` | health_rules.py:98-112 | the healthy form iff there are no issues, carrying spend, impressions and clicks; otherwise the total is the issue count, high and medium are the exact level counts, they add up to at most the total, and spend is carried |
| `HealthRules.HealthyIffNoRuleFires` | health_rules.py:99-103 | the account is reported healthy iff no record trips any rule |
| `HealthRules.DetectedSplitIsExact` | health_rules.py:105-110 | for detected issues, high plus medium equals the total |
| `HealthRules.PurchaseRecordExample` | health_rules.py:10-96 | one record (spend 50, 1000 impressions, 5 clicks, a purchase worth 20): totals 50/1000/5, ctr 0.005, cpc 10, results 20, cpr 2.5; a CTR issue (0.5 against 1.0), then a CPC issue (10 against 1.5) |
| `HealthRules.RuleIndependenceExample` | health_rules.py:56-94 | spend 100, 100 impressions, 0 clicks, frequency 10 gives exactly the CTR and Frequency issues, in that order |
| `HealthRules.LowSpendRecordExample` | health_rules.py:11-54 | a record spending 5 yields no issues, yet the totals show its spend 5, impressions 10 and clicks 0 |
| `Rounding.NearestEven` | health_rules.py:28 | the chosen integer is within one half of the scaled value, and it is even on a tie |
| `Rounding.RoundSpec` | health_rules.py:28 | a rounded value has at most `places` decimals and lies within half of 10^-places of the input |
| `Rounding.RoundExact` | health_rules.py:28 | rounding leaves a value that already has `places` decimals unchanged |

## Left out

- Floating point. The model computes on exact reals, not IEEE doubles. It does not model binary rounding error in sums and quotients, or NaN and infinity from `float("nan")` or `float("inf")`.
- `Rounding.Round` rounds the exact decimal value half to even. Python rounds the binary double, so it can differ near a tie.
- String output. The summary is the structured value `Summary`. The `RM` prefix, the `:.2f` formatting and the sentence wording are not modelled.
- `int()` failures on impressions and clicks. These fields are taken as already-valid integers. Their conversion errors are not modelled.
- Field types. `campaign_id`, `campaign_name` and `action_type` are modelled as a string or missing. Other Python types, including an explicit null, are not modelled. Nor is an `actions` value that is not a list, or an action entry that is not a dict; the source would iterate over such a value or raise on `a.get(...)`.
- Fetching records from the insights provider (meta_client.py). meta_client.py is not part of this model: it is a network call with nothing to state. So is the fetched `action_values` field, which no rule reads.
- HTTP transport, CORS, and the 500 and 404 mapping (app.py). These are transport glue. The model's functions are total over the modelled inputs, so the empty-list case that app.py turns into a 404 is modelled as ordinary input.
- Configuration loading (config.py) and pydantic validation of the schema (models.py). Only the field lists of models.py are mirrored, as datatypes.
