/**
 * The report's output records (models.py): the account totals and one
 * rule-triggered issue. They carry no behaviour of their own.
 */
module Models {
  import opened Wrappers

  /** Account-wide totals and derived rates; `results` and `cpr` are absent rather than zero. */
  datatype AccountStats = AccountStats(
    spend: real,
    impressions: int,
    clicks: int,
    ctr: real,
    cpc: real,
    results: Option<real>,
    cpr: Option<real>)

  /** One triggered rule for one campaign-day record. `level` is free text, as in the schema. */
  datatype Issue = Issue(
    level: string,
    campaignId: string,
    campaignName: string,
    metric: string,
    value: real,
    benchmark: Option<real>,
    reason: string,
    suggestion: string)
}
