/**
 * The statement-type and frequency enums of the fundamentals model: their
 * `as_str` names and their serde tags, which must agree so that a name
 * built with `as_str` decodes back to the variant it came from.
 */
module Fundamentals {
  import opened Wrappers

  datatype StatementType = IncomeStatement | BalanceSheet | CashFlow

  datatype Frequency = Annual | Quarterly

  /** The serde tag each statement type is written as (its `rename` attribute). */
  function StatementTag(t: StatementType): string {
    match t
    case IncomeStatement => "income"
    case BalanceSheet => "balance"
    case CashFlow => "cashflow"
  }

  /** serde's decoding of a statement type: the variant whose tag is the text. */
  function StatementFromTag(s: string): (r: Option<StatementType>)
    ensures r.Some? ==> StatementTag(r.value) == s
  {
    if s == "income" then Some(IncomeStatement)
    else if s == "balance" then Some(BalanceSheet)
    else if s == "cashflow" then Some(CashFlow)
    else None
  }

  /** `StatementType::as_str`. */
  function StatementAsStr(t: StatementType): (r: string)
    ensures r == StatementTag(t)
  {
    match t
    case IncomeStatement => "income"
    case BalanceSheet => "balance"
    case CashFlow => "cashflow"
  }

  /** The serde tag each frequency is written as. */
  function FrequencyTag(f: Frequency): string {
    match f
    case Annual => "annual"
    case Quarterly => "quarterly"
  }

  function FrequencyFromTag(s: string): (r: Option<Frequency>)
    ensures r.Some? ==> FrequencyTag(r.value) == s
  {
    if s == "annual" then Some(Annual)
    else if s == "quarterly" then Some(Quarterly)
    else None
  }

  /** `Frequency::as_str`. */
  function FrequencyAsStr(f: Frequency): (r: string)
    ensures r == FrequencyTag(f)
  {
    match f
    case Annual => "annual"
    case Quarterly => "quarterly"
  }

  /** Decoding the name `as_str` gives yields the same variant, and only the three names decode. */
  lemma StatementRoundTrip(t: StatementType, s: string)
    ensures StatementFromTag(StatementAsStr(t)) == Some(t)
    ensures StatementFromTag(s).Some? <==> s in {"income", "balance", "cashflow"}
  {
  }

  lemma FrequencyRoundTrip(f: Frequency, s: string)
    ensures FrequencyFromTag(FrequencyAsStr(f)) == Some(f)
    ensures FrequencyFromTag(s).Some? <==> s in {"annual", "quarterly"}
  {
  }

  /** Distinct variants have distinct names. */
  lemma AsStrInjective(a: StatementType, b: StatementType, f: Frequency, g: Frequency)
    ensures StatementAsStr(a) == StatementAsStr(b) ==> a == b
    ensures FrequencyAsStr(f) == FrequencyAsStr(g) ==> f == g
  {
    StatementRoundTrip(a, "");
    StatementRoundTrip(b, "");
    FrequencyRoundTrip(f, "");
    FrequencyRoundTrip(g, "");
  }
}
