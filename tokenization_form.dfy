/** `TokenizationForm`: the closed ranges of `tokenizationSchema`, the default
    values, and what reaches `onSubmit`. */
module TokenizationForm {
  import opened Js

  /** The five number inputs, read with `valueAsNumber` (an empty or unreadable input is NaN). */
  datatype TokenizationData = TokenizationData(
    initialSupply: JsNumber,
    tokenPrice: JsNumber,
    tradingFee: JsNumber,
    creatorRoyalty: JsNumber,
    vestingPeriod: JsNumber)

  /** `z.number().min(lo, …).max(hi, …)`: a number, and both bounds inclusive. */
  predicate InRange(x: JsNumber, lo: real, hi: real)
  {
    x.Num? && lo <= x.value <= hi
  }

  /** The message zod reports for a NaN input. */
  const NotANumber := "Expected number, received nan"

  /** The issue `z.number().min(lo, minMessage).max(hi, maxMessage)` reports for one field, if any. */
  function FieldIssue(x: JsNumber, lo: real, hi: real, minMessage: string, maxMessage: string): (r: Option<string>)
    requires lo <= hi
    ensures r.None? <==> InRange(x, lo, hi)
    ensures x.Num? && x.value < lo ==> r == Some(minMessage)
    ensures x.Num? && x.value > hi ==> r == Some(maxMessage)
  {
    match x
    case NaN => Some(NotANumber)
    case Num(v) => if v < lo then Some(minMessage) else if v > hi then Some(maxMessage) else None
  }

  datatype Issue = Issue(field: string, message: string)

  function IssueOf(field: string, r: Option<string>): seq<Issue>
  {
    if r.Some? then [Issue(field, r.value)] else []
  }

  /** Every issue `tokenizationSchema` finds, field by field in schema order. */
  function Issues(d: TokenizationData): seq<Issue>
  {
    IssueOf("initialSupply", FieldIssue(d.initialSupply, 100.0, 1000000.0,
      "Minimum supply is 100 tokens", "Maximum supply is 1,000,000 tokens"))
    + IssueOf("tokenPrice", FieldIssue(d.tokenPrice, 0.0001, 1000.0,
      "Minimum price is 0.0001 ETH", "Maximum price is 1000 ETH"))
    + IssueOf("tradingFee", FieldIssue(d.tradingFee, 0.0, 10.0,
      "Trading fee cannot be negative", "Maximum trading fee is 10%"))
    + IssueOf("creatorRoyalty", FieldIssue(d.creatorRoyalty, 0.0, 15.0,
      "Royalty cannot be negative", "Maximum royalty is 15%"))
    + IssueOf("vestingPeriod", FieldIssue(d.vestingPeriod, 0.0, 365.0,
      "Vesting period cannot be negative", "Maximum vesting period is 365 days"))
  }

  /** The schema accepts the data when it finds no issue. */
  predicate Accepts(d: TokenizationData)
  {
    Issues(d) == []
  }

  /** The schema accepts exactly when all five range checks hold. */
  lemma AcceptsIffInRanges(d: TokenizationData)
    ensures Accepts(d) <==>
      && InRange(d.initialSupply, 100.0, 1000000.0)
      && InRange(d.tokenPrice, 0.0001, 1000.0)
      && InRange(d.tradingFee, 0.0, 10.0)
      && InRange(d.creatorRoyalty, 0.0, 15.0)
      && InRange(d.vestingPeriod, 0.0, 365.0)
  {
  }

  const Defaults := TokenizationData(Num(1000.0), Num(0.001), Num(2.0), Num(5.0), Num(30.0))

  /** The default values satisfy the schema. */
  lemma DefaultsAccepted()
    ensures Accepts(Defaults)
  {
    AcceptsIffInRanges(Defaults);
  }

  /** Every bound is inclusive: each field at either end of its range is accepted,
      and just past either end is not. */
  lemma BoundsInclusive()
    ensures Accepts(Defaults.(initialSupply := Num(100.0))) && Accepts(Defaults.(initialSupply := Num(1000000.0)))
    ensures !Accepts(Defaults.(initialSupply := Num(99.0))) && !Accepts(Defaults.(initialSupply := Num(1000001.0)))
    ensures Accepts(Defaults.(tokenPrice := Num(0.0001))) && Accepts(Defaults.(tokenPrice := Num(1000.0)))
    ensures Accepts(Defaults.(tradingFee := Num(0.0))) && Accepts(Defaults.(tradingFee := Num(10.0)))
    ensures !Accepts(Defaults.(tradingFee := Num(-0.5))) && !Accepts(Defaults.(tradingFee := Num(10.5)))
    ensures Accepts(Defaults.(creatorRoyalty := Num(0.0))) && Accepts(Defaults.(creatorRoyalty := Num(15.0)))
    ensures Accepts(Defaults.(vestingPeriod := Num(0.0))) && Accepts(Defaults.(vestingPeriod := Num(365.0)))
    ensures !Accepts(Defaults.(vestingPeriod := Num(366.0)))
    ensures !Accepts(Defaults.(tokenPrice := NaN))
  {
    AcceptsIffInRanges(Defaults.(initialSupply := Num(100.0)));
    AcceptsIffInRanges(Defaults.(initialSupply := Num(1000000.0)));
    AcceptsIffInRanges(Defaults.(initialSupply := Num(99.0)));
    AcceptsIffInRanges(Defaults.(initialSupply := Num(1000001.0)));
    AcceptsIffInRanges(Defaults.(tokenPrice := Num(0.0001)));
    AcceptsIffInRanges(Defaults.(tokenPrice := Num(1000.0)));
    AcceptsIffInRanges(Defaults.(tradingFee := Num(0.0)));
    AcceptsIffInRanges(Defaults.(tradingFee := Num(10.0)));
    AcceptsIffInRanges(Defaults.(tradingFee := Num(-0.5)));
    AcceptsIffInRanges(Defaults.(tradingFee := Num(10.5)));
    AcceptsIffInRanges(Defaults.(creatorRoyalty := Num(0.0)));
    AcceptsIffInRanges(Defaults.(creatorRoyalty := Num(15.0)));
    AcceptsIffInRanges(Defaults.(vestingPeriod := Num(0.0)));
    AcceptsIffInRanges(Defaults.(vestingPeriod := Num(365.0)));
    AcceptsIffInRanges(Defaults.(vestingPeriod := Num(366.0)));
    AcceptsIffInRanges(Defaults.(tokenPrice := NaN));
  }

  /** A press of the submit button: the button is disabled while `isProcessing`,
      and `handleSubmit` hands the data to `onSubmit` only when the schema accepts it. */
  function Submit(d: TokenizationData, isProcessing: bool): (delivered: Option<TokenizationData>)
    ensures delivered.Some? ==> delivered.value == d && Accepts(delivered.value)
    ensures delivered.Some? <==> Accepts(d) && !isProcessing
  {
    if isProcessing || !Accepts(d) then None else Some(d)
  }
}
