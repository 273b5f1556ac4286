/**
 * The nil branches of the two cell renderers of internal/output/output.go:
 * `formatCost` and `formatQuantity` show a missing amount as "-". The
 * renderers of present amounts are parameters.
 */
module Format {
  import opened Wrappers
  import opened Rollup

  /** `formatCost`: a missing cost renders as "-"; a present one goes to `formatAmount`, which is not modelled. */
  function FormatCost(d: Option<Decimal>, formatAmount: Decimal -> string): (s: string)
    ensures d.None? ==> s == "-"
  {
    if d.None? then "-" else formatAmount(d.value)
  }

  /** `formatQuantity`: a missing quantity renders as "-"; a present one goes to the humanize renderer. */
  function FormatQuantity(q: Option<Decimal>, commafWithDigits: Decimal -> string): (s: string)
    ensures q.None? ==> s == "-"
  {
    if q.None? then "-" else commafWithDigits(q.value)
  }

  /** When the renderer does not write "-" for the amount (a zero cost is "0"), "-" means exactly "nil". */
  lemma DashMeansNil(d: Option<Decimal>, formatAmount: Decimal -> string, commafWithDigits: Decimal -> string)
    requires d.Some? ==> formatAmount(d.value) != "-" && commafWithDigits(d.value) != "-"
    ensures FormatCost(d, formatAmount) == "-" <==> d.None?
    ensures FormatQuantity(d, commafWithDigits) == "-" <==> d.None?
  {
  }
}
