/**
 * The priced resources the reporting core receives from the pricing stage
 * (`schema.Resource`, `schema.CostComponent`, `schema.ResourceSummary`), and
 * the foreign functions it calls, which stay uninterpreted: every model
 * operation takes them as the fields of a `Collaborators` value.
 */
module Schema {
  import opened Wrappers
  import opened Rollup

  /** A priced line item as the pricing stage produced it, before any display multiplier. */
  datatype CostComponent = CostComponent(
    name: string,
    unit: string,
    hourlyQuantity: Option<Decimal>,
    monthlyQuantity: Option<Decimal>,
    price: Decimal,
    hourlyCost: Option<Decimal>,
    monthlyCost: Option<Decimal>)

  /** A priced resource, a finite tree through `subResources`; `isSkipped` is set by the pricing stage. */
  datatype Resource = Resource(
    name: string,
    hourlyCost: Option<Decimal>,
    monthlyCost: Option<Decimal>,
    costComponents: seq<CostComponent>,
    subResources: seq<Resource>,
    isSkipped: bool)

  /** What `schema.GenerateResourceSummary` reports: the unsupported total and a count per resource type. */
  datatype ResourceSummary = ResourceSummary(totalUnsupported: int, unsupportedCounts: map<string, int>)

  /**
   * The calls into other packages: the display-multiplier accessors of a cost
   * component, `schema.GenerateResourceSummary` and `terraform.HasSupportedProvider`.
   */
  datatype Collaborators = Collaborators(
    unitWithMultiplier: CostComponent -> string,
    unitMultiplierHourlyQuantity: CostComponent -> Option<Decimal>,
    unitMultiplierMonthlyQuantity: CostComponent -> Option<Decimal>,
    unitMultiplierPrice: CostComponent -> Decimal,
    generateResourceSummary: seq<Resource> -> ResourceSummary,
    hasSupportedProvider: string -> bool)
}
