# Reporting core of the cost-estimation tool, in Dafny

This project models the reporting layer of an infrastructure cost-estimation
tool (internal/output/output.go). It takes resources that the pricing stage has
already priced and does four things with them:

- **Resource projector** (`outputResource`). Copies a schema resource tree into
  the report shape, applying the display multiplier to each cost component.
- **Report builder** (`ToOutputFormat`). Drops skipped resources, projects the
  others in input order, rolls up nil-aware hourly and monthly totals, and
  attaches at most one advisory warning.
- **Report combiner** (`Combine`, `sortResources`). Concatenates the resources
  of several reports, re-derives the totals from each report's own totals,
  sorts the merged list by name in place, and drops every warning.
- **Warning summarizer** (`skippedResourcesMessage`). Writes the
  unsupported-resource advisory.

The nil branches of `formatCost` and `formatQuantity`, and `decimalPtr`, are
modelled as well.

Files:

- `wrappers.dfy`: the `Option` type. It stands in for a Go pointer that may be nil.
- `rollup.dfy`: decimals (shopspring decimals add exactly, so they are `real`),
  `decimalPtr`, and the nil-aware accumulator that both loops run. It also has
  the reference definitions the accumulator is proved against: "every value
  nil" and "sum of the present values".
- `gostrings.dfy`: Go's `<` on strings, which is a total order, and Go's `%d`,
  with its inverse parser.
- `schema.dfy`: the schema values the core receives. The foreign functions it
  calls are fields of a `Collaborators` value: the `UnitWithMultiplier` /
  `UnitMultiplier*` accessors, `schema.GenerateResourceSummary` and
  `terraform.HasSupportedProvider`. They stay uninterpreted.
- `output.dfy`: the projector, builder, combiner and summarizer.
  - The Go loops are methods with loop invariants.
  - Each method's `ensures` ties its result to a specification function.
  - Lemmas prove properties of those functions.
  - `sortResources` is an insertion sort on an `array`, working in place.
  - Go's unspecified map iteration order is modelled by letting each loop
    step pick any key it has not yet visited. A ghost output records the order
    the details loop used.
- `format.dfy`: `formatCost` and `formatQuantity`. The renderers for non-nil
  amounts are parameters.

## Model

| member | source | states |
|---|---|---|
| Rollup.DecimalPtr | internal/output/output.go:221-223 | the pointer is never nil and holds the given value |
| Rollup.Accumulate | internal/output/output.go:83-89 | one step of an accumulator: the running total is nil afterwards exactly when it was nil before and the amount is nil; otherwise it is the old total (nil counts as zero) plus the amount |
| Rollup.SumOptionalMeaning | internal/output/output.go:74-97 | the folded total is nil exactly when every amount is nil; otherwise it equals the sum of the non-nil amounts |
| Rollup.SumOptionalAppend | internal/output/output.go:126-143 | folding two groups separately and adding the group totals with the same step gives the total of the whole sequence |
| Rollup.SumOptionalPermutation | internal/output/output.go:126-143 | the folded total does not depend on the order of the amounts |
| GoStrings.LessTransitive | internal/output/output.go:155-157 | Go's `<` on strings is transitive |
| GoStrings.LessTotal | internal/output/output.go:155-157 | any two strings are equal or one is `<` the other |
| GoStrings.IntToStringRoundTrip | internal/output/output.go:173 | reading back the `%d` rendering of a count gives that count |
| Output.OutputResource | internal/output/output.go:42-69 | the two loops and the recursion build exactly the projection `Projected` of the input tree |
| Output.ProjectionFields | internal/output/output.go:42-69 | the projection keeps name, hourly and monthly cost. It has as many cost components as the input, pointwise with the same name and costs, and with the multiplied unit, hourly and monthly quantities and price. It has as many sub-resources, each the projection of the corresponding input sub-resource |
| Output.ProjectionPreservesOutline | internal/output/output.go:42-69 | the projected tree has the same shape as the input tree: same pre-order sequence of names and costs, same cost components in the same order, same number of children at every node |
| Output.ToOutputFormat | internal/output/output.go:71-112 | the resources are the projections of the non-skipped inputs, in order. Each total is the nil-aware fold of the kept resources' costs. The time is the supplied `now`. The warnings are the summarizer's message computed from all the inputs, skipped ones included. There is at most one warning, and there are none exactly when nothing was unsupported |
| Output.NonSkippedMembers | internal/output/output.go:77-81 | a resource is kept exactly when it is one of the inputs and is not skipped |
| Output.SkippedIsIgnored | internal/output/output.go:77-80 | inserting a skipped resource anywhere leaves the kept resources, and therefore the report's resources and totals, unchanged |
| Output.NonSkippedAppend | internal/output/output.go:77-81 | filtering distributes over concatenation, so the input order is kept |
| Output.BuilderTotalMeaning | internal/output/output.go:74-97 | a builder total is nil exactly when every non-skipped resource has a nil cost; otherwise it is the sum of the non-skipped costs |
| Output.SortResources | internal/output/output.go:154-157 | the array ends up in non-decreasing name order under Go's `<`, and holds a permutation of its old contents |
| Output.Combine | internal/output/output.go:120-152 | the resources are a permutation of the concatenation of all inputs' resources, sorted by name. Their number is the sum of the inputs' counts, so nothing is deduplicated and zero inputs give none. Each total is the nil-aware fold of the inputs' own totals. The time is `now` and there are no warnings |
| Output.ConcatResourcesLength | internal/output/output.go:126-127 | the concatenation has exactly as many resources as all the inputs together |
| Output.CombinedTotalMeaning | internal/output/output.go:123-148 | a combined total is nil exactly when every input's total is nil; otherwise it is the sum of the non-nil input totals. Zero inputs give nil totals |
| Output.CombinedTotalOrderIndependent | internal/output/output.go:126-143 | the combined totals do not depend on the order of the input reports |
| Output.CombineSingle | internal/output/output.go:120-152 | combining one report keeps its resources (before sorting), its resource count and both its totals |
| Output.CombineOfBuilds | internal/output/output.go:120-143 | combining reports built from groups of resources gives the resources (before sorting) and both totals of one report built from all the groups concatenated |
| Output.SkippedResourcesMessage | internal/output/output.go:160-195 | the message is `MessageText` of the summary of all the resources, and it is empty exactly when that summary's unsupported total is 0. With details on, the itemized part follows a visiting order that is a permutation of the map's keys |
| Output.ListSupportedTypes | internal/output/output.go:186-192 | the details loop visits every key of the map exactly once and appends the item lines for that order to the message so far, which stays its prefix |
| Output.MessageEmptyIff | internal/output/output.go:161-164 | the message is empty exactly when the summary's unsupported total is 0 |
| Output.HeadlineShape | internal/output/output.go:173-176 | both headline branches read as the count's numeral followed by the wording, singular exactly when the count is 1 |
| Output.MessageHeadline | internal/output/output.go:166-184 | a non-empty message starts with the number of unsupported types that have a supported provider, which reads back to that number, followed by the singular wording exactly when it is 1. The message always contains the hello@infracost.io contact line |
| Output.ItemizedIsLines | internal/output/output.go:187-191 | the itemized part is the concatenation of one `"\n<count> x <type>"` line per supported-provider type, in visiting order |
| Output.ItemizedOnePerSupportedType | internal/output/output.go:186-192 | with details on, whatever the map's iteration order, the listed types are exactly the unsupported types with a supported provider, each listed once. So the number of item lines equals the headline count, and the message is headline, ".\n", contact line, then those lines |
| Format.FormatCost | internal/output/output.go:206-211 | a nil cost renders as "-" |
| Format.FormatQuantity | internal/output/output.go:213-216 | a nil quantity renders as "-" |
| Format.DashMeansNil | internal/output/output.go:206-216 | when the renderer of present amounts does not write "-", a cell reads "-" exactly when the amount is nil |

## Left out

- `Load` (internal/output/output.go:114-118) is not modelled. It only
  unmarshals JSON.
- The non-nil paths of `formatAmount` and `formatQuantity` are not modelled.
  They convert to `float64` and format with the humanize library. Both
  renderers are function parameters.
- `time.Now()` is not modelled. Its value is a `now` parameter.
- The `show-skipped` flag lookup on `cli.Context` is not modelled. It is a
  boolean parameter.
- The foreign collaborators are not modelled.
  - `schema.GenerateResourceSummary`, `terraform.HasSupportedProvider` and the
    cost-component multiplier accessors are uninterpreted function fields of
    `Schema.Collaborators`.
  - A resource summary is taken as given. Its total is not tied to its
    per-type counts.
- Output.SortResources: `sort.Slice` is a pattern-defeating quicksort. It is
  stood in for by an insertion sort with the same contract: sorted by name,
  and a permutation. `sort.Slice` is not stable, so nothing is claimed about
  the relative order of equal names.
- Go map iteration order is not modelled. Each loop step picks any key it has
  not yet visited, and every property is proved for all such orders. The
  advisory text is stated as a function of the visiting order.
- The JSON difference between a nil and an empty slice is not modelled.
  - A nil `warnings` encodes as `null`. That happens in a report without a
    warning and after `Combine`.
  - A nil `resources` also encodes as `null`. That happens after `Combine`
    when no input has resources.
  - `ToOutputFormat` starts its resources from an empty slice, which encodes
    as `[]`.
  - The model uses the empty sequence in every case.
- `Schema.CostComponent` has no display-multiplier field. The multiplier
  accessors therefore see only the fields modelled. No proved property depends
  on the multiplier.
- Resource names are assumed to be valid UTF-8. Only then does Go's byte-wise
  `<` agree with the character order `GoStrings.Less` uses.
- Callers must not pass two kinds of input, and the model cannot represent
  either.
  - A nil element in the resource list makes the source panic at `r.IsSkipped`.
  - A cyclic sub-resource graph makes `outputResource` recurse forever.
- Pointer sharing is not modelled. The Go report shares the schema's cost
  pointers, and the model copies values. Nothing in the core writes through
  them. `Combine` sorts a freshly appended slice, so the inputs' slices are
  untouched; the model sorts a fresh array.
- internal/ui/print.go is not part of this model. It is terminal output only.
