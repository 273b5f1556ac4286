/**
 * The reporting core of internal/output/output.go: it projects priced
 * resources into the report shape (`outputResource`), builds one report
 * (`ToOutputFormat`), merges several reports (`Combine`, `sortResources`),
 * writes the unsupported-resource advisory (`skippedResourcesMessage`) and
 * renders missing amounts (`formatCost`, `formatQuantity`).
 */
module Output {
  import opened Wrappers
  import opened Rollup
  import opened GoStrings
  import Schema

  /** The value of `time.Now()`, supplied by the caller. */
  type Timestamp = int

  /** A priced line item as the report shows it, after the display multiplier. */
  datatype CostComponent = CostComponent(
    name: string,
    unit: string,
    hourlyQuantity: Option<Decimal>,
    monthlyQuantity: Option<Decimal>,
    price: Decimal,
    hourlyCost: Option<Decimal>,
    monthlyCost: Option<Decimal>)

  /** A resource as the report shows it. */
  datatype Resource = Resource(
    name: string,
    hourlyCost: Option<Decimal>,
    monthlyCost: Option<Decimal>,
    costComponents: seq<CostComponent>,
    subResources: seq<Resource>)

  /** The report document. */
  datatype Root = Root(
    resources: seq<Resource>,
    totalHourlyCost: Option<Decimal>,
    totalMonthlyCost: Option<Decimal>,
    timeGenerated: Timestamp,
    warnings: seq<string>)

  /** The concatenation of a sequence of sequences, in order. */
  function Flatten<T>(ss: seq<seq<T>>): seq<T>
  {
    if ss == [] then [] else ss[0] + Flatten(ss[1..])
  }

  lemma {:induction false} FlattenAppend<T>(ss: seq<seq<T>>, ts: seq<seq<T>>)
    ensures Flatten(ss + ts) == Flatten(ss) + Flatten(ts)
  {
    if ss != [] {
      assert (ss + ts)[1..] == ss[1..] + ts;
      FlattenAppend(ss[1..], ts);
    } else {
      assert ss + ts == ts;
    }
  }

  lemma FlattenSnoc<T>(ss: seq<seq<T>>, s: seq<T>)
    ensures Flatten(ss + [s]) == Flatten(ss) + s
  {
    FlattenAppend(ss, [s]);
    assert Flatten([s]) == s + Flatten([]);
  }

  // ---------------------------------------------------------------------------
  // Resource projector: outputResource

  /** The report's copy of one cost component, with unit, quantities and price through the same multiplier. */
  function OutputCostComponent(c: Schema.CostComponent, env: Schema.Collaborators): CostComponent
  {
    CostComponent(
      c.name,
      env.unitWithMultiplier(c),
      env.unitMultiplierHourlyQuantity(c),
      env.unitMultiplierMonthlyQuantity(c),
      env.unitMultiplierPrice(c),
      c.hourlyCost,
      c.monthlyCost)
  }

  /** The report's copy of a whole resource tree. */
  function Projected(r: Schema.Resource, env: Schema.Collaborators): Resource
    decreases r
  {
    Resource(
      r.name,
      r.hourlyCost,
      r.monthlyCost,
      seq(|r.costComponents|, i requires 0 <= i < |r.costComponents| => OutputCostComponent(r.costComponents[i], env)),
      seq(|r.subResources|, i requires 0 <= i < |r.subResources| => Projected(r.subResources[i], env)))
  }

  /** `outputResource`: copies the cost components, then recurses into every sub-resource. */
  method OutputResource(r: Schema.Resource, env: Schema.Collaborators) returns (out: Resource)
    ensures out == Projected(r, env)
    decreases r
  {
    var comps: seq<CostComponent> := [];
    for k := 0 to |r.costComponents|
      invariant |comps| == k
      invariant forall i :: 0 <= i < k ==> comps[i] == OutputCostComponent(r.costComponents[i], env)
    {
      comps := comps + [OutputCostComponent(r.costComponents[k], env)];
    }
    var subresources: seq<Resource> := [];
    for k := 0 to |r.subResources|
      invariant |subresources| == k
      invariant forall i :: 0 <= i < k ==> subresources[i] == Projected(r.subResources[i], env)
    {
      var s := OutputResource(r.subResources[k], env);
      subresources := subresources + [s];
    }
    out := Resource(r.name, r.hourlyCost, r.monthlyCost, comps, subresources);
  }

  /** What a tree node shows in a pre-order walk: its name, costs, components and number of children. */
  datatype Node = Node(
    name: string,
    hourlyCost: Option<Decimal>,
    monthlyCost: Option<Decimal>,
    components: seq<(string, Option<Decimal>, Option<Decimal>)>,
    children: nat)

  /** Pre-order walk of a report resource; together with `children` it determines the tree's shape. */
  function Outline(r: Resource): seq<Node>
    decreases r
  {
    [Node(r.name, r.hourlyCost, r.monthlyCost,
          seq(|r.costComponents|, i requires 0 <= i < |r.costComponents| =>
            (r.costComponents[i].name, r.costComponents[i].hourlyCost, r.costComponents[i].monthlyCost)),
          |r.subResources|)]
    + Flatten(seq(|r.subResources|, i requires 0 <= i < |r.subResources| => Outline(r.subResources[i])))
  }

  /** The same walk over a priced input resource. */
  function SchemaOutline(r: Schema.Resource): seq<Node>
    decreases r
  {
    [Node(r.name, r.hourlyCost, r.monthlyCost,
          seq(|r.costComponents|, i requires 0 <= i < |r.costComponents| =>
            (r.costComponents[i].name, r.costComponents[i].hourlyCost, r.costComponents[i].monthlyCost)),
          |r.subResources|)]
    + Flatten(seq(|r.subResources|, i requires 0 <= i < |r.subResources| => SchemaOutline(r.subResources[i])))
  }

  /**
   * The projection is a structural copy: at every depth the same resources in
   * the same order, with the same names and costs and the same cost components
   * in the same order. Skipped sub-resources are copied like any other.
   */
  lemma {:induction false} ProjectionPreservesOutline(r: Schema.Resource, env: Schema.Collaborators)
    ensures Outline(Projected(r, env)) == SchemaOutline(r)
    decreases r
  {
    var p := Projected(r, env);
    assert seq(|p.costComponents|, i requires 0 <= i < |p.costComponents| =>
             (p.costComponents[i].name, p.costComponents[i].hourlyCost, p.costComponents[i].monthlyCost))
        == seq(|r.costComponents|, i requires 0 <= i < |r.costComponents| =>
             (r.costComponents[i].name, r.costComponents[i].hourlyCost, r.costComponents[i].monthlyCost));
    forall i | 0 <= i < |r.subResources|
      ensures Outline(p.subResources[i]) == SchemaOutline(r.subResources[i])
    {
      ProjectionPreservesOutline(r.subResources[i], env);
    }
    assert seq(|p.subResources|, i requires 0 <= i < |p.subResources| => Outline(p.subResources[i]))
        == seq(|r.subResources|, i requires 0 <= i < |r.subResources| => SchemaOutline(r.subResources[i]));
  }

  /** Field by field: the copied fields, and the sub-resources are the projections of the input's. */
  lemma ProjectionFields(r: Schema.Resource, env: Schema.Collaborators)
    ensures var p := Projected(r, env);
      && p.name == r.name && p.hourlyCost == r.hourlyCost && p.monthlyCost == r.monthlyCost
      && |p.costComponents| == |r.costComponents|
      && (forall i :: 0 <= i < |r.costComponents| ==>
            p.costComponents[i].name == r.costComponents[i].name
            && p.costComponents[i].hourlyCost == r.costComponents[i].hourlyCost
            && p.costComponents[i].monthlyCost == r.costComponents[i].monthlyCost
            && p.costComponents[i].unit == env.unitWithMultiplier(r.costComponents[i])
            && p.costComponents[i].hourlyQuantity == env.unitMultiplierHourlyQuantity(r.costComponents[i])
            && p.costComponents[i].monthlyQuantity == env.unitMultiplierMonthlyQuantity(r.costComponents[i])
            && p.costComponents[i].price == env.unitMultiplierPrice(r.costComponents[i]))
      && |p.subResources| == |r.subResources|
      && (forall i :: 0 <= i < |r.subResources| ==> p.subResources[i] == Projected(r.subResources[i], env))
  {
  }

  // ---------------------------------------------------------------------------
  // Report builder: ToOutputFormat

  /** The resources the builder keeps: the non-skipped ones, in input order. */
  function NonSkipped(rs: seq<Schema.Resource>): seq<Schema.Resource>
  {
    if rs == [] then []
    else NonSkipped(rs[..|rs| - 1]) + (if rs[|rs| - 1].isSkipped then [] else [rs[|rs| - 1]])
  }

  function ProjectAll(rs: seq<Schema.Resource>, env: Schema.Collaborators): seq<Resource>
  {
    seq(|rs|, i requires 0 <= i < |rs| => Projected(rs[i], env))
  }

  function HourlyCostOf(r: Schema.Resource): Option<Decimal> { r.hourlyCost }

  function MonthlyCostOf(r: Schema.Resource): Option<Decimal> { r.monthlyCost }

  /** One cost of every resource, in order. */
  function Costs(rs: seq<Schema.Resource>, cost: Schema.Resource -> Option<Decimal>): seq<Option<Decimal>>
  {
    seq(|rs|, i requires 0 <= i < |rs| => cost(rs[i]))
  }

  /** The warnings a report carries for an advisory message: none for the empty message. */
  function Warnings(msg: string): seq<string>
  {
    if msg == "" then [] else [msg]
  }

  lemma {:induction false} NonSkippedAppend(a: seq<Schema.Resource>, b: seq<Schema.Resource>)
    ensures NonSkipped(a + b) == NonSkipped(a) + NonSkipped(b)
    decreases |b|
  {
    if b == [] {
      assert a + b == a;
    } else {
      var init, last := b[..|b| - 1], b[|b| - 1];
      assert (a + b)[..|a + b| - 1] == a + init;
      NonSkippedAppend(a, init);
    }
  }

  /** The builder keeps exactly the non-skipped resources. */
  lemma {:induction false} NonSkippedMembers(rs: seq<Schema.Resource>)
    ensures forall r :: r in NonSkipped(rs) <==> r in rs && !r.isSkipped
  {
    if rs != [] {
      var init := rs[..|rs| - 1];
      assert rs == init + [rs[|rs| - 1]];
      NonSkippedMembers(init);
    }
  }

  /** A skipped resource, wherever it stands, changes neither the report's resources nor its totals. */
  lemma SkippedIsIgnored(before: seq<Schema.Resource>, s: Schema.Resource, after: seq<Schema.Resource>)
    requires s.isSkipped
    ensures NonSkipped(before + [s] + after) == NonSkipped(before + after)
  {
    NonSkippedAppend(before + [s], after);
    NonSkippedAppend(before, [s]);
    NonSkippedAppend(before, after);
    assert NonSkipped([s]) == NonSkipped([]) + [];
  }

  lemma CostsSnoc(rs: seq<Schema.Resource>, r: Schema.Resource, cost: Schema.Resource -> Option<Decimal>)
    ensures SumOptional(Costs(rs + [r], cost)) == Accumulate(SumOptional(Costs(rs, cost)), cost(r))
  {
    assert Costs(rs + [r], cost)[..|rs|] == Costs(rs, cost);
  }

  lemma CostsAppend(a: seq<Schema.Resource>, b: seq<Schema.Resource>, cost: Schema.Resource -> Option<Decimal>)
    ensures Costs(a + b, cost) == Costs(a, cost) + Costs(b, cost)
  {
  }

  /** Reference definition: the sum of one cost over the non-skipped resources. */
  function Contributed(rs: seq<Schema.Resource>, cost: Schema.Resource -> Option<Decimal>): Decimal
  {
    if rs == [] then 0.0
    else (if rs[0].isSkipped then 0.0 else cost(rs[0]).GetOr(0.0)) + Contributed(rs[1..], cost)
  }

  /**
   * A builder total is nil exactly when no non-skipped resource has that cost;
   * otherwise it is the sum of the costs the non-skipped resources have.
   */
  lemma {:induction false} BuilderTotalMeaning(rs: seq<Schema.Resource>, cost: Schema.Resource -> Option<Decimal>)
    ensures SumOptional(Costs(NonSkipped(rs), cost)).None? <==> forall r :: r in rs && !r.isSkipped ==> cost(r).None?
    ensures SumOptional(Costs(NonSkipped(rs), cost)).Some? ==>
      SumOptional(Costs(NonSkipped(rs), cost)).value == Contributed(rs, cost)
  {
    var xs := Costs(NonSkipped(rs), cost);
    SumOptionalMeaning(xs);
    NonSkippedMembers(rs);
    assert AllNil(xs) <==> forall r :: r in rs && !r.isSkipped ==> cost(r).None? by {
      forall r | r in NonSkipped(rs) ensures cost(r) in xs {
        var i :| 0 <= i < |NonSkipped(rs)| && NonSkipped(rs)[i] == r;
        assert xs[i] == cost(r);
      }
    }
    ContributedIsSumPresent(rs, cost);
  }

  lemma {:induction false} ContributedIsSumPresent(rs: seq<Schema.Resource>, cost: Schema.Resource -> Option<Decimal>)
    ensures SumPresent(Costs(NonSkipped(rs), cost)) == Contributed(rs, cost)
  {
    if rs != [] {
      var head, tail := [rs[0]], rs[1..];
      assert rs == head + tail;
      NonSkippedAppend(head, tail);
      CostsAppend(NonSkipped(head), NonSkipped(tail), cost);
      SumPresentAppend(Costs(NonSkipped(head), cost), Costs(NonSkipped(tail), cost));
      assert NonSkipped(head) == NonSkipped([]) + (if rs[0].isSkipped then [] else [rs[0]]);
      ContributedIsSumPresent(tail, cost);
    }
  }

  /** One more input resource is kept exactly when it is not skipped. */
  lemma NonSkippedSnoc(rs: seq<Schema.Resource>, k: nat)
    requires k < |rs|
    ensures NonSkipped(rs[..k + 1]) == NonSkipped(rs[..k]) + (if rs[k].isSkipped then [] else [rs[k]])
  {
    assert rs[..k + 1][..k] == rs[..k];
  }

  /**
   * `ToOutputFormat`: projects the non-skipped resources in order, accumulates
   * the two totals over them, and attaches the advisory computed from ALL the
   * resources, skipped ones included. The ghost `order` is the order in which
   * the advisory's itemized list visited the unsupported-type map.
   */
  method ToOutputFormat(resources: seq<Schema.Resource>, env: Schema.Collaborators, showSkipped: bool, now: Timestamp)
    returns (out: Root, ghost order: seq<string>)
    ensures out.resources == ProjectAll(NonSkipped(resources), env)
    ensures out.totalHourlyCost == SumOptional(Costs(NonSkipped(resources), HourlyCostOf))
    ensures out.totalMonthlyCost == SumOptional(Costs(NonSkipped(resources), MonthlyCostOf))
    ensures out.timeGenerated == now
    ensures var summary := env.generateResourceSummary(resources);
      && DetailsOrder(summary, showSkipped, order)
      && out.warnings == Warnings(MessageText(summary, env.hasSupportedProvider, showSkipped, order))
    ensures |out.warnings| <= 1
    ensures out.warnings == [] <==> env.generateResourceSummary(resources).totalUnsupported == 0
  {
    var arr: seq<Resource> := [];
    var totalHourlyCost: Option<Decimal> := None;
    var totalMonthlyCost: Option<Decimal> := None;

    ghost var kept: seq<Schema.Resource> := [];
    for k := 0 to |resources|
      invariant kept == NonSkipped(resources[..k])
      invariant arr == ProjectAll(kept, env)
      invariant totalHourlyCost == SumOptional(Costs(kept, HourlyCostOf))
      invariant totalMonthlyCost == SumOptional(Costs(kept, MonthlyCostOf))
    {
      var r := resources[k];
      NonSkippedSnoc(resources, k);
      if !r.isSkipped {
        var projected := OutputResource(r, env);
        ProjectAllAppend(kept, [r], env);
        arr := arr + [projected];

        CostsSnoc(kept, r, HourlyCostOf);
        if r.hourlyCost.Some? {
          if totalHourlyCost.None? {
            totalHourlyCost := DecimalPtr(0.0);
          }
          totalHourlyCost := DecimalPtr(totalHourlyCost.value + r.hourlyCost.value);
        }
        CostsSnoc(kept, r, MonthlyCostOf);
        if r.monthlyCost.Some? {
          if totalMonthlyCost.None? {
            totalMonthlyCost := DecimalPtr(0.0);
          }
          totalMonthlyCost := DecimalPtr(totalMonthlyCost.value + r.monthlyCost.value);
        }
        kept := kept + [r];
      }
    }
    assert resources[..|resources|] == resources;

    var msg;
    msg, order := SkippedResourcesMessage(resources, env, showSkipped);
    var warnings: seq<string> := [];
    if msg != "" {
      warnings := warnings + [msg];
    }
    out := Root(arr, totalHourlyCost, totalMonthlyCost, now, warnings);
  }

  // ---------------------------------------------------------------------------
  // Report combiner: Combine and sortResources

  /** All the reports' resources, report by report, each report's in its own order. */
  function ConcatResources(outs: seq<Root>): seq<Resource>
  {
    if outs == [] then [] else ConcatResources(outs[..|outs| - 1]) + outs[|outs| - 1].resources
  }

  /** The sum of the reports' resource counts. */
  function ResourceCount(outs: seq<Root>): nat
  {
    if outs == [] then 0 else |outs[0].resources| + ResourceCount(outs[1..])
  }

  function TotalHourlyOf(o: Root): Option<Decimal> { o.totalHourlyCost }

  function TotalMonthlyOf(o: Root): Option<Decimal> { o.totalMonthlyCost }

  /** One total of every report, in order. */
  function ReportTotals(outs: seq<Root>, total: Root -> Option<Decimal>): seq<Option<Decimal>>
  {
    seq(|outs|, i requires 0 <= i < |outs| => total(outs[i]))
  }

  /** Non-decreasing by name under Go's string order. */
  predicate SortedByName(rs: seq<Resource>)
  {
    forall p, q :: 0 <= p < q < |rs| ==> !Less(rs[q].name, rs[p].name)
  }

  /**
   * `sortResources`: sorts the resources by name in place. Go's `sort.Slice`
   * is not stable, so nothing is promised about the order of equal names;
   * an insertion sort stands in for its algorithm.
   */
  method SortResources(a: array<Resource>)
    modifies a
    ensures SortedByName(a[..])
    ensures multiset(a[..]) == multiset(old(a[..]))
  {
    for i := 0 to a.Length
      invariant SortedPrefix(a[..], i)
      invariant multiset(a[..]) == multiset(old(a[..]))
    {
      InsertionStart(a[..], i);
      var j := i;
      while j > 0 && Less(a[j].name, a[j - 1].name)
        invariant Inserting(a[..], i, j)
        invariant multiset(a[..]) == multiset(old(a[..]))
      {
        ghost var before := a[..];
        a[j - 1], a[j] := a[j], a[j - 1];
        assert a[..] == Swapped(before, j - 1, j);
        InsertionStep(before, i, j);
        j := j - 1;
      }
      InsertionDone(a[..], i, j);
    }
  }

  /** The first `n` elements of `s` are in name order. */
  predicate SortedPrefix(s: seq<Resource>, n: nat)
    requires n <= |s|
  {
    forall p, q :: 0 <= p < q < n ==> !Less(s[q].name, s[p].name)
  }

  /**
   * The insertion invariant: element `j` is moving down through the sorted
   * prefix `s[..i + 1]`; without it the prefix is sorted, and everything
   * after it is strictly greater.
   */
  predicate Inserting(s: seq<Resource>, i: nat, j: nat)
  {
    && j <= i < |s|
    && (forall p, q :: 0 <= p < q <= i && p != j && q != j ==> !Less(s[q].name, s[p].name))
    && (forall q :: j < q <= i ==> Less(s[j].name, s[q].name))
  }

  function Swapped(s: seq<Resource>, x: nat, y: nat): (t: seq<Resource>)
    requires x < |s| && y < |s|
    ensures |t| == |s| && t[x] == s[y] && t[y] == s[x]
    ensures forall k :: 0 <= k < |s| && k != x && k != y ==> t[k] == s[k]
  {
    s[x := s[y]][y := s[x]]
  }

  lemma InsertionStart(s: seq<Resource>, i: nat)
    requires i < |s| && SortedPrefix(s, i)
    ensures Inserting(s, i, i)
  {
  }

  lemma InsertionStep(s: seq<Resource>, i: nat, j: nat)
    requires Inserting(s, i, j) && 0 < j && Less(s[j].name, s[j - 1].name)
    ensures Inserting(Swapped(s, j - 1, j), i, j - 1)
    ensures multiset(Swapped(s, j - 1, j)) == multiset(s)
  {
    assert Swapped(s, j - 1, j) == s[j - 1 := s[j]][j := s[j - 1]];
  }

  lemma InsertionDone(s: seq<Resource>, i: nat, j: nat)
    requires Inserting(s, i, j) && (j == 0 || !Less(s[j].name, s[j - 1].name))
    ensures SortedPrefix(s, i + 1)
  {
    forall p, q | 0 <= p < q <= i ensures !Less(s[q].name, s[p].name) {
      if q == j && p < j - 1 {
        NotLessTransitive(s[p].name, s[j - 1].name, s[j].name);
      } else if p == j {
        LessAsymmetric(s[j].name, s[q].name);
      }
    }
  }

  /**
   * `Combine`: concatenates every report's resources, accumulates the totals from
   * each report's own totals, sorts the resources by name and drops all warnings.
   */
  method Combine(outs: seq<Root>, now: Timestamp) returns (combined: Root)
    ensures multiset(combined.resources) == multiset(ConcatResources(outs))
    ensures |combined.resources| == ResourceCount(outs)
    ensures SortedByName(combined.resources)
    ensures combined.totalHourlyCost == SumOptional(ReportTotals(outs, TotalHourlyOf))
    ensures combined.totalMonthlyCost == SumOptional(ReportTotals(outs, TotalMonthlyOf))
    ensures combined.timeGenerated == now
    ensures combined.warnings == []
  {
    var resources: seq<Resource> := [];
    var totalHourlyCost: Option<Decimal> := None;
    var totalMonthlyCost: Option<Decimal> := None;

    for k := 0 to |outs|
      invariant resources == ConcatResources(outs[..k])
      invariant totalHourlyCost == SumOptional(ReportTotals(outs[..k], TotalHourlyOf))
      invariant totalMonthlyCost == SumOptional(ReportTotals(outs[..k], TotalMonthlyOf))
    {
      var o := outs[k];
      assert outs[..k + 1][..k] == outs[..k];
      ReportTotalsSnoc(outs[..k], o, TotalHourlyOf);
      ReportTotalsSnoc(outs[..k], o, TotalMonthlyOf);
      assert outs[..k] + [o] == outs[..k + 1];
      resources := resources + o.resources;

      if o.totalHourlyCost.Some? {
        if totalHourlyCost.None? {
          totalHourlyCost := DecimalPtr(0.0);
        }
        totalHourlyCost := DecimalPtr(totalHourlyCost.value + o.totalHourlyCost.value);
      }
      if o.totalMonthlyCost.Some? {
        if totalMonthlyCost.None? {
          totalMonthlyCost := DecimalPtr(0.0);
        }
        totalMonthlyCost := DecimalPtr(totalMonthlyCost.value + o.totalMonthlyCost.value);
      }
    }
    assert outs[..|outs|] == outs;

    var shared := new Resource[|resources|](i requires 0 <= i < |resources| => resources[i]);
    assert shared[..] == resources;
    SortResources(shared);
    ConcatResourcesLength(outs);

    combined := Root(shared[..], totalHourlyCost, totalMonthlyCost, now, []);
  }

  lemma ReportTotalsSnoc(outs: seq<Root>, o: Root, total: Root -> Option<Decimal>)
    ensures SumOptional(ReportTotals(outs + [o], total)) == Accumulate(SumOptional(ReportTotals(outs, total)), total(o))
  {
    assert ReportTotals(outs + [o], total)[..|outs|] == ReportTotals(outs, total);
  }

  lemma {:induction false} ConcatResourcesLength(outs: seq<Root>)
    ensures |ConcatResources(outs)| == ResourceCount(outs)
    decreases |outs|
  {
    if outs != [] {
      var init := outs[..|outs| - 1];
      ConcatResourcesLength(init);
      ResourceCountSnoc(init, outs[|outs| - 1]);
      assert init + [outs[|outs| - 1]] == outs;
    }
  }

  lemma {:induction false} ResourceCountSnoc(outs: seq<Root>, o: Root)
    ensures ResourceCount(outs + [o]) == ResourceCount(outs) + |o.resources|
  {
    if outs != [] {
      assert (outs + [o])[1..] == outs[1..] + [o];
      ResourceCountSnoc(outs[1..], o);
    }
  }

  /**
   * A combined total is nil exactly when every input report's total is nil,
   * and otherwise the sum of the non-nil ones; zero reports give nil totals.
   */
  lemma CombinedTotalMeaning(outs: seq<Root>, total: Root -> Option<Decimal>)
    ensures SumOptional(ReportTotals(outs, total)).None? <==> forall o :: o in outs ==> total(o).None?
    ensures SumOptional(ReportTotals(outs, total)).Some? ==>
      SumOptional(ReportTotals(outs, total)).value == SumPresent(ReportTotals(outs, total))
    ensures outs == [] ==> SumOptional(ReportTotals(outs, total)).None?
  {
    var xs := ReportTotals(outs, total);
    SumOptionalMeaning(xs);
    assert AllNil(xs) <==> forall o :: o in outs ==> total(o).None? by {
      forall o | o in outs ensures total(o) in xs {
        var i :| 0 <= i < |outs| && outs[i] == o;
        assert xs[i] == total(o);
      }
    }
  }

  /** The combined totals do not depend on the order in which the reports are given. */
  lemma CombinedTotalOrderIndependent(outs: seq<Root>, others: seq<Root>, total: Root -> Option<Decimal>)
    requires multiset(outs) == multiset(others)
    ensures SumOptional(ReportTotals(outs, total)) == SumOptional(ReportTotals(others, total))
  {
    MultisetMapped(outs, others, total);
    SumOptionalPermutation(ReportTotals(outs, total), ReportTotals(others, total));
  }

  lemma ReportTotalsAppend(a: seq<Root>, b: seq<Root>, total: Root -> Option<Decimal>)
    ensures ReportTotals(a + b, total) == ReportTotals(a, total) + ReportTotals(b, total)
  {
  }

  lemma {:induction false} MultisetMapped(outs: seq<Root>, others: seq<Root>, total: Root -> Option<Decimal>)
    requires multiset(outs) == multiset(others)
    ensures multiset(ReportTotals(outs, total)) == multiset(ReportTotals(others, total))
    decreases |outs|
  {
    if outs == [] {
      assert |others| == |multiset(others)| == 0;
    } else {
      var o := outs[0];
      assert o in multiset(others);
      var j :| 0 <= j < |others| && others[j] == o;
      var rest := others[..j] + others[j + 1..];
      MultisetRemove(others, j);
      assert multiset(outs) == multiset{o} + multiset(outs[1..]) by {
        assert outs == [o] + outs[1..];
      }
      assert multiset(rest) == multiset(others) - multiset{o};
      assert multiset(outs[1..]) == multiset(outs) - multiset{o};
      MultisetMapped(outs[1..], rest, total);
      ReportTotalsRemove(outs, 0, total);
      assert outs[..0] + outs[1..] == outs[1..];
      ReportTotalsRemove(others, j, total);
    }
  }

  lemma MultisetRemove<T>(xs: seq<T>, j: nat)
    requires j < |xs|
    ensures multiset(xs) == multiset(xs[..j] + xs[j + 1..]) + multiset{xs[j]}
  {
    assert xs == xs[..j] + [xs[j]] + xs[j + 1..];
  }

  /** Taking one report out takes its total out of the multiset of totals. */
  lemma ReportTotalsRemove(others: seq<Root>, j: nat, total: Root -> Option<Decimal>)
    requires j < |others|
    ensures multiset(ReportTotals(others, total))
      == multiset(ReportTotals(others[..j] + others[j + 1..], total)) + multiset{total(others[j])}
  {
    var left, right := others[..j], others[j + 1..];
    assert others == left + [others[j]] + right;
    ReportTotalsAppend(left + [others[j]], right, total);
    ReportTotalsAppend(left, [others[j]], total);
    ReportTotalsAppend(left, right, total);
    assert ReportTotals([others[j]], total) == [total(others[j])];
  }

  /** Combining a single report keeps its resources (up to order) and its totals. */
  lemma CombineSingle(r: Root)
    ensures ConcatResources([r]) == r.resources
    ensures ResourceCount([r]) == |r.resources|
    ensures SumOptional(ReportTotals([r], TotalHourlyOf)) == r.totalHourlyCost
    ensures SumOptional(ReportTotals([r], TotalMonthlyOf)) == r.totalMonthlyCost
  {
    assert [r][..0] == [];
    assert [r][1..] == [];
    ReportTotalsSnoc([], r, TotalHourlyOf);
    ReportTotalsSnoc([], r, TotalMonthlyOf);
    assert [] + [r] == [r];
    assert ReportTotals([], TotalHourlyOf) == [];
    assert ReportTotals([], TotalMonthlyOf) == [];
  }

  /**
   * Building reports from groups of resources and combining them gives the
   * resources (up to the final sort) and the totals of one report built from
   * all the groups together.
   */
  lemma {:induction false} CombineOfBuilds(groups: seq<seq<Schema.Resource>>, outs: seq<Root>, env: Schema.Collaborators)
    requires |outs| == |groups|
    requires forall i :: 0 <= i < |outs| ==>
      && outs[i].resources == ProjectAll(NonSkipped(groups[i]), env)
      && outs[i].totalHourlyCost == SumOptional(Costs(NonSkipped(groups[i]), HourlyCostOf))
      && outs[i].totalMonthlyCost == SumOptional(Costs(NonSkipped(groups[i]), MonthlyCostOf))
    ensures ConcatResources(outs) == ProjectAll(NonSkipped(Flatten(groups)), env)
    ensures SumOptional(ReportTotals(outs, TotalHourlyOf)) == SumOptional(Costs(NonSkipped(Flatten(groups)), HourlyCostOf))
    ensures SumOptional(ReportTotals(outs, TotalMonthlyOf)) == SumOptional(Costs(NonSkipped(Flatten(groups)), MonthlyCostOf))
  {
    CombinedResourcesOfBuilds(groups, outs, env);
    CombinedTotalOfBuilds(groups, outs, HourlyCostOf, TotalHourlyOf);
    CombinedTotalOfBuilds(groups, outs, MonthlyCostOf, TotalMonthlyOf);
  }

  lemma {:induction false} CombinedResourcesOfBuilds(groups: seq<seq<Schema.Resource>>, outs: seq<Root>, env: Schema.Collaborators)
    requires |outs| == |groups|
    requires forall i :: 0 <= i < |outs| ==> outs[i].resources == ProjectAll(NonSkipped(groups[i]), env)
    ensures ConcatResources(outs) == ProjectAll(NonSkipped(Flatten(groups)), env)
    decreases |outs|
  {
    if outs != [] {
      var n := |outs|;
      var init, last := groups[..n - 1], groups[n - 1];
      assert groups == init + [last];
      CombinedResourcesOfBuilds(init, outs[..n - 1], env);
      FlattenSnoc(init, last);
      NonSkippedAppend(Flatten(init), last);
      ProjectAllAppend(NonSkipped(Flatten(init)), NonSkipped(last), env);
    }
  }

  lemma ProjectAllAppend(a: seq<Schema.Resource>, b: seq<Schema.Resource>, env: Schema.Collaborators)
    ensures ProjectAll(a + b, env) == ProjectAll(a, env) + ProjectAll(b, env)
  {
  }

  lemma {:induction false} CombinedTotalOfBuilds(groups: seq<seq<Schema.Resource>>, outs: seq<Root>,
                                                 cost: Schema.Resource -> Option<Decimal>, total: Root -> Option<Decimal>)
    requires |outs| == |groups|
    requires forall i :: 0 <= i < |outs| ==> total(outs[i]) == SumOptional(Costs(NonSkipped(groups[i]), cost))
    ensures SumOptional(ReportTotals(outs, total)) == SumOptional(Costs(NonSkipped(Flatten(groups)), cost))
    decreases |outs|
  {
    if outs != [] {
      var n := |outs|;
      var init, last := groups[..n - 1], groups[n - 1];
      assert groups == init + [last];
      CombinedTotalOfBuilds(init, outs[..n - 1], cost, total);
      FlattenSnoc(init, last);
      var a, b := NonSkipped(Flatten(init)), NonSkipped(last);
      NonSkippedAppend(Flatten(init), last);
      assert ReportTotals(outs, total)[..n - 1] == ReportTotals(outs[..n - 1], total);
      CostsAppend(a, b, cost);
      SumOptionalAppend(Costs(a, cost), Costs(b, cost));
    }
  }

  // ---------------------------------------------------------------------------
  // Warning summarizer: skippedResourcesMessage

  /** The wording after the count, singular or plural, and the documentation link after it. */
  const SingularWording := " resource type couldn't be estimated as Infracost doesn't support it yet"
  const PluralWording := " resource types couldn't be estimated as Infracost doesn't support them yet"
  const DocsLink := " (https://www.infracost.io/docs/supported_resources)"

  /** The literal the source writes for a count of one, and the text after `%d` in the general case. */
  const SingularHeadline := "1" + SingularWording + DocsLink
  const PluralHeadlineTail := PluralWording + DocsLink

  const DetailsFollow := ".\n"
  const RerunHint := ", re-run with --show-skipped to see the list.\n"
  const ContactLine := "We're continually adding new resources, please email hello@infracost.io if you'd like us to prioritize your list."

  /** The first sentence of the advisory for `count` supported-provider types. */
  function Headline(count: nat): string
  {
    if count == 1 then SingularHeadline else IntToString(count) + PluralHeadlineTail
  }

  function SupportedAmong(types: set<string>, hasSupportedProvider: string -> bool): set<string>
  {
    set t | t in types && hasSupportedProvider(t)
  }

  /** The unsupported types that some provider recognizes: the only ones the advisory talks about. */
  function SupportedTypes(counts: map<string, int>, hasSupportedProvider: string -> bool): set<string>
  {
    SupportedAmong(counts.Keys, hasSupportedProvider)
  }

  function CountOf(counts: map<string, int>, t: string): int
  {
    if t in counts then counts[t] else 0
  }

  /** One line of the itemized list. */
  function ItemLine(count: int, rType: string): string
  {
    "\n" + IntToString(count) + " x " + rType
  }

  /** The itemized list when the map is visited in `order`. */
  function Itemized(order: seq<string>, counts: map<string, int>, hasSupportedProvider: string -> bool): string
  {
    if order == [] then ""
    else
      var t := order[|order| - 1];
      Itemized(order[..|order| - 1], counts, hasSupportedProvider)
      + (if hasSupportedProvider(t) then ItemLine(CountOf(counts, t), t) else "")
  }

  /** `order` visits every key of `keys` exactly once. */
  ghost predicate IsIterationOrder(order: seq<string>, keys: set<string>)
  {
    multiset(order) == multiset(keys)
  }

  /** The itemized list is only produced, so only needs an order, when the summary is non-empty and details are on. */
  ghost predicate DetailsOrder(summary: Schema.ResourceSummary, showDetails: bool, order: seq<string>)
  {
    summary.totalUnsupported != 0 && showDetails ==> IsIterationOrder(order, summary.unsupportedCounts.Keys)
  }

  /** The advisory for `summary`, with the itemized list in `order`. */
  function MessageText(summary: Schema.ResourceSummary, hasSupportedProvider: string -> bool, showDetails: bool, order: seq<string>): string
  {
    if summary.totalUnsupported == 0 then ""
    else
      var headline := Headline(|SupportedTypes(summary.unsupportedCounts, hasSupportedProvider)|);
      if showDetails then headline + DetailsFollow + ContactLine + Itemized(order, summary.unsupportedCounts, hasSupportedProvider)
      else headline + RerunHint + ContactLine
  }

  /**
   * `skippedResourcesMessage`: counts the unsupported types with a supported
   * provider, writes the headline, the call to action and the contact line,
   * and with details on appends one line per such type. Go visits the map in
   * an unspecified order; each visit here picks any key not yet visited, and
   * the ghost `order` records the visits of the itemizing loop.
   */
  method SkippedResourcesMessage(resources: seq<Schema.Resource>, env: Schema.Collaborators, showDetails: bool)
    returns (message: string, ghost order: seq<string>)
    ensures DetailsOrder(env.generateResourceSummary(resources), showDetails, order)
    ensures message == MessageText(env.generateResourceSummary(resources), env.hasSupportedProvider, showDetails, order)
    ensures message == "" <==> env.generateResourceSummary(resources).totalUnsupported == 0
  {
    var summary := env.generateResourceSummary(resources);
    order := [];
    if summary.totalUnsupported == 0 {
      return "", order;
    }

    var supportedTypeCount := 0;
    var unvisited := summary.unsupportedCounts.Keys;
    ghost var visited: set<string> := {};
    while unvisited != {}
      invariant visited + unvisited == summary.unsupportedCounts.Keys
      invariant visited !! unvisited
      invariant supportedTypeCount == |SupportedAmong(visited, env.hasSupportedProvider)|
      decreases |unvisited|
    {
      var rType :| rType in unvisited;
      SupportedAmongInsert(visited, rType, env.hasSupportedProvider);
      if env.hasSupportedProvider(rType) {
        supportedTypeCount := supportedTypeCount + 1;
      }
      unvisited := unvisited - {rType};
      visited := visited + {rType};
    }
    assert visited == summary.unsupportedCounts.Keys;

    message := IntToString(supportedTypeCount) + PluralHeadlineTail;
    if supportedTypeCount == 1 {
      message := SingularHeadline;
    }
    assert message == Headline(|SupportedTypes(summary.unsupportedCounts, env.hasSupportedProvider)|);

    if showDetails {
      message := message + DetailsFollow;
    } else {
      message := message + RerunHint;
    }

    message := message + ContactLine;

    if showDetails {
      message, order := ListSupportedTypes(message, summary.unsupportedCounts, env.hasSupportedProvider);
    }
    MessageEmptyIff(summary, env.hasSupportedProvider, showDetails, order);
  }

  /**
   * The details loop of `skippedResourcesMessage`: walks the unsupported-type
   * map in some order and appends one item line per type whose provider is
   * supported. The ghost `order` is the walk's order, a permutation of the keys.
   */
  method ListSupportedTypes(prefix: string, counts: map<string, int>, hasSupportedProvider: string -> bool)
    returns (message: string, ghost order: seq<string>)
    ensures IsIterationOrder(order, counts.Keys)
    ensures message == prefix + Itemized(order, counts, hasSupportedProvider)
    ensures StartsWith(message, prefix)
  {
    message := prefix;
    order := [];
    var remaining := counts.Keys;
    while remaining != {}
      invariant remaining <= counts.Keys
      invariant multiset(order) + multiset(remaining) == multiset(counts.Keys)
      invariant message == prefix + Itemized(order, counts, hasSupportedProvider)
      decreases |remaining|
    {
      var rType :| rType in remaining;
      ItemizedSnoc(order, rType, counts, hasSupportedProvider);
      MultisetOfSetRemove(remaining, rType);
      if hasSupportedProvider(rType) {
        ConcatAssociates(prefix, Itemized(order, counts, hasSupportedProvider), ItemLine(counts[rType], rType));
        message := message + ItemLine(counts[rType], rType);
      }
      order := order + [rType];
      remaining := remaining - {rType};
    }
    assert message[..|prefix|] == prefix;
  }

  lemma SupportedAmongInsert(types: set<string>, t: string, hasSupportedProvider: string -> bool)
    requires t !in types
    ensures |SupportedAmong(types + {t}, hasSupportedProvider)|
         == |SupportedAmong(types, hasSupportedProvider)| + (if hasSupportedProvider(t) then 1 else 0)
  {
    if hasSupportedProvider(t) {
      assert SupportedAmong(types + {t}, hasSupportedProvider) == SupportedAmong(types, hasSupportedProvider) + {t};
    } else {
      assert SupportedAmong(types + {t}, hasSupportedProvider) == SupportedAmong(types, hasSupportedProvider);
    }
  }

  lemma ItemizedSnoc(order: seq<string>, t: string, counts: map<string, int>, hasSupportedProvider: string -> bool)
    ensures Itemized(order + [t], counts, hasSupportedProvider)
         == Itemized(order, counts, hasSupportedProvider) + (if hasSupportedProvider(t) then ItemLine(CountOf(counts, t), t) else "")
  {
    assert (order + [t])[..|order|] == order;
  }

  /** Stated once so that the details loop need not rediscover it each iteration. */
  lemma ConcatAssociates(a: string, b: string, c: string)
    ensures (a + b) + c == a + (b + c)
  {
  }

  lemma MultisetOfSetRemove(s: set<string>, x: string)
    requires x in s
    ensures multiset(s) == multiset(s - {x}) + multiset{x}
  {
    assert s == (s - {x}) + {x};
  }

  /** The advisory is empty exactly when nothing was unsupported. */
  lemma MessageEmptyIff(summary: Schema.ResourceSummary, hasSupportedProvider: string -> bool, showDetails: bool, order: seq<string>)
    ensures MessageText(summary, hasSupportedProvider, showDetails, order) == "" <==> summary.totalUnsupported == 0
  {
  }

  /**
   * Both branches of the headline read as the numeral of the count followed by
   * the singular wording exactly when the count is 1 and the plural otherwise.
   */
  lemma HeadlineShape(count: nat)
    ensures Headline(count) == IntToString(count) + (if count == 1 then SingularWording else PluralWording) + DocsLink
    ensures ParseInt(IntToString(count)) == Some(count)
  {
    IntToStringRoundTrip(count);
    assert IntToString(1) == "1";
  }

  /**
   * A non-empty advisory starts with the number of unsupported types that have
   * a supported provider, in singular wording exactly when that number is 1,
   * and always contains the contact line.
   */
  lemma MessageHeadline(summary: Schema.ResourceSummary, hasSupportedProvider: string -> bool, showDetails: bool, order: seq<string>)
    requires summary.totalUnsupported != 0
    ensures var count := |SupportedTypes(summary.unsupportedCounts, hasSupportedProvider)|;
      && ParseInt(IntToString(count)) == Some(count)
      && StartsWith(MessageText(summary, hasSupportedProvider, showDetails, order),
                    IntToString(count) + (if count == 1 then SingularWording else PluralWording))
    ensures Contains(MessageText(summary, hasSupportedProvider, showDetails, order), ContactLine)
  {
    var count := |SupportedTypes(summary.unsupportedCounts, hasSupportedProvider)|;
    HeadlineShape(count);
    var lead := IntToString(count) + (if count == 1 then SingularWording else PluralWording);
    var h := Headline(count);
    assert lead[..|lead|] == lead;
    StartsWithAppend(lead, lead, DocsLink);
    var items := Itemized(order, summary.unsupportedCounts, hasSupportedProvider);
    if showDetails {
      StartsWithAppend(h, lead, DetailsFollow);
      StartsWithAppend(h + DetailsFollow, lead, ContactLine);
      StartsWithAppend(h + DetailsFollow + ContactLine, lead, items);
      ContainsMiddle(h + DetailsFollow, ContactLine, items);
    } else {
      StartsWithAppend(h, lead, RerunHint);
      StartsWithAppend(h + RerunHint, lead, ContactLine);
      ContainsSuffix(h + RerunHint, ContactLine);
    }
  }

  /** The types of `order` that have a supported provider, in visiting order. */
  function SupportedInOrder(order: seq<string>, hasSupportedProvider: string -> bool): seq<string>
  {
    if order == [] then []
    else
      SupportedInOrder(order[..|order| - 1], hasSupportedProvider)
      + (if hasSupportedProvider(order[|order| - 1]) then [order[|order| - 1]] else [])
  }

  /** The itemized lines for the types of `ts`, in order. */
  function ItemLines(ts: seq<string>, counts: map<string, int>): seq<string>
  {
    seq(|ts|, i requires 0 <= i < |ts| => ItemLine(CountOf(counts, ts[i]), ts[i]))
  }

  lemma {:induction false} ItemizedIsLines(order: seq<string>, counts: map<string, int>, hasSupportedProvider: string -> bool)
    ensures Itemized(order, counts, hasSupportedProvider) == Flatten(ItemLines(SupportedInOrder(order, hasSupportedProvider), counts))
  {
    if order != [] {
      var init, t := order[..|order| - 1], order[|order| - 1];
      ItemizedIsLines(init, counts, hasSupportedProvider);
      var s := SupportedInOrder(init, hasSupportedProvider);
      ItemizedSnoc(init, t, counts, hasSupportedProvider);
      assert order == init + [t];
      if hasSupportedProvider(t) {
        assert SupportedInOrder(order, hasSupportedProvider) == s + [t];
        assert ItemLines(s + [t], counts) == ItemLines(s, counts) + [ItemLine(CountOf(counts, t), t)];
        FlattenSnoc(ItemLines(s, counts), ItemLine(CountOf(counts, t), t));
      } else {
        assert SupportedInOrder(order, hasSupportedProvider) == s;
      }
    }
  }

  lemma {:induction false} SupportedInOrderCounts(order: seq<string>, hasSupportedProvider: string -> bool, t: string)
    ensures multiset(SupportedInOrder(order, hasSupportedProvider))[t]
         == if hasSupportedProvider(t) then multiset(order)[t] else 0
  {
    if order != [] {
      var init := order[..|order| - 1];
      assert order == init + [order[|order| - 1]];
      SupportedInOrderCounts(init, hasSupportedProvider, t);
    }
  }

  /**
   * With details on, the itemized list has exactly one line `"\n<count> x <type>"`
   * per unsupported type with a supported provider, whatever order the map
   * was visited in, so the number of lines equals the headline count.
   */
  lemma ItemizedOnePerSupportedType(summary: Schema.ResourceSummary, hasSupportedProvider: string -> bool, order: seq<string>)
    requires summary.totalUnsupported != 0
    requires IsIterationOrder(order, summary.unsupportedCounts.Keys)
    ensures var types := SupportedInOrder(order, hasSupportedProvider);
      && multiset(types) == multiset(SupportedTypes(summary.unsupportedCounts, hasSupportedProvider))
      && |types| == |SupportedTypes(summary.unsupportedCounts, hasSupportedProvider)|
      && MessageText(summary, hasSupportedProvider, true, order)
         == Headline(|types|) + DetailsFollow + ContactLine + Flatten(ItemLines(types, summary.unsupportedCounts))
  {
    var counts := summary.unsupportedCounts;
    var types := SupportedInOrder(order, hasSupportedProvider);
    var supported := SupportedTypes(counts, hasSupportedProvider);
    forall t ensures multiset(types)[t] == multiset(supported)[t] {
      SupportedInOrderCounts(order, hasSupportedProvider, t);
      assert multiset(order)[t] == multiset(counts.Keys)[t];
    }
    assert multiset(types) == multiset(supported);
    assert |types| == |multiset(types)| == |multiset(supported)| == |supported|;
    ItemizedIsLines(order, counts, hasSupportedProvider);
  }
}
