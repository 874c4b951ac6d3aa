/**
 * The query side of a budget-voting order: which voting rule is in force,
 * what the order totals, what it may allocate and whether it may be checked
 * out. Every query is a function of the order alone, so none of them can
 * change the order.
 */
module OrderQueries {
  import opened Wrappers
  import opened Budgets

  /** Whether a minimum number of projects is required on top of amount voting (`nil`, so false, without a budget). */
  predicate MinimumProjectsRule(o: Order)
  {
    o.budget.Some? && o.budget.value.settings.voteRuleMinimumBudgetProjectsEnabled
  }

  /** Whether project-selection voting is in force (`nil`, so false, without a budget). */
  predicate ProjectsRule(o: Order)
  {
    o.budget.Some? && o.budget.value.settings.voteRuleSelectedProjectsEnabled
  }

  /** Either of the two rules that bound the order by its number of projects. */
  predicate CountRuleActive(o: Order)
  {
    MinimumProjectsRule(o) || ProjectsRule(o)
  }

  predicate NonNegativeAmounts(ps: seq<Project>)
  {
    forall i :: 0 <= i < |ps| ==> ps[i].budgetAmount >= 0
  }

  /** The sum of the projects' amounts; the sum over no projects is 0. */
  function SumAmounts(ps: seq<Project>): (r: int)
    ensures ps == [] ==> r == 0
    ensures NonNegativeAmounts(ps) ==> r >= 0
    ensures NonNegativeAmounts(ps) ==> forall i :: 0 <= i < |ps| ==> ps[i].budgetAmount <= r
  {
    if ps == [] then 0 else ps[0].budgetAmount + SumAmounts(ps[1..])
  }

  /** `total_budget`: the sum of the selected projects' amounts. */
  function TotalBudget(o: Order): int
  {
    SumAmounts(o.projects)
  }

  /** `total_projects`: the number of selected projects. */
  function TotalProjects(o: Order): nat
  {
    |o.projects|
  }

  /** `total`: the count of projects under project-selection voting, their amount otherwise. */
  function Total(o: Order): int
  {
    if ProjectsRule(o) then TotalProjects(o) else TotalBudget(o)
  }

  /** `checked_out?` */
  predicate CheckedOut(o: Order)
  {
    o.checkedOutAt.Some?
  }

  /** `allocation_for`: what adding project `p` takes from the available allocation. */
  function AllocationFor(o: Order, p: Project): int
  {
    if ProjectsRule(o) then 1 else p.budgetAmount
  }

  /** The threshold percent of the budget total, or 0 when there is no budget or a count rule applies. */
  function MinimumBudget(o: Order): real
  {
    if o.budget.None? then 0.0
    else if CountRuleActive(o) then 0.0
    else
      var total := o.budget.value.totalBudget as real;
      var percent := o.budget.value.settings.voteThresholdPercent as real;
      total * (percent / 100.0)
  }

  /** The budget total, or 0 without a budget. */
  function MaximumBudget(o: Order): real
  {
    if o.budget.None? then 0.0 else o.budget.value.totalBudget as real
  }

  /**
   * The minimum number of projects to check out. The minimum-projects rule
   * takes precedence over project-selection voting when both are enabled.
   */
  function MinimumProjects(o: Order): int
  {
    if o.budget.None? then 0
    else if MinimumProjectsRule(o) then o.budget.value.settings.voteMinimumBudgetProjectsNumber
    else if ProjectsRule(o) then o.budget.value.settings.voteSelectedProjectsMinimum
    else 0
  }

  /** The maximum number of projects: absent without a budget, 0 when project-selection voting is off. */
  function MaximumProjects(o: Order): Option<int>
  {
    if o.budget.None? then None
    else if ProjectsRule(o) then Some(o.budget.value.settings.voteSelectedProjectsMaximum)
    else Some(0)
  }

  /** `available_allocation`: the maximum number of projects under project-selection voting, the budget total otherwise. */
  function AvailableAllocation(o: Order): real
  {
    if ProjectsRule(o) then MaximumProjects(o).value as real else MaximumBudget(o)
  }

  /** `can_checkout?`: the project count reaches its minimum under a count rule, the amount reaches its minimum otherwise. */
  predicate CanCheckout(o: Order)
  {
    if CountRuleActive(o) then TotalProjects(o) >= MinimumProjects(o)
    else TotalBudget(o) as real >= MinimumBudget(o)
  }

  /** The divisor `budget_percent` uses: the maximum number of projects, or the budget total. */
  function PercentBase(o: Order): real
    requires o.budget.Some?
  {
    if ProjectsRule(o) then o.budget.value.settings.voteSelectedProjectsMaximum as real
    else o.budget.value.totalBudget as real
  }

  /** `budget_percent`: how much of the available allocation the order uses, in percent. */
  function BudgetPercent(o: Order): (r: real)
    requires o.budget.Some? && PercentBase(o) != 0.0
    ensures r * AvailableAllocation(o) == 100.0 * (Total(o) as real)
  {
    (Total(o) as real / PercentBase(o)) * 100.0
  }

  /** The sum of what each project allocates: the reference definition of `total`. */
  function SumAllocations(o: Order, ps: seq<Project>): int
  {
    if ps == [] then 0 else AllocationFor(o, ps[0]) + SumAllocations(o, ps[1..])
  }

  lemma {:induction false} SumAmountsConcat(a: seq<Project>, b: seq<Project>)
    ensures SumAmounts(a + b) == SumAmounts(a) + SumAmounts(b)
  {
    if a == [] {
      assert a + b == b;
    } else {
      assert (a + b)[1..] == a[1..] + b;
      SumAmountsConcat(a[1..], b);
    }
  }

  lemma {:induction false} SumAmountsRemoveAt(ps: seq<Project>, i: nat)
    requires i < |ps|
    ensures SumAmounts(ps) == ps[i].budgetAmount + SumAmounts(ps[..i] + ps[i + 1..])
  {
    assert ps == ps[..i] + ([ps[i]] + ps[i + 1..]);
    SumAmountsConcat(ps[..i], [ps[i]] + ps[i + 1..]);
    SumAmountsConcat(ps[..i], ps[i + 1..]);
    assert ([ps[i]] + ps[i + 1..])[1..] == ps[i + 1..];
  }

  lemma MultisetRemoveAt(b: seq<Project>, j: nat)
    requires j < |b|
    ensures multiset(b[..j] + b[j + 1..]) == multiset(b) - multiset{b[j]}
  {
    assert b == b[..j] + [b[j]] + b[j + 1..];
    assert multiset(b) == multiset(b[..j]) + multiset{b[j]} + multiset(b[j + 1..]);
  }

  /** The order of the selected projects does not matter: equal multisets have equal sums. */
  lemma {:induction false} SumAmountsPermutation(a: seq<Project>, b: seq<Project>)
    requires multiset(a) == multiset(b)
    ensures SumAmounts(a) == SumAmounts(b)
  {
    if a == [] {
      assert |b| == |multiset(b)| == 0;
    } else {
      var j := IndexOf(b, a[0]);
      var rest := b[..j] + b[j + 1..];
      assert multiset(a[1..]) == multiset(rest) by {
        MultisetRemoveAt(b, j);
        assert a == [a[0]] + a[1..];
      }
      SumAmountsPermutation(a[1..], rest);
      SumAmountsRemoveAt(b, j);
    }
  }

  function IndexOf(b: seq<Project>, p: Project): (j: nat)
    requires p in multiset(b)
    ensures j < |b| && b[j] == p
  {
    if b[0] == p then 0 else IndexOf(b[1..], p) + 1
  }

  /** `total` is the sum of what each selected project allocates, under either voting rule. */
  lemma {:induction false} TotalIsSumOfAllocations(o: Order)
    ensures Total(o) == SumAllocations(o, o.projects)
  {
    SumAllocationsMatches(o, o.projects);
  }

  lemma {:induction false} SumAllocationsMatches(o: Order, ps: seq<Project>)
    ensures SumAllocations(o, ps) == if ProjectsRule(o) then |ps| else SumAmounts(ps)
  {
    if ps != [] {
      SumAllocationsMatches(o, ps[1..]);
    }
  }

  /** Adding a project raises `total` by exactly `allocation_for` that project. */
  lemma TotalAfterAdding(o: Order, p: Project)
    ensures Total(o.(projects := o.projects + [p])) == Total(o) + AllocationFor(o, p)
  {
    SumAmountsConcat(o.projects, [p]);
  }

  /** Removing a project lowers `total` by exactly `allocation_for` that project. */
  lemma TotalAfterRemoving(o: Order, i: nat)
    requires i < |o.projects|
    ensures Total(o.(projects := o.projects[..i] + o.projects[i + 1..])) == Total(o) - AllocationFor(o, o.projects[i])
  {
    SumAmountsRemoveAt(o.projects, i);
  }

  /** `total` does not depend on the order in which projects were selected. */
  lemma TotalIgnoresSelectionOrder(o: Order, ps: seq<Project>)
    requires multiset(o.projects) == multiset(ps)
    ensures Total(o.(projects := ps)) == Total(o)
  {
    SumAmountsPermutation(o.projects, ps);
    assert |o.projects| == |multiset(o.projects)| == |multiset(ps)| == |ps|;
  }

  /** The same order against the same budget with other voting settings. */
  function WithSettings(o: Order, settings: Settings): Order
    requires o.budget.Some?
  {
    o.(budget := Some(o.budget.value.(settings := settings)))
  }

  /**
   * When both count rules are on, the minimum-projects rule decides: the
   * selection minimum changes neither `minimum_projects` nor `can_checkout?`.
   */
  lemma {:induction false} SelectionMinimumIgnoredUnderMinimumProjectsRule(o: Order, minimum: int)
    requires MinimumProjectsRule(o)
    ensures var o' := WithSettings(o, o.budget.value.settings.(voteSelectedProjectsMinimum := minimum));
      MinimumProjects(o') == MinimumProjects(o) && CanCheckout(o') == CanCheckout(o)
  {
  }

  /** Under project-selection voting alone, `minimum_projects` is the selection minimum, whatever it is set to. */
  lemma {:induction false} SelectionMinimumUsedUnderSelectionRuleAlone(o: Order, minimum: int)
    requires ProjectsRule(o) && !MinimumProjectsRule(o)
    ensures var o' := WithSettings(o, o.budget.value.settings.(voteSelectedProjectsMinimum := minimum));
      MinimumProjects(o') == minimum && (CanCheckout(o') <==> TotalProjects(o) >= minimum)
  {
  }

  /** With the minimum-projects rule off, its number changes neither `minimum_projects` nor `can_checkout?`. */
  lemma {:induction false} MinimumProjectsNumberIgnoredWhenRuleOff(o: Order, number: int)
    requires o.budget.Some? && !MinimumProjectsRule(o)
    ensures var o' := WithSettings(o, o.budget.value.settings.(voteMinimumBudgetProjectsNumber := number));
      MinimumProjects(o') == MinimumProjects(o) && CanCheckout(o') == CanCheckout(o)
  {
  }

  /** Under either count rule, the threshold percent plays no part: `minimum_budget` stays 0. */
  lemma {:induction false} ThresholdIgnoredUnderCountRule(o: Order, percent: int)
    requires CountRuleActive(o)
    ensures var o' := WithSettings(o, o.budget.value.settings.(voteThresholdPercent := percent));
      MinimumBudget(o') == 0.0 && CanCheckout(o') == CanCheckout(o)
  {
  }

  /** With a threshold between 0 and 100 percent, the amount minimum never exceeds the amount maximum. */
  lemma MinimumBudgetWithinMaximum(o: Order)
    requires o.budget.Some? && o.budget.value.totalBudget >= 0
    requires 0 <= o.budget.value.settings.voteThresholdPercent <= 100
    ensures 0.0 <= MinimumBudget(o) <= MaximumBudget(o)
  {
    var total := o.budget.value.totalBudget as real;
    var percent := o.budget.value.settings.voteThresholdPercent as real;
    var lo, hi := MinimumBudget(o), MaximumBudget(o);
    assert hi == total;
    if CountRuleActive(o) {
      assert lo == 0.0;
    } else {
      assert lo == total * (percent / 100.0);
      FractionWithinWhole(total, percent);
    }
  }

  lemma FractionWithinWhole(total: real, percent: real)
    requires total >= 0.0 && 0.0 <= percent <= 100.0
    ensures 0.0 <= total * (percent / 100.0) <= total
  {
    var fraction := percent / 100.0;
    assert 0.0 <= fraction <= 1.0;
    assert total * fraction <= total * 1.0;
  }

  /** With a positive base, `budget_percent` is at most 100 exactly when the order is within its available allocation. */
  lemma BudgetPercentAtMostHundred(o: Order)
    requires o.budget.Some? && PercentBase(o) > 0.0
    ensures BudgetPercent(o) <= 100.0 <==> Total(o) as real <= AvailableAllocation(o)
  {
    assert AvailableAllocation(o) == PercentBase(o);
    ScaledAtMostHundred(BudgetPercent(o), AvailableAllocation(o), Total(o) as real);
  }

  lemma ScaledAtMostHundred(percent: real, base: real, amount: real)
    requires base > 0.0 && percent * base == 100.0 * amount
    ensures percent <= 100.0 <==> amount <= base
  {
    if percent <= 100.0 {
      assert percent * base <= 100.0 * base;
    } else {
      assert percent * base > 100.0 * base;
    }
  }
}
