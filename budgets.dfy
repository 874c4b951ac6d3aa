/**
 * The records a budget-voting order reads. They are read-only to the order:
 * the order never changes its budget, its settings or its user.
 */
module Budgets {
  import opened Wrappers

  /** An organisation (tenant), identified by its record id. */
  datatype Organization = Organization(id: nat)

  /** The component a budget belongs to; its organisation may be missing. */
  datatype Component = Component(organization: Option<Organization>)

  /** The budget component's voting settings. */
  datatype Settings = Settings(
    voteThresholdPercent: int,
    voteRuleMinimumBudgetProjectsEnabled: bool,
    voteMinimumBudgetProjectsNumber: int,
    voteRuleSelectedProjectsEnabled: bool,
    voteSelectedProjectsMinimum: int,
    voteSelectedProjectsMaximum: int)

  /** A budget: the total amount to share out, its settings and its component. */
  datatype Budget = Budget(totalBudget: int, settings: Settings, component: Option<Component>)

  /** The user placing an order, with the organisation they belong to. */
  datatype User = User(organization: Option<Organization>)

  /** A project that can be selected; its amount is the project's `budget_amount`. */
  datatype Project = Project(budgetAmount: int)

  /**
   * One user's selection of projects within one budget. The user and the budget
   * may be missing, as the order's own validations allow for; `checkedOutAt` is
   * the checkout timestamp, absent while the order is pending.
   */
  datatype Order = Order(
    user: Option<User>,
    budget: Option<Budget>,
    projects: seq<Project>,
    checkedOutAt: Option<nat>)
}
