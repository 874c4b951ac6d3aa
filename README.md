# Budget-voting order rules (Decidim budgets)

This project models the rule engine of a Decidim budget-voting **order**: one
user's selection of projects within one budget. The budget's settings pick one
of two voting rules:

- **amount voting**: the sum of the selected projects' amounts must stay
  within the budget total (the maximum) and, at checkout, reach a threshold
  percent of it (the minimum);
- **project-selection voting**: every project counts as 1, and the number of
  selected projects must stay within a configured maximum and, at checkout,
  reach a configured minimum.

A third setting, the **minimum-projects rule**, adds a minimum project count on
top of amount voting; it then replaces the amount minimum, which drops to 0,
and it takes precedence over the selection rule's minimum.

Entities are values (module `Budgets`). Every query of the order is a
function of the order (module `OrderQueries`), so none of them can change it.
All are total except `BudgetPercent` and its divisor `PercentBase`, which
need a budget, and `BudgetPercent` also needs a non-zero divisor.
Each validator is a function returning the errors it adds, none or one
(module `OrderValidation`). `Validators` names them in declaration order,
`RunValidators` runs them in that order collecting their errors, `Errors` is
that run over every validator, and `Valid` holds when the list is empty. Absent associations (Ruby `nil`) are
`Option` values. The two rule predicates are false without a budget, as
`nil` is falsy in the source.

Source method to Dafny member, all in `decidim-budgets/app/models/decidim/budgets/order.rb`:
`available_allocation` → `AvailableAllocation`, `allocation_for` → `AllocationFor`,
`total_budget` → `TotalBudget` (over `SumAmounts`), `total_projects` → `TotalProjects`,
`total` → `Total`, `checked_out?` → `CheckedOut`, `can_checkout?` → `CanCheckout`,
`budget_percent` → `BudgetPercent`, `minimum_budget` → `MinimumBudget`,
`maximum_budget` → `MaximumBudget`, `minimum_projects_rule?` → `MinimumProjectsRule`,
`projects_rule?` → `ProjectsRule`, `minimum_projects` → `MinimumProjects`,
`maximum_projects` → `MaximumProjects`, the `validates` declarations → `BudgetPresence`,
`TotalBudgetMinimum`, `TotalBudgetMaximum`, `TotalProjectsMinimum`, `TotalProjectsMaximum`,
`user_belongs_to_organization` → `UserBelongsToOrganization`,
`reach_minimum_projects` → `ReachMinimumProjects`, `valid?` → `Valid`.

Points where the model reads the code closely:

- The minimum project count used by `can_checkout?` and `reach_minimum_projects`
  is `minimum_projects`. When both count rules are on, that is
  `vote_minimum_budget_projects_number`, not the selection minimum.
- The organisation check is skipped when the user or the budget's organisation is
  missing. A user whose own organisation is missing is rejected, because it
  differs from a present one.
- The project-count minimum (lines 30-33) is declared inside the
  `with_options if: :projects_rule?` block with its own `if: :checked_out?`.
  When Rails merges the block's options into the declaration, the inner `if:`
  replaces the outer one. As written, the validation therefore runs on every
  checked-out order, not only under selection voting. `TotalProjectsMinimum`
  models it that way, and `Errors` uses it. With no count rule on,
  `minimum_projects` is 0 and the validation never fails. Under the minimum-projects
  rule alone it fails together with `reach_minimum_projects`. See "## Findings".
- Under the minimum-projects rule alone, the amount minimum is 0, but its
  validation still runs. An order whose project amounts sum below 0 would
  therefore fail it even when `can_checkout?` holds. The lemmas that equate
  the validations with `can_checkout?` assume non-negative project amounts.

## Model

| member | source | states |
|---|---|---|
| OrderQueries.SumAmounts | decidim-budgets/app/models/decidim/budgets/order.rb:65-67 | the amount sum over no projects is 0; with non-negative amounts it is non-negative and at least every single project's amount |
| OrderQueries.TotalIsSumOfAllocations | decidim-budgets/app/models/decidim/budgets/order.rb:58-80 | `total` equals the sum of `allocation_for` over the selected projects: the project count under selection voting, the amount sum otherwise |
| OrderQueries.TotalAfterAdding | decidim-budgets/app/models/decidim/budgets/order.rb:54-62 | adding a project raises `total` by exactly `allocation_for` that project (1 under selection voting, its amount otherwise) |
| OrderQueries.TotalAfterRemoving | decidim-budgets/app/models/decidim/budgets/order.rb:64-80 | removing a selected project lowers `total` by exactly its allocation |
| OrderQueries.TotalIgnoresSelectionOrder | decidim-budgets/app/models/decidim/budgets/order.rb:64-80 | `total` depends only on which projects are selected, not on their order |
| OrderQueries.SumAmountsPermutation | decidim-budgets/app/models/decidim/budgets/order.rb:65-67 | two project lists with the same multiset have the same amount sum |
| OrderQueries.SumAmountsRemoveAt | decidim-budgets/app/models/decidim/budgets/order.rb:65-67 | the amount sum is any one project's amount plus the sum of the others |
| OrderQueries.MinimumBudgetWithinMaximum | decidim-budgets/app/models/decidim/budgets/order.rb:106-118 | for a non-negative budget total and a threshold between 0 and 100, 0 <= `minimum_budget` <= `maximum_budget` |
| OrderQueries.BudgetPercent | decidim-budgets/app/models/decidim/budgets/order.rb:99-103 | the percent times the available allocation is 100 times `total` |
| OrderQueries.BudgetPercentAtMostHundred | decidim-budgets/app/models/decidim/budgets/order.rb:99-103 | with a positive divisor, the percent is at most 100 exactly when `total` is within the available allocation |
| OrderValidation.TotalBudgetMinimum | decidim-budgets/app/models/decidim/budgets/order.rb:21-24 | at most the one below-minimum error; none under selection voting or while pending; with no count rule, none exactly when the order is pending or `can_checkout?` holds; none under the minimum-projects rule for non-negative amounts |
| OrderValidation.TotalBudgetMaximum | decidim-budgets/app/models/decidim/budgets/order.rb:21-28 | at most the one above-maximum error; none under selection voting; otherwise none exactly when `total` is within `available_allocation`, checked out or not |
| OrderValidation.TotalProjectsMinimum | decidim-budgets/app/models/decidim/budgets/order.rb:30-33 | as written, with the inner `if: :checked_out?` replacing the block's `if: :projects_rule?`: at most the one below-minimum error; none exactly when the order is pending, no count rule is on, or `can_checkout?` holds |
| OrderValidation.IntendedTotalProjectsMinimum | decidim-budgets/app/models/decidim/budgets/order.rb:30-33 | the validation as its block evidently intends: none exactly when selection voting is off, the order is pending, or `can_checkout?` holds |
| OrderValidation.TotalProjectsMaximum | decidim-budgets/app/models/decidim/budgets/order.rb:30-37 | at most the one above-maximum error; none without selection voting; under it, none exactly when `total` is within `available_allocation`, checked out or not |
| OrderValidation.ReachMinimumProjects | decidim-budgets/app/models/decidim/budgets/order.rb:186-190 | at most the one projects error; none exactly when neither count rule is on or `can_checkout?` holds |
| OrderValidation.CheckForWith | decidim-budgets/app/models/decidim/budgets/order.rb:17-40 | each validator adds nothing or exactly one error, of its own kind; `reach_minimum_projects` adds nothing while pending |
| OrderValidation.RunValidatorsByKind | decidim-budgets/app/models/decidim/budgets/order.rb:17-40 | running validators in order collects an error of a kind exactly when that kind's validator is among them and adds it |
| OrderValidation.ErrorByKind | decidim-budgets/app/models/decidim/budgets/order.rb:17-40 | an error of a kind is among the order's errors exactly when its own validator adds it |
| OrderValidation.ErrorsRaised | decidim-budgets/app/models/decidim/budgets/order.rb:17-40 | each kind of error is among the order's errors exactly when its own condition holds (`reach_minimum_projects` only once checked out) |
| OrderValidation.WithinAllocationIffNoMaximumError | decidim-budgets/app/models/decidim/budgets/order.rb:21-38 | an order has no maximum error exactly when `total` is within `available_allocation` |
| OrderValidation.MaximumIndependentOfCheckout | decidim-budgets/app/models/decidim/budgets/order.rb:21-38 | the maximum errors are the same for the pending and the checked-out order |
| OrderValidation.PendingOrderHasNoMinimumError | decidim-budgets/app/models/decidim/budgets/order.rb:22-40 | a pending order never has a minimum error, nor a projects error |
| OrderValidation.CheckoutOnlyAddsErrors | decidim-budgets/app/models/decidim/budgets/order.rb:21-40 | every error of the pending order is also an error of the same order checked out |
| OrderValidation.VotingModesExclusive | decidim-budgets/app/models/decidim/budgets/order.rb:21-38 | the two maximum errors never both arise; the amount bounds and the project-count bounds never both report unless the minimum-projects rule is on without selection voting |
| OrderValidation.AmountAndCountBoundsOverlapAsWritten | decidim-budgets/app/models/decidim/budgets/order.rb:21-40 | under the minimum-projects rule alone (3 projects, budget 1000), a checked-out order of 600 and 401 gets the amount maximum error, the project-count minimum error and the projects error |
| OrderValidation.IntendedVotingModesExclusive | decidim-budgets/app/models/decidim/budgets/order.rb:21-38 | with the intended project-count minimum, the amount bounds and the project-count bounds never both report, under any settings |
| OrderValidation.IntendedErrorsAgreeOutsideMinimumProjectsRuleAlone | decidim-budgets/app/models/decidim/budgets/order.rb:30-33 | the intended and the as-written errors coincide unless the minimum-projects rule is on without selection voting |
| OrderValidation.IntendedErrorsSameVerdict | decidim-budgets/app/models/decidim/budgets/order.rb:30-40 | the order is valid as written exactly when it is valid with the intended validation, since the extra error always comes with the projects error |
| OrderValidation.ProjectsErrorIffCannotCheckout | decidim-budgets/app/models/decidim/budgets/order.rb:88-94 | with a count rule on, a checked-out order has no projects error exactly when `can_checkout?` holds |
| OrderValidation.MinimumValidationsAgreeWithCanCheckout | decidim-budgets/app/models/decidim/budgets/order.rb:88-94 | with non-negative amounts, a checked-out order passes every minimum validation exactly when `can_checkout?` holds |
| OrderValidation.ValidIff | decidim-budgets/app/models/decidim/budgets/order.rb:17-40 | with non-negative amounts, an order is valid exactly when it has a budget, passes the organisation check, is within `available_allocation` and, once checked out, satisfies `can_checkout?` |
| OrderValidation.ZeroThresholdNeverBelowMinimum | decidim-budgets/app/models/decidim/budgets/order.rb:88-111 | under amount voting with a 0 threshold and non-negative amounts, `can_checkout?` holds and no minimum error arises, whatever the project count |
| OrderQueries.SelectionMinimumIgnoredUnderMinimumProjectsRule | decidim-budgets/app/models/decidim/budgets/order.rb:135-145 | with the minimum-projects rule on, changing the selection minimum changes neither `minimum_projects` nor `can_checkout?`, even under selection voting |
| OrderQueries.SelectionMinimumUsedUnderSelectionRuleAlone | decidim-budgets/app/models/decidim/budgets/order.rb:135-145 | under selection voting alone, `minimum_projects` is whatever the selection minimum is set to, and `can_checkout?` compares the project count with it |
| OrderQueries.MinimumProjectsNumberIgnoredWhenRuleOff | decidim-budgets/app/models/decidim/budgets/order.rb:135-145 | with the minimum-projects rule off, its number changes neither `minimum_projects` nor `can_checkout?` |
| OrderQueries.ThresholdIgnoredUnderCountRule | decidim-budgets/app/models/decidim/budgets/order.rb:106-111 | under either count rule, `minimum_budget` is 0 and `can_checkout?` is unchanged whatever the threshold percent |
| OrderValidation.SelectionMinimumIgnoredByValidations | decidim-budgets/app/models/decidim/budgets/order.rb:21-40 | with the minimum-projects rule on, changing the selection minimum leaves the order's errors unchanged |
| OrderValidation.ThresholdIgnoredByValidations | decidim-budgets/app/models/decidim/budgets/order.rb:21-40 | under either count rule, changing the threshold percent leaves the order's errors unchanged |
| OrderValidation.SelectionMaximumIgnoredWithoutSelectionRule | decidim-budgets/app/models/decidim/budgets/order.rb:148-156 | without selection voting, the selection maximum changes neither `available_allocation` nor any error |
| OrderValidation.UserCheckIndependentOfProjectsAndCheckout | decidim-budgets/app/models/decidim/budgets/order.rb:178-184 | whether the order has the invalid-user error does not depend on its projects or its checkout state |
| OrderValidation.MemberOfBudgetOrganizationAccepted | decidim-budgets/app/models/decidim/budgets/order.rb:178-184 | a user belonging to the budget's own organisation never gets the invalid-user error |
| OrderScenarios.MinimumProjectsRuleWinsOverSelection | decidim-budgets/app/models/decidim/budgets/order.rb:135-145 | with both count rules on (number 3, selection minimum 1), 2 projects cannot check out and, checked out, get both minimum errors |
| OrderScenarios.BelowThresholdCannotCheckout | decidim-budgets/app/models/decidim/budgets/order.rb:88-111 | 50 of a 1000 budget at 10% is below the minimum of 100 and cannot check out |
| OrderScenarios.BelowThresholdRejectedAtCheckout | decidim-budgets/app/models/decidim/budgets/order.rb:21-24 | the same order, checked out, has exactly the below-minimum error |
| OrderScenarios.WholeBudgetMayBeCheckedOut | decidim-budgets/app/models/decidim/budgets/order.rb:21-28 | spending 1000 of 1000 can check out and is valid when checked out |
| OrderScenarios.OverBudgetRejectedBeforeCheckout | decidim-budgets/app/models/decidim/budgets/order.rb:26-28 | spending 1001 of 1000 has exactly the above-maximum error while still pending |
| OrderScenarios.SelectionBounds | decidim-budgets/app/models/decidim/budgets/order.rb:88-94 | selection between 2 and 5: 1 project cannot check out, 3 can |
| OrderScenarios.TooFewProjectsRejectedAtCheckout | decidim-budgets/app/models/decidim/budgets/order.rb:30-40 | the single project, checked out, gets the project-count minimum error and the projects error |
| OrderScenarios.TooManyProjectsRejectedBeforeCheckout | decidim-budgets/app/models/decidim/budgets/order.rb:35-37 | 6 projects out of at most 5 have exactly the above-maximum error while pending |
| OrderScenarios.MinimumProjectsOverridesAmount | decidim-budgets/app/models/decidim/budgets/order.rb:88-111 | with the minimum-projects rule at 3, the amount minimum is 0 and 2 projects cannot check out; checked out, as written, they get the project-count minimum error and the projects error |
| OrderScenarios.ForeignUserRejected | decidim-budgets/app/models/decidim/budgets/order.rb:178-184 | a user of another organisation gives exactly the invalid-user error |
| OrderScenarios.AnonymousOrderNotChecked | decidim-budgets/app/models/decidim/budgets/order.rb:178-184 | an order with no user gets no error from the organisation check, nor any other |

## Findings

| source | as written | input that shows it | evidently intended | confidence | as-written member | corrected member |
|---|---|---|---|---|---|---|
| decidim-budgets/app/models/decidim/budgets/order.rb:30-33 | the inner `if: :checked_out?` replaces the block's `if: :projects_rule?` when the options merge, so the project-count minimum runs on every checked-out order | budget 1000 under the minimum-projects rule alone (threshold 10, 3 projects), projects of 600 and 401, checked out: errors are the amount maximum, the project-count minimum and the projects error | the validation runs only under selection voting, as `if: [:projects_rule?, :checked_out?]` would say, so amount bounds and count bounds never both report | not executed | OrderValidation.AmountAndCountBoundsOverlapAsWritten | OrderValidation.IntendedVotingModesExclusive |

`Errors` and every lemma about it use the validation as written (`TotalProjectsMinimum`).
`IntendedErrors` uses `IntendedTotalProjectsMinimum`. The two differ only under
the minimum-projects rule alone. They agree on validity (`IntendedErrorsSameVerdict`),
because there the extra error always comes with the projects error.

## Left out

- The uniqueness validation of the user within the budget (line 17) needs the
  stored orders. The model does not state it.
- Associations, `dependent: :destroy` and the `finished` and `pending` scopes
  (lines 11-15, 42-43) are persistence and query building.
- `user_collection`, `export_serializer` and `newsletter_participant_ids`
  (lines 158-174) are database queries and a serialiser reference.
- The checkout transition itself (setting `checked_out_at` once) is not in the
  order model. The checkout timestamp is an input, and its clock is outside the model.
- The `DataPortability` and `NewsletterParticipant` mixins are not part of this model.
- Float arithmetic: `.to_f` values are exact `real` numbers here. Float rounding
  of large totals and of the threshold fraction is not captured. The budget
  total and project amounts are unbounded integers.
- OrderQueries.AvailableAllocation returns a `real` in every case. The source
  returns an Integer under selection voting, the Integer 0 without a budget,
  and a Float otherwise.
- OrderQueries.AllocationFor returns the project's amount under amount voting,
  as the comment on `allocation_for` describes. As written, the method returns
  `project.budget`. In this codebase `budget` names the association to the
  budget record (line 12), while the amount is `budget_amount` (line 66). So
  the source may return a budget record, not a number. The project model is not
  part of this model, so that reading cannot be confirmed here. `TotalAfterAdding`,
  `TotalAfterRemoving` and `TotalIsSumOfAllocations` hold for the documented
  amount, not for a budget record.
- Rails' required-association errors for `belongs_to :user` and
  `belongs_to :budget` (lines 11-12) are not modelled. The model assumes
  `belongs_to_required_by_default` is off. If it is on, an order with no user
  also gets a "must exist" error on `user`, and an order with no budget gets one
  on `budget` besides `BudgetBlank`.
- OrderQueries.BudgetPercent requires a budget and a non-zero divisor. The source
  raises on a missing budget outside selection voting, and yields Infinity or
  NaN when dividing by 0.
- OrderValidation.VotingModesExclusive: full exclusivity of the amount bounds
  and the project-count bounds is not stated under the minimum-projects rule
  alone. The source as written reports both there (see "## Findings"). The
  full statement is proved of the intended validation instead.
- Validation error messages, their i18n and the attribute each error is filed under
  are reduced to one `ValidationError` constructor per check. Rails' ordering of
  errors within `errors` is kept only as the declaration order of `Errors`.
- How a selected project appears at most once (line items) is not modelled;
  projects are a sequence, and `total` is proved independent of their order.
