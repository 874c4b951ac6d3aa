/**
 * The validations an order runs when it is saved. Each validator contributes
 * at most one error, in declaration order; the order is valid when none does.
 * The maximum bound always applies; the minimum bounds and the minimum-projects
 * check apply only to a checked-out order.
 */
module OrderValidation {
  import opened Wrappers
  import opened Budgets
  import opened OrderQueries

  /** The field-level errors the validators add, named after the attribute and the validation. */
  datatype ValidationError =
    | BudgetBlank
    | UserInvalid
    | TotalBudgetBelowMinimum
    | TotalBudgetAboveMaximum
    | TotalProjectsBelowMinimum
    | TotalProjectsAboveMaximum
    | ProjectsInvalid

  /** The budget's organisation, reached through its component; absent when any link is missing. */
  function BudgetOrganization(o: Order): Option<Organization>
  {
    if o.budget.None? || o.budget.value.component.None? then None
    else o.budget.value.component.value.organization
  }

  /** The presence validation on `budget`. */
  function BudgetPresence(o: Order): (errs: seq<ValidationError>)
    ensures errs == [] || errs == [BudgetBlank]
  {
    if o.budget.None? then [BudgetBlank] else []
  }

  /**
   * `user_belongs_to_organization`: an error only when both the user and the
   * budget's organisation are known and the user belongs elsewhere.
   */
  function UserBelongsToOrganization(o: Order): (errs: seq<ValidationError>)
    ensures errs == [] || errs == [UserInvalid]
    ensures o.user.None? || o.budget.None? ==> errs == []
  {
    var organization := BudgetOrganization(o);
    if o.user.None? || organization.None? then []
    else if o.user.value.organization == organization then []
    else [UserInvalid]
  }

  /**
   * Amount voting, once checked out: `total_budget` must reach `minimum_budget`.
   * Without a count rule this is `can_checkout?`; under the minimum-projects
   * rule the minimum is 0, so projects with non-negative amounts always pass.
   */
  function TotalBudgetMinimum(o: Order): (errs: seq<ValidationError>)
    ensures errs == [] || errs == [TotalBudgetBelowMinimum]
    ensures ProjectsRule(o) || !CheckedOut(o) ==> errs == []
    ensures !CountRuleActive(o) ==> (errs == [] <==> !CheckedOut(o) || CanCheckout(o))
    ensures MinimumProjectsRule(o) && NonNegativeAmounts(o.projects) ==> errs == []
  {
    if ProjectsRule(o) || !CheckedOut(o) then []
    else if TotalBudget(o) as real >= MinimumBudget(o) then []
    else [TotalBudgetBelowMinimum]
  }

  /** Amount voting, always: `total_budget` must not exceed `maximum_budget`, the available allocation. */
  function TotalBudgetMaximum(o: Order): (errs: seq<ValidationError>)
    ensures errs == [] || errs == [TotalBudgetAboveMaximum]
    ensures ProjectsRule(o) ==> errs == []
    ensures !ProjectsRule(o) ==> (errs == [] <==> Total(o) as real <= AvailableAllocation(o))
  {
    if ProjectsRule(o) then []
    else if TotalBudget(o) as real <= MaximumBudget(o) then []
    else [TotalBudgetAboveMaximum]
  }

  /**
   * Once checked out, `total_projects` must reach `minimum_projects`. The validation
   * is declared inside the `projects_rule?` block, but its own `if:` option
   * replaces that block's `if:` when the options are merged. So it runs on
   * every checked-out order, and under the minimum-projects rule alone it fails
   * exactly when `can_checkout?` does.
   */
  function TotalProjectsMinimum(o: Order): (errs: seq<ValidationError>)
    ensures errs == [] || errs == [TotalProjectsBelowMinimum]
    ensures errs == [] <==> !CheckedOut(o) || !CountRuleActive(o) || CanCheckout(o)
  {
    if !CheckedOut(o) then []
    else if TotalProjects(o) >= MinimumProjects(o) then []
    else [TotalProjectsBelowMinimum]
  }

  /** The evidently intended validation: project-selection voting only, once checked out. */
  function IntendedTotalProjectsMinimum(o: Order): (errs: seq<ValidationError>)
    ensures errs == [] || errs == [TotalProjectsBelowMinimum]
    ensures errs == [] <==> !ProjectsRule(o) || !CheckedOut(o) || CanCheckout(o)
  {
    if !ProjectsRule(o) || !CheckedOut(o) then []
    else if TotalProjects(o) >= MinimumProjects(o) then []
    else [TotalProjectsBelowMinimum]
  }

  /** Project-selection voting, always: `total_projects` must not exceed `maximum_projects`, the available allocation. */
  function TotalProjectsMaximum(o: Order): (errs: seq<ValidationError>)
    ensures errs == [] || errs == [TotalProjectsAboveMaximum]
    ensures !ProjectsRule(o) ==> errs == []
    ensures ProjectsRule(o) ==> (errs == [] <==> Total(o) as real <= AvailableAllocation(o))
  {
    if !ProjectsRule(o) then []
    else if TotalProjects(o) <= MaximumProjects(o).value then []
    else [TotalProjectsAboveMaximum]
  }

  /**
   * `reach_minimum_projects`: no error unless a count rule is on; then an
   * error exactly when `minimum_projects` exceeds the number of projects,
   * that is, exactly when `can_checkout?` fails.
   */
  function ReachMinimumProjects(o: Order): (errs: seq<ValidationError>)
    ensures errs == [] || errs == [ProjectsInvalid]
    ensures errs == [] <==> !CountRuleActive(o) || CanCheckout(o)
  {
    if !MinimumProjectsRule(o) && !ProjectsRule(o) then []
    else if MinimumProjects(o) > |o.projects| then [ProjectsInvalid]
    else []
  }

  /** The condition under which each kind of error is raised, stated kind by kind. */
  predicate Raised(o: Order, e: ValidationError)
  {
    match e
    case BudgetBlank => o.budget.None?
    case UserInvalid =>
      o.user.Some? && BudgetOrganization(o).Some? && o.user.value.organization != BudgetOrganization(o)
    case TotalBudgetBelowMinimum => !ProjectsRule(o) && CheckedOut(o) && (TotalBudget(o) as real) < MinimumBudget(o)
    case TotalBudgetAboveMaximum => !ProjectsRule(o) && (TotalBudget(o) as real) > MaximumBudget(o)
    case TotalProjectsBelowMinimum => CheckedOut(o) && TotalProjects(o) < MinimumProjects(o)
    case TotalProjectsAboveMaximum =>
      ProjectsRule(o) && TotalProjects(o) > o.budget.value.settings.voteSelectedProjectsMaximum
    case ProjectsInvalid => CheckedOut(o) && CountRuleActive(o) && MinimumProjects(o) > TotalProjects(o)
  }

  /**
   * The validators in declaration order, each named by the kind of error it
   * adds: `budget`'s presence, `user_belongs_to_organization`, the four
   * numericality checks on `total_budget` and `total_projects`, and
   * `reach_minimum_projects`.
   */
  const Validators: seq<ValidationError> :=
    [BudgetBlank, UserInvalid, TotalBudgetBelowMinimum, TotalBudgetAboveMaximum,
     TotalProjectsBelowMinimum, TotalProjectsAboveMaximum, ProjectsInvalid]

  /**
   * The validator that adds errors of kind `e`, with `projectsMinimum` the outcome
   * of the project-count minimum; `reach_minimum_projects` runs only on a
   * checked-out order. Each adds nothing or one error of its own kind.
   */
  function CheckForWith(o: Order, projectsMinimum: seq<ValidationError>, e: ValidationError): (errs: seq<ValidationError>)
    ensures projectsMinimum == [] || projectsMinimum == [TotalProjectsBelowMinimum] ==> errs == [] || errs == [e]
    ensures e == ProjectsInvalid && !CheckedOut(o) ==> errs == []
  {
    match e
    case BudgetBlank => BudgetPresence(o)
    case UserInvalid => UserBelongsToOrganization(o)
    case TotalBudgetBelowMinimum => TotalBudgetMinimum(o)
    case TotalBudgetAboveMaximum => TotalBudgetMaximum(o)
    case TotalProjectsBelowMinimum => projectsMinimum
    case TotalProjectsAboveMaximum => TotalProjectsMaximum(o)
    case ProjectsInvalid => if CheckedOut(o) then ReachMinimumProjects(o) else []
  }

  /** The validator that adds errors of kind `e`, as it runs within `Errors`. */
  function CheckFor(o: Order, e: ValidationError): seq<ValidationError>
  {
    CheckForWith(o, TotalProjectsMinimum(o), e)
  }

  /** Runs `validators` in order, collecting the errors each adds. */
  function RunValidators(o: Order, projectsMinimum: seq<ValidationError>, validators: seq<ValidationError>): seq<ValidationError>
  {
    if validators == [] then []
    else CheckForWith(o, projectsMinimum, validators[0]) + RunValidators(o, projectsMinimum, validators[1..])
  }

  /** All validators in declaration order, given the outcome of the project-count minimum. */
  function ErrorsWith(o: Order, projectsMinimum: seq<ValidationError>): seq<ValidationError>
  {
    RunValidators(o, projectsMinimum, Validators)
  }

  /** The order's errors: all validators in declaration order, as written. */
  function Errors(o: Order): seq<ValidationError>
  {
    ErrorsWith(o, TotalProjectsMinimum(o))
  }

  /** The errors with the intended project-count minimum in place of the one as written. */
  function IntendedErrors(o: Order): seq<ValidationError>
  {
    ErrorsWith(o, IntendedTotalProjectsMinimum(o))
  }

  /** A kind of error is among those a run collects exactly when its validator is in the run and adds it. */
  lemma {:induction false} RunValidatorsByKind(o: Order, projectsMinimum: seq<ValidationError>,
                                               validators: seq<ValidationError>, e: ValidationError)
    requires projectsMinimum == [] || projectsMinimum == [TotalProjectsBelowMinimum]
    ensures e in RunValidators(o, projectsMinimum, validators) <==>
      e in validators && CheckForWith(o, projectsMinimum, e) != []
    decreases |validators|
  {
    if validators != [] {
      RunValidatorsByKind(o, projectsMinimum, validators[1..], e);
      assert e in validators <==> e == validators[0] || e in validators[1..];
    }
  }

  /** Running a validator ahead of others adds its errors ahead of theirs. */
  lemma RunValidatorsStep(o: Order, projectsMinimum: seq<ValidationError>, first: ValidationError, rest: seq<ValidationError>)
    ensures RunValidators(o, projectsMinimum, [first] + rest)
      == CheckForWith(o, projectsMinimum, first) + RunValidators(o, projectsMinimum, rest)
  {
    assert ([first] + rest)[1..] == rest;
  }

  /** The errors are those of each validator, concatenated in declaration order. */
  lemma ErrorsWithPieces(o: Order, projectsMinimum: seq<ValidationError>)
    ensures ErrorsWith(o, projectsMinimum) ==
      BudgetPresence(o) + (UserBelongsToOrganization(o) + (TotalBudgetMinimum(o) + (TotalBudgetMaximum(o)
      + (projectsMinimum + (TotalProjectsMaximum(o) + (if CheckedOut(o) then ReachMinimumProjects(o) else []))))))
  {
    var pm := projectsMinimum;
    var v6 := [ProjectsInvalid];
    RunValidatorsStep(o, pm, ProjectsInvalid, []);
    var v5 := [TotalProjectsAboveMaximum] + v6;
    RunValidatorsStep(o, pm, TotalProjectsAboveMaximum, v6);
    var v4 := [TotalProjectsBelowMinimum] + v5;
    RunValidatorsStep(o, pm, TotalProjectsBelowMinimum, v5);
    var v3 := [TotalBudgetAboveMaximum] + v4;
    RunValidatorsStep(o, pm, TotalBudgetAboveMaximum, v4);
    var v2 := [TotalBudgetBelowMinimum] + v3;
    RunValidatorsStep(o, pm, TotalBudgetBelowMinimum, v3);
    var v1 := [UserInvalid] + v2;
    RunValidatorsStep(o, pm, UserInvalid, v2);
    var v0 := [BudgetBlank] + v1;
    RunValidatorsStep(o, pm, BudgetBlank, v1);
    assert [ProjectsInvalid] + [] == v6;
    assert v0 == Validators;
  }

  /** Each kind of error is among the order's errors exactly when its condition holds. */
  lemma ErrorsRaised(o: Order)
    ensures forall e :: e in Errors(o) <==> Raised(o, e)
  {
    forall e
      ensures e in Errors(o) <==> Raised(o, e)
    {
      ErrorByKind(o, e);
      match e
      case BudgetBlank =>
      case UserInvalid =>
      case TotalBudgetBelowMinimum =>
      case TotalBudgetAboveMaximum =>
      case TotalProjectsBelowMinimum =>
      case TotalProjectsAboveMaximum =>
      case ProjectsInvalid =>
    }
  }

  /** An error of kind `e` is among `ErrorsWith(o, projectsMinimum)` exactly when its own validator adds it. */
  lemma ErrorWithByKind(o: Order, projectsMinimum: seq<ValidationError>, e: ValidationError)
    requires projectsMinimum == [] || projectsMinimum == [TotalProjectsBelowMinimum]
    ensures e in ErrorsWith(o, projectsMinimum) <==> CheckForWith(o, projectsMinimum, e) != []
  {
    RunValidatorsByKind(o, projectsMinimum, Validators, e);
    assert e in Validators by {
      match e
      case BudgetBlank => assert Validators[0] == e;
      case UserInvalid => assert Validators[1] == e;
      case TotalBudgetBelowMinimum => assert Validators[2] == e;
      case TotalBudgetAboveMaximum => assert Validators[3] == e;
      case TotalProjectsBelowMinimum => assert Validators[4] == e;
      case TotalProjectsAboveMaximum => assert Validators[5] == e;
      case ProjectsInvalid => assert Validators[6] == e;
    }
  }

  /** An error of kind `e` is among the order's errors exactly when its own validator adds it. */
  lemma ErrorByKind(o: Order, e: ValidationError)
    ensures e in Errors(o) <==> CheckFor(o, e) != []
  {
    ErrorWithByKind(o, TotalProjectsMinimum(o), e);
  }

  /** An error of kind `e` is among the intended errors exactly when its own validator adds it. */
  lemma IntendedErrorByKind(o: Order, e: ValidationError)
    ensures e in IntendedErrors(o) <==> CheckForWith(o, IntendedTotalProjectsMinimum(o), e) != []
  {
    ErrorWithByKind(o, IntendedTotalProjectsMinimum(o), e);
  }

  /** A list of errors is empty exactly when it holds no error of any kind. */
  lemma NoErrorsIffNoKind(errs: seq<ValidationError>)
    ensures errs == [] <==>
      && BudgetBlank !in errs && UserInvalid !in errs
      && TotalBudgetBelowMinimum !in errs && TotalBudgetAboveMaximum !in errs
      && TotalProjectsBelowMinimum !in errs && TotalProjectsAboveMaximum !in errs
      && ProjectsInvalid !in errs
  {
    if errs != [] {
      assert errs[0] in errs;
      match errs[0]
      case BudgetBlank =>
      case UserInvalid =>
      case TotalBudgetBelowMinimum =>
      case TotalBudgetAboveMaximum =>
      case TotalProjectsBelowMinimum =>
      case TotalProjectsAboveMaximum =>
      case ProjectsInvalid =>
    }
  }

  /** `valid?`: no validator added an error. */
  predicate Valid(o: Order)
  {
    Errors(o) == []
  }

  predicate AboveMaximum(errs: seq<ValidationError>)
  {
    TotalBudgetAboveMaximum in errs || TotalProjectsAboveMaximum in errs
  }

  predicate BelowMinimum(errs: seq<ValidationError>)
  {
    TotalBudgetBelowMinimum in errs || TotalProjectsBelowMinimum in errs || ProjectsInvalid in errs
  }

  /** An order passes the maximum validations exactly when its `total` is within its `available_allocation`. */
  lemma WithinAllocationIffNoMaximumError(o: Order)
    ensures !AboveMaximum(Errors(o)) <==> Total(o) as real <= AvailableAllocation(o)
  {
    ErrorByKind(o, TotalBudgetAboveMaximum);
    ErrorByKind(o, TotalProjectsAboveMaximum);
  }

  /** Checking out does not change the maximum validations' verdict. */
  lemma MaximumIndependentOfCheckout(o: Order, at: nat)
    ensures AboveMaximum(Errors(o.(checkedOutAt := None))) <==> AboveMaximum(Errors(o.(checkedOutAt := Some(at))))
  {
    var pending, checkedOut := o.(checkedOutAt := None), o.(checkedOutAt := Some(at));
    ErrorByKind(pending, TotalBudgetAboveMaximum);
    ErrorByKind(pending, TotalProjectsAboveMaximum);
    ErrorByKind(checkedOut, TotalBudgetAboveMaximum);
    ErrorByKind(checkedOut, TotalProjectsAboveMaximum);
    assert TotalBudgetMaximum(pending) == TotalBudgetMaximum(checkedOut);
    assert TotalProjectsMaximum(pending) == TotalProjectsMaximum(checkedOut);
  }

  /** A pending order is never rejected for falling short of a minimum. */
  lemma PendingOrderHasNoMinimumError(o: Order)
    requires !CheckedOut(o)
    ensures !BelowMinimum(Errors(o))
  {
    ErrorByKind(o, TotalBudgetBelowMinimum);
    ErrorByKind(o, TotalProjectsBelowMinimum);
    ErrorByKind(o, ProjectsInvalid);
  }

  /** Checking out can only add errors: every error of the pending order remains. */
  lemma CheckoutOnlyAddsErrors(o: Order, at: nat)
    ensures forall e :: e in Errors(o.(checkedOutAt := None)) ==> e in Errors(o.(checkedOutAt := Some(at)))
  {
    var pending, checkedOut := o.(checkedOutAt := None), o.(checkedOutAt := Some(at));
    forall e | e in Errors(pending)
      ensures e in Errors(checkedOut)
    {
      ErrorByKind(pending, e);
      ErrorByKind(checkedOut, e);
      assert CheckFor(pending, e) == CheckFor(checkedOut, e) by {
        match e
        case BudgetBlank =>
        case UserInvalid =>
        case TotalBudgetBelowMinimum =>
        case TotalBudgetAboveMaximum =>
        case TotalProjectsBelowMinimum =>
        case TotalProjectsAboveMaximum =>
        case ProjectsInvalid =>
      }
    }
  }

  /**
   * The two maximum checks never both report. The minimum checks of the two
   * voting rules never both report either, unless the minimum-projects rule is
   * on without project-selection voting.
   */
  lemma VotingModesExclusive(o: Order)
    ensures !(TotalBudgetAboveMaximum in Errors(o) && TotalProjectsAboveMaximum in Errors(o))
    ensures ProjectsRule(o) || !MinimumProjectsRule(o) ==>
      !((TotalBudgetBelowMinimum in Errors(o) || TotalBudgetAboveMaximum in Errors(o))
        && (TotalProjectsBelowMinimum in Errors(o) || TotalProjectsAboveMaximum in Errors(o)))
  {
    ErrorByKind(o, TotalBudgetBelowMinimum);
    ErrorByKind(o, TotalBudgetAboveMaximum);
    ErrorByKind(o, TotalProjectsBelowMinimum);
    ErrorByKind(o, TotalProjectsAboveMaximum);
    if ProjectsRule(o) {
      assert TotalBudgetMinimum(o) == [] && TotalBudgetMaximum(o) == [];
    } else if !MinimumProjectsRule(o) {
      assert TotalProjectsMinimum(o) == [] && TotalProjectsMaximum(o) == [];
    } else {
      assert TotalProjectsMaximum(o) == [];
    }
  }

  /**
   * As written, the minimum-projects rule alone lets the amount bounds and the
   * project-count minimum report together: 1001 of 1000 in two projects, with
   * 3 projects required.
   */
  lemma AmountAndCountBoundsOverlapAsWritten()
    ensures Errors(Order(None, Some(Budget(1000, Settings(10, true, 3, false, 0, 0), None)),
                         [Project(600), Project(401)], Some(1)))
      == [TotalBudgetAboveMaximum, TotalProjectsBelowMinimum, ProjectsInvalid]
  {
    var o := Order(None, Some(Budget(1000, Settings(10, true, 3, false, 0, 0), None)),
                   [Project(600), Project(401)], Some(1));
    assert TotalBudget(o) == 1001 && MinimumProjects(o) == 3;
    ErrorsWithPieces(o, TotalProjectsMinimum(o));
  }

  /** With the intended project-count minimum, amount bounds and project-count bounds never both report. */
  lemma IntendedVotingModesExclusive(o: Order)
    ensures !((TotalBudgetBelowMinimum in IntendedErrors(o) || TotalBudgetAboveMaximum in IntendedErrors(o))
           && (TotalProjectsBelowMinimum in IntendedErrors(o) || TotalProjectsAboveMaximum in IntendedErrors(o)))
  {
    if ProjectsRule(o) {
      IntendedErrorByKind(o, TotalBudgetBelowMinimum);
      IntendedErrorByKind(o, TotalBudgetAboveMaximum);
      assert TotalBudgetMinimum(o) == [] && TotalBudgetMaximum(o) == [];
    } else {
      IntendedErrorByKind(o, TotalProjectsBelowMinimum);
      IntendedErrorByKind(o, TotalProjectsAboveMaximum);
      assert IntendedTotalProjectsMinimum(o) == [] && TotalProjectsMaximum(o) == [];
    }
  }

  /** The two definitions differ only under the minimum-projects rule without project-selection voting. */
  lemma IntendedErrorsAgreeOutsideMinimumProjectsRuleAlone(o: Order)
    requires ProjectsRule(o) || !MinimumProjectsRule(o)
    ensures IntendedErrors(o) == Errors(o)
  {
  }

  /**
   * The extra error of the validation as written always comes with the projects
   * error, so the order's verdict is the same under both definitions.
   */
  lemma IntendedErrorsSameVerdict(o: Order)
    ensures Valid(o) <==> IntendedErrors(o) == []
  {
    if TotalProjectsMinimum(o) != IntendedTotalProjectsMinimum(o) {
      assert CheckedOut(o) && CountRuleActive(o) && !CanCheckout(o);
      ErrorByKind(o, ProjectsInvalid);
      IntendedErrorByKind(o, ProjectsInvalid);
      assert ProjectsInvalid in Errors(o) && ProjectsInvalid in IntendedErrors(o);
    }
  }

  /** With a count rule active, a checked-out order has no projects error exactly when `can_checkout?` holds. */
  lemma ProjectsErrorIffCannotCheckout(o: Order)
    requires CheckedOut(o) && CountRuleActive(o)
    ensures ProjectsInvalid !in Errors(o) <==> CanCheckout(o)
  {
    ErrorByKind(o, ProjectsInvalid);
  }

  /**
   * For projects with non-negative amounts, a checked-out order passes every
   * minimum validation exactly when `can_checkout?` holds.
   */
  lemma MinimumValidationsAgreeWithCanCheckout(o: Order)
    requires CheckedOut(o) && NonNegativeAmounts(o.projects)
    ensures !BelowMinimum(Errors(o)) <==> CanCheckout(o)
  {
    ErrorsRaised(o);
    if !CountRuleActive(o) {
      assert BelowMinimum(Errors(o)) <==> Raised(o, TotalBudgetBelowMinimum);
    } else if ProjectsRule(o) {
      assert BelowMinimum(Errors(o)) <==> Raised(o, ProjectsInvalid);
    } else {
      assert MinimumBudget(o) == 0.0;
      assert TotalBudget(o) >= 0;
      assert !Raised(o, TotalBudgetBelowMinimum);
      assert BelowMinimum(Errors(o)) <==> Raised(o, ProjectsInvalid);
    }
  }

  /**
   * The whole verdict: for projects with non-negative amounts, an order is valid
   * exactly when it has a budget, its user does not belong to another
   * organisation, it is within its available allocation and, once checked out,
   * it may be checked out.
   */
  lemma ValidIff(o: Order)
    requires NonNegativeAmounts(o.projects)
    ensures Valid(o) <==>
      && o.budget.Some?
      && UserBelongsToOrganization(o) == []
      && Total(o) as real <= AvailableAllocation(o)
      && (CheckedOut(o) ==> CanCheckout(o))
  {
    NoErrorsIffNoKind(Errors(o));
    ErrorByKind(o, BudgetBlank);
    ErrorByKind(o, UserInvalid);
    WithinAllocationIffNoMaximumError(o);
    if CheckedOut(o) {
      MinimumValidationsAgreeWithCanCheckout(o);
    } else {
      PendingOrderHasNoMinimumError(o);
    }
  }

  /** When both count rules are on, the selection minimum changes none of the order's errors. */
  lemma SelectionMinimumIgnoredByValidations(o: Order, minimum: int)
    requires MinimumProjectsRule(o)
    ensures Errors(WithSettings(o, o.budget.value.settings.(voteSelectedProjectsMinimum := minimum))) == Errors(o)
  {
    var o' := WithSettings(o, o.budget.value.settings.(voteSelectedProjectsMinimum := minimum));
    SelectionMinimumIgnoredUnderMinimumProjectsRule(o, minimum);
    SameValidators(o, o');
  }

  /** Under either count rule, the threshold percent changes none of the order's errors. */
  lemma ThresholdIgnoredByValidations(o: Order, percent: int)
    requires CountRuleActive(o)
    ensures Errors(WithSettings(o, o.budget.value.settings.(voteThresholdPercent := percent))) == Errors(o)
  {
    var o' := WithSettings(o, o.budget.value.settings.(voteThresholdPercent := percent));
    ThresholdIgnoredUnderCountRule(o, percent);
    SameValidators(o, o');
  }

  /** Without project-selection voting, the selection maximum changes neither the allocation nor any error. */
  lemma SelectionMaximumIgnoredWithoutSelectionRule(o: Order, maximum: int)
    requires o.budget.Some? && !ProjectsRule(o)
    ensures var o' := WithSettings(o, o.budget.value.settings.(voteSelectedProjectsMaximum := maximum));
      AvailableAllocation(o') == AvailableAllocation(o) && Errors(o') == Errors(o)
  {
    var o' := WithSettings(o, o.budget.value.settings.(voteSelectedProjectsMaximum := maximum));
    assert MinimumBudget(o') == MinimumBudget(o) && MaximumBudget(o') == MaximumBudget(o);
    assert MinimumProjects(o') == MinimumProjects(o);
    SameValidators(o, o');
  }

  /** Two orders that agree on every quantity the validators read have the same errors. */
  lemma SameValidators(o: Order, o': Order)
    requires o'.user == o.user && o'.projects == o.projects && o'.checkedOutAt == o.checkedOutAt
    requires o'.budget.None? <==> o.budget.None?
    requires BudgetOrganization(o') == BudgetOrganization(o)
    requires MinimumProjectsRule(o') == MinimumProjectsRule(o) && ProjectsRule(o') == ProjectsRule(o)
    requires MinimumBudget(o') == MinimumBudget(o) && MaximumBudget(o') == MaximumBudget(o)
    requires MinimumProjects(o') == MinimumProjects(o) && MaximumProjects(o') == MaximumProjects(o)
    ensures Errors(o') == Errors(o)
  {
    assert BudgetPresence(o') == BudgetPresence(o);
    assert UserBelongsToOrganization(o') == UserBelongsToOrganization(o);
    assert TotalBudgetMinimum(o') == TotalBudgetMinimum(o);
    assert TotalBudgetMaximum(o') == TotalBudgetMaximum(o);
    assert TotalProjectsMinimum(o') == TotalProjectsMinimum(o);
    assert TotalProjectsMaximum(o') == TotalProjectsMaximum(o);
    assert ReachMinimumProjects(o') == ReachMinimumProjects(o);
    ErrorsWithPieces(o, TotalProjectsMinimum(o));
    ErrorsWithPieces(o', TotalProjectsMinimum(o'));
  }

  /** The organisation check does not depend on the selected projects or on checkout. */
  lemma UserCheckIndependentOfProjectsAndCheckout(o: Order, projects: seq<Project>, at: Option<nat>)
    ensures UserInvalid in Errors(o) <==> UserInvalid in Errors(o.(projects := projects, checkedOutAt := at))
  {
    var o' := o.(projects := projects, checkedOutAt := at);
    ErrorByKind(o, UserInvalid);
    ErrorByKind(o', UserInvalid);
    assert BudgetOrganization(o') == BudgetOrganization(o);
    assert UserBelongsToOrganization(o') == UserBelongsToOrganization(o);
  }

  /** A user of the budget's own organisation is never rejected by the organisation check. */
  lemma MemberOfBudgetOrganizationAccepted(o: Order)
    ensures UserInvalid !in Errors(o.(user := Some(User(BudgetOrganization(o)))))
  {
    var o' := o.(user := Some(User(BudgetOrganization(o))));
    ErrorByKind(o', UserInvalid);
    assert BudgetOrganization(o') == BudgetOrganization(o);
  }

  /**
   * With no threshold under amount voting, a checked-out order of projects with
   * non-negative amounts is never short of the minimum, whatever its number of projects.
   */
  lemma ZeroThresholdNeverBelowMinimum(o: Order)
    requires o.budget.Some? && !CountRuleActive(o)
    requires o.budget.value.settings.voteThresholdPercent == 0
    requires NonNegativeAmounts(o.projects)
    ensures CanCheckout(o)
    ensures !BelowMinimum(Errors(o))
  {
    ErrorByKind(o, TotalBudgetBelowMinimum);
    ErrorByKind(o, TotalProjectsBelowMinimum);
    ErrorByKind(o, ProjectsInvalid);
  }
}
