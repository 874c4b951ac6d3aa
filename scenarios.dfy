/** Concrete orders that exercise each voting rule. */
module OrderScenarios {
  import opened Wrappers
  import opened Budgets
  import opened OrderQueries
  import opened OrderValidation

  /** Amount voting with a 10% threshold on a budget of 1000. */
  function AmountBudget(): Budget
  {
    Budget(1000, Settings(10, false, 0, false, 0, 0), None)
  }

  /** Project-selection voting between 2 and 5 projects. */
  function SelectionBudget(): Budget
  {
    Budget(1000, Settings(0, false, 0, true, 2, 5), None)
  }

  /** Amount voting with at least 3 projects required. */
  function MinimumProjectsBudget(): Budget
  {
    Budget(1000, Settings(10, true, 3, false, 0, 0), None)
  }

  /** Project-selection voting between 1 and 5 projects, with at least 3 projects required as well. */
  function BothRulesBudget(): Budget
  {
    Budget(1000, Settings(0, true, 3, true, 1, 5), None)
  }

  /** An amount-voting order of 50 out of 1000 is below the 100 minimum and cannot be checked out. */
  lemma BelowThresholdCannotCheckout()
    ensures MinimumBudget(Order(None, Some(AmountBudget()), [Project(50)], None)) == 100.0
    ensures !CanCheckout(Order(None, Some(AmountBudget()), [Project(50)], None))
  {
    var pending := Order(None, Some(AmountBudget()), [Project(50)], None);
    assert TotalBudget(pending) == 50;
  }

  /** Checked out anyway, the same order gets exactly the amount-minimum error. */
  lemma BelowThresholdRejectedAtCheckout()
    ensures Errors(Order(None, Some(AmountBudget()), [Project(50)], Some(1))) == [TotalBudgetBelowMinimum]
  {
    var short := Order(None, Some(AmountBudget()), [Project(50)], Some(1));
    assert TotalBudget(short) == 50 && MinimumBudget(short) == 100.0;
    ErrorsWithPieces(short, TotalProjectsMinimum(short));
  }

  /** Spending the whole budget may be checked out. */
  lemma WholeBudgetMayBeCheckedOut()
    ensures CanCheckout(Order(None, Some(AmountBudget()), [Project(600), Project(400)], None))
    ensures Valid(Order(None, Some(AmountBudget()), [Project(600), Project(400)], Some(1)))
  {
    var pending := Order(None, Some(AmountBudget()), [Project(600), Project(400)], None);
    assert CanCheckout(pending) by {
      assert TotalBudget(pending) == 1000 && MinimumBudget(pending) == 100.0;
    }
    var whole := Order(None, Some(AmountBudget()), [Project(600), Project(400)], Some(1));
    assert Valid(whole) by {
      assert TotalBudget(whole) == 1000;
      assert TotalBudgetMinimum(whole) == [] && TotalBudgetMaximum(whole) == [];
      assert TotalProjectsMinimum(whole) == [] && ReachMinimumProjects(whole) == [];
      ErrorsWithPieces(whole, TotalProjectsMinimum(whole));
    }
  }

  /** One unit over the budget is rejected even before checkout. */
  lemma OverBudgetRejectedBeforeCheckout()
    ensures Errors(Order(None, Some(AmountBudget()), [Project(600), Project(401)], None)) == [TotalBudgetAboveMaximum]
  {
    var over := Order(None, Some(AmountBudget()), [Project(600), Project(401)], None);
    assert TotalBudget(over) == 1001;
    ErrorsWithPieces(over, TotalProjectsMinimum(over));
  }

  /** Under project-selection voting, 1 project is too few and 3 are enough. */
  lemma SelectionBounds()
    ensures !CanCheckout(Order(None, Some(SelectionBudget()), [Project(700)], None))
    ensures CanCheckout(Order(None, Some(SelectionBudget()), [Project(700), Project(700), Project(700)], None))
  {
    var one := Order(None, Some(SelectionBudget()), [Project(700)], None);
    assert MinimumProjects(one) == 2 && TotalProjects(one) == 1;
  }

  /** Checked out anyway, the single project gets the project-count minimum error and the projects error. */
  lemma TooFewProjectsRejectedAtCheckout()
    ensures Errors(Order(None, Some(SelectionBudget()), [Project(700)], Some(1)))
      == [TotalProjectsBelowMinimum, ProjectsInvalid]
  {
    var one := Order(None, Some(SelectionBudget()), [Project(700)], Some(1));
    assert MinimumProjects(one) == 2 && TotalProjects(one) == 1;
    assert TotalProjectsMaximum(one) == [];
    ErrorsWithPieces(one, TotalProjectsMinimum(one));
  }

  /** Under project-selection voting, 6 projects out of at most 5 are rejected even while pending. */
  lemma TooManyProjectsRejectedBeforeCheckout()
    ensures Errors(Order(None, Some(SelectionBudget()), seq(6, _ => Project(1)), None)) == [TotalProjectsAboveMaximum]
  {
    var six := Order(None, Some(SelectionBudget()), seq(6, _ => Project(1)), None);
    ErrorsWithPieces(six, TotalProjectsMinimum(six));
  }

  /**
   * With the minimum-projects rule, an amount that would meet the threshold does
   * not help 2 projects; as written, the project-count minimum reports as well.
   */
  lemma MinimumProjectsOverridesAmount()
    ensures MinimumBudget(Order(None, Some(MinimumProjectsBudget()), [Project(300), Project(300)], None)) == 0.0
    ensures !CanCheckout(Order(None, Some(MinimumProjectsBudget()), [Project(300), Project(300)], None))
    ensures Errors(Order(None, Some(MinimumProjectsBudget()), [Project(300), Project(300)], Some(1)))
      == [TotalProjectsBelowMinimum, ProjectsInvalid]
  {
    var two := Order(None, Some(MinimumProjectsBudget()), [Project(300), Project(300)], Some(1));
    assert Errors(two) == [TotalProjectsBelowMinimum, ProjectsInvalid] by {
      assert TotalBudget(two) == 600 && MinimumProjects(two) == 3;
      ErrorsWithPieces(two, TotalProjectsMinimum(two));
    }
  }

  /** With both count rules on, 2 projects meet the selection minimum of 1 but not the minimum-projects number of 3. */
  lemma MinimumProjectsRuleWinsOverSelection()
    ensures MinimumProjects(Order(None, Some(BothRulesBudget()), [Project(1), Project(1)], None)) == 3
    ensures !CanCheckout(Order(None, Some(BothRulesBudget()), [Project(1), Project(1)], None))
    ensures Errors(Order(None, Some(BothRulesBudget()), [Project(1), Project(1)], Some(1)))
      == [TotalProjectsBelowMinimum, ProjectsInvalid]
  {
    var two := Order(None, Some(BothRulesBudget()), [Project(1), Project(1)], Some(1));
    assert Errors(two) == [TotalProjectsBelowMinimum, ProjectsInvalid] by {
      assert MinimumProjects(two) == 3 && TotalProjects(two) == 2;
      assert TotalProjectsMaximum(two) == [];
      ErrorsWithPieces(two, TotalProjectsMinimum(two));
    }
  }

  /** A budget of organisation 1 reached through its component, with no voting rule. */
  function OrganizationBudget(): Budget
  {
    Budget(1000, Settings(0, false, 0, false, 0, 0), Some(Component(Some(Organization(1)))))
  }

  /** A user of another organisation is rejected. */
  lemma ForeignUserRejected()
    ensures Errors(Order(Some(User(Some(Organization(2)))), Some(OrganizationBudget()), [], None)) == [UserInvalid]
  {
    var foreign := Order(Some(User(Some(Organization(2)))), Some(OrganizationBudget()), [], None);
    assert UserBelongsToOrganization(foreign) == [UserInvalid];
    ErrorsWithPieces(foreign, TotalProjectsMinimum(foreign));
  }

  /** An order without a user is not checked against the organisation at all. */
  lemma AnonymousOrderNotChecked()
    ensures Errors(Order(None, Some(OrganizationBudget()), [], None)) == []
  {
    var anonymous := Order(None, Some(OrganizationBudget()), [], None);
    ErrorsWithPieces(anonymous, TotalProjectsMinimum(anonymous));
  }
}
