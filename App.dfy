/**
  The session state of the `App` component: the three state cells
  `transactionType`, `checked` and `expanded`, and the handlers that change
  them. Each `setX(prev => ...)` is one atomic update of a field.
 */
module App {
  import opened Catalog
  import opened TaskKeys
  import opened Stores
  import opened ProgressCalculator

  class ChecklistApp {
    var transactionType: TransactionType
    var checked: map<string, bool>
    var expanded: map<string, bool>

    // Every key passed to the checked updater, and every phase name passed to the expanded updater, in order.
    ghost var taskToggles: seq<string>
    ghost var phaseToggles: seq<string>

    /** Both stores are exactly what their toggle histories produce from the empty object. */
    ghost predicate Valid()
      reads this
    {
      checked == Replay(map[], taskToggles) && expanded == Replay(map[], phaseToggles)
    }

    /** `useState("buyer")`, `useState({})`, `useState({})`. */
    constructor ()
      ensures Valid()
      ensures transactionType == Buyer && checked == map[] && expanded == map[]
      ensures taskToggles == [] && phaseToggles == []
    {
      transactionType := Buyer;
      checked := map[];
      expanded := map[];
      taskToggles := [];
      phaseToggles := [];
    }

    /** The active phase list. */
    function Phases(): seq<Phase>
      reads this
    {
      PhasesFor(transactionType)
    }

    /** `checked[key] || false`: a key reads as checked exactly when it was toggled an odd number of times. */
    function IsChecked(key: string): (b: bool)
      reads this
      requires Valid()
      ensures b <==> Occurrences(taskToggles, key) % 2 == 1
      ensures key !in taskToggles ==> !b
    {
      ReplayParity(taskToggles, key);
      Lookup(checked, key)
    }

    /** `expanded[name]`: a phase is expanded exactly when its header was toggled an odd number of times. */
    function IsExpanded(name: string): (b: bool)
      reads this
      requires Valid()
      ensures b <==> Occurrences(phaseToggles, name) % 2 == 1
      ensures name !in phaseToggles ==> !b
    {
      ReplayParity(phaseToggles, name);
      Lookup(expanded, name)
    }

    // The three derived values below are the page's reading of its own state: each one applies
    // a pure definition (Catalog.TotalTasks, Stores.CountTrue, ProgressCalculator.Percent)
    // to the current fields, and its contract says what that means for this session.

    /** `totalTasks` of the active phase list: its number of tasks, never zero. */
    function TotalTasks(): (n: nat)
      reads this
      ensures n == TaskCount(Phases()) && n > 0
    {
      Catalog.TotalTasks(Phases())
    }

    /** `completedTasks`: the keys toggled an odd number of times, of any phase and either type. */
    function CompletedTasks(): (n: nat)
      reads this
      requires Valid()
      ensures n == |OddOccurring(taskToggles)|
    {
      ReplayTrueKeys(taskToggles);
      CountTrue(checked)
    }

    /** `progress`: the whole percentage within half a percent of completed over total, halves up. */
    function Progress(): (r: nat)
      reads this
      ensures (2 * r - 1) * TotalTasks() <= 200 * CountTrue(checked) < (2 * r + 1) * TotalTasks()
    {
      Percent(CountTrue(checked), TotalTasks())
    }

    /** `setTransactionType(t)`: switches the active phase list and leaves both stores as they are. */
    method SelectTransactionType(t: TransactionType)
      requires Valid()
      modifies this
      ensures Valid()
      ensures transactionType == t && Phases() == PhasesFor(t)
      ensures checked == old(checked) && expanded == old(expanded)
      ensures taskToggles == old(taskToggles) && phaseToggles == old(phaseToggles)
      ensures CompletedTasks() == old(CompletedTasks())
    {
      transactionType := t;
    }

    /** `toggleTask(phase, index)`: flips the value under `${phase}-${index}` and nothing else. */
    method ToggleTask(phase: string, index: nat)
      requires Valid()
      modifies this
      ensures Valid()
      ensures checked == Flip(old(checked), Key(phase, index))
      ensures taskToggles == old(taskToggles) + [Key(phase, index)]
      ensures transactionType == old(transactionType) && expanded == old(expanded) && phaseToggles == old(phaseToggles)
      ensures IsChecked(Key(phase, index)) == !old(IsChecked(Key(phase, index)))
      ensures forall k :: k != Key(phase, index) ==> IsChecked(k) == old(IsChecked(k))
      ensures !old(IsChecked(Key(phase, index))) ==> CompletedTasks() == old(CompletedTasks()) + 1
      ensures old(IsChecked(Key(phase, index))) ==> CompletedTasks() == old(CompletedTasks()) - 1
      ensures !old(IsChecked(Key(phase, index))) ==> Progress() >= old(Progress())
      ensures old(IsChecked(Key(phase, index))) ==> Progress() <= old(Progress())
    {
      var key := Key(phase, index);
      ghost var completedBefore := CompletedTasks();
      ghost var wasChecked := IsChecked(key);
      CountTrueFlip(checked, key);
      checked := Flip(checked, key);
      taskToggles := taskToggles + [key];
      assert taskToggles[..|taskToggles| - 1] == old(taskToggles);
      ghost var completedAfter := CompletedTasks();
      if wasChecked {
        PercentMonotone(completedAfter, completedBefore, TotalTasks());
      } else {
        PercentMonotone(completedBefore, completedAfter, TotalTasks());
      }
    }

    /** `toggleExpand(phaseName)`: flips the named phase only; any number of phases may be open. */
    method ToggleExpand(phaseName: string)
      requires Valid()
      modifies this
      ensures Valid()
      ensures expanded == Flip(old(expanded), phaseName)
      ensures phaseToggles == old(phaseToggles) + [phaseName]
      ensures transactionType == old(transactionType) && checked == old(checked) && taskToggles == old(taskToggles)
      ensures IsExpanded(phaseName) == !old(IsExpanded(phaseName))
      ensures forall n :: n != phaseName ==> IsExpanded(n) == old(IsExpanded(n))
    {
      expanded := Flip(expanded, phaseName);
      phaseToggles := phaseToggles + [phaseName];
      assert phaseToggles[..|phaseToggles| - 1] == old(phaseToggles);
    }
  }

  /** The buyer scenario: one task checked gives 8%, and two phases stay open at once. */
  method BuyerWalkthrough()
  {
    var app := new ChecklistApp();
    assert app.Progress() == 0 by {
      NothingCheckedIsZero(Buyer, map[]);
    }
    app.ToggleTask("Pre-Contract", 0);
    assert app.CompletedTasks() == 1 && app.Progress() == 8 by {
      FirstBuyerTaskIsEightPercent();
    }
    app.ToggleExpand("Closing");
    app.ToggleExpand("Pre-Contract");
    assert app.IsExpanded("Closing") && app.IsExpanded("Pre-Contract");
  }

  /** A buyer "Closing" task shows up checked under the seller's "Closing" after switching type. */
  method SharedKeyWalkthrough()
  {
    var app := new ChecklistApp();
    app.ToggleTask("Closing", 0);
    app.SelectTransactionType(Seller);
    assert app.Phases()[3].name == "Closing";
    assert app.IsChecked(Key(app.Phases()[3].name, 0));
    assert app.CompletedTasks() == 1;
  }
}
