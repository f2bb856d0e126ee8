/**
  The progress calculator: `totalTasks`, `completedTasks` and the rounded
  percentage shown on the progress bar, as functions of the transaction
  type and the completion store.
 */
module ProgressCalculator {
  import opened Catalog
  import opened TaskKeys
  import opened Stores

  /**
    `Math.round(completed / total * 100)` in integers: the nearest whole percent,
    a half rounding up.
   */
  function Percent(completed: nat, total: nat): (r: nat)
    requires total > 0
    ensures (2 * r - 1) * total <= 200 * completed < (2 * r + 1) * total
  {
    (200 * completed + total) / (2 * total)
  }

  /** Only one whole number lies within half a percent (halves up) of the exact ratio. */
  lemma PercentUnique(completed: nat, total: nat, r: int)
    requires total > 0
    requires (2 * r - 1) * total <= 200 * completed < (2 * r + 1) * total
    ensures r == Percent(completed, total)
  {
    var p := Percent(completed, total);
    if r < p {
      assert (2 * r + 1) * total <= (2 * p - 1) * total by {
        MulMonotone(2 * r + 1, 2 * p - 1, total);
      }
    } else if r > p {
      assert (2 * p + 1) * total <= (2 * r - 1) * total by {
        MulMonotone(2 * p + 1, 2 * r - 1, total);
      }
    }
  }

  lemma MulMonotone(a: int, b: int, c: nat)
    requires a <= b
    ensures a * c <= b * c
  {
    assert b * c - a * c == (b - a) * c;
  }

  /** More completed tasks never give a smaller percentage. */
  lemma PercentMonotone(c1: nat, c2: nat, total: nat)
    requires total > 0 && c1 <= c2
    ensures Percent(c1, total) <= Percent(c2, total)
  {
    var r1, r2 := Percent(c1, total), Percent(c2, total);
    if r1 > r2 {
      MulMonotone(2 * r2 + 1, 2 * r1 - 1, total);
    }
  }

  /** Nothing completed is 0%, everything completed is 100%. */
  lemma PercentEnds(total: nat)
    requires total > 0
    ensures Percent(0, total) == 0
    ensures Percent(total, total) == 100
  {
    PercentUnique(0, total, 0);
    PercentUnique(total, total, 100);
  }

  /** While the total is at most 200, the percentage exceeds 100 exactly when completed exceeds total. */
  lemma PercentAbove100(completed: nat, total: nat)
    requires 0 < total <= 200
    ensures Percent(completed, total) > 100 <==> completed > total
  {
    PercentEnds(total);
    if completed > total {
      var r := Percent(completed, total);
      if r <= 100 {
        MulMonotone(2 * r + 1, 201, total);
      }
    } else {
      PercentMonotone(completed, total, total);
    }
  }

  /** The worked values: 1 of 13 is 8%, 9 of 17 is 53%, 1 of 2 is 50%, and 1 of 8 (12.5) rounds up to 13%. */
  lemma PercentExamples()
    ensures Percent(1, 13) == 8
    ensures Percent(9, 17) == 53
    ensures Percent(1, 2) == 50
    ensures Percent(1, 8) == 13
  {
  }

  /**
    `progress`: completed tasks are ALL true values of the store, whatever their phase or type,
    and the result is within half a percent of their ratio to the active list's `totalTasks`.
   */
  function ProgressOf(t: TransactionType, checked: map<string, bool>): (r: nat)
    ensures var total := TaskCount(PhasesFor(t));
      (2 * r - 1) * total <= 200 * CountTrue(checked) < (2 * r + 1) * total
  {
    Percent(CountTrue(checked), TotalTasks(PhasesFor(t)))
  }

  /** Checking an unchecked task never lowers progress; unchecking a checked task never raises it. */
  lemma ToggleProgressMonotone(t: TransactionType, checked: map<string, bool>, key: string)
    ensures !Lookup(checked, key) ==> ProgressOf(t, Flip(checked, key)) >= ProgressOf(t, checked)
    ensures Lookup(checked, key) ==> ProgressOf(t, Flip(checked, key)) <= ProgressOf(t, checked)
  {
    CountTrueFlip(checked, key);
    if Lookup(checked, key) {
      PercentMonotone(CountTrue(Flip(checked, key)), CountTrue(checked), TotalTasks(PhasesFor(t)));
    } else {
      PercentMonotone(CountTrue(checked), CountTrue(Flip(checked, key)), TotalTasks(PhasesFor(t)));
    }
  }

  /** With no task checked, progress is 0. */
  lemma NothingCheckedIsZero(t: TransactionType, checked: map<string, bool>)
    requires forall k :: !Lookup(checked, k)
    ensures ProgressOf(t, checked) == 0
  {
    PercentEnds(TotalTasks(PhasesFor(t)));
  }

  /** With exactly the active catalog's task keys checked, progress is 100. */
  lemma AllActiveCheckedIsHundred(t: TransactionType, checked: map<string, bool>)
    requires TrueKeys(checked) == set k | k in CatalogKeys(PhasesFor(t))
    ensures ProgressOf(t, checked) == 100
  {
    CatalogKeysUnique(t);
    PercentEnds(TotalTasks(PhasesFor(t)));
  }

  /** Progress exceeds 100 exactly when more values are true than the active catalog has tasks. */
  lemma ProgressAbove100(t: TransactionType, checked: map<string, bool>)
    ensures ProgressOf(t, checked) > 100 <==> CountTrue(checked) > TotalTasks(PhasesFor(t))
  {
    PercentAbove100(CountTrue(checked), TotalTasks(PhasesFor(t)));
  }

  /** Every seller task checked, then switched to buyer: 17 stale values against 13 tasks show 131%. */
  lemma StaleSellerKeysInflateBuyerProgress()
    ensures CountTrue(map k | k in CatalogKeys(PhasesFor(Seller)) :: true) == 17
    ensures ProgressOf(Buyer, map k | k in CatalogKeys(PhasesFor(Seller)) :: true) == 131
  {
    var keys := CatalogKeys(PhasesFor(Seller));
    var all := map k | k in keys :: true;
    assert TrueKeys(all) == set k | k in keys;
    CatalogKeysUnique(Seller);
    assert CountTrue(all) == 17;
    PercentUnique(17, 13, 131);
  }

  /** The buyer scenario: from an empty store, checking task 0 of "Pre-Contract" gives 1 completed and 8%. */
  lemma FirstBuyerTaskIsEightPercent()
    ensures CountTrue(Flip(map[], Key("Pre-Contract", 0))) == 1
    ensures ProgressOf(Buyer, Flip(map[], Key("Pre-Contract", 0))) == 8
  {
    CountTrueFlip(map[], Key("Pre-Contract", 0));
    PercentExamples();
  }
}
