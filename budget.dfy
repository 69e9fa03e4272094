/** The three status bands both budget views use for a spent percentage:
    over budget above 90, warning above 70, on track otherwise. */
module Bands {
  import opened Common

  datatype Band = OnTrack | Warning | OverBudget

  /** `p > 90 ? over-budget : p > 70 ? warning : on-track`; a NaN percentage
      fails both comparisons and is on track. */
  function BandOf(p: Num): Band {
    if Greater(p, 90.0) then OverBudget
    else if Greater(p, 70.0) then Warning
    else OnTrack
  }

  /** The percentage `part / whole * 100` as JavaScript computes it. */
  function Percentage(part: real, whole: real): Num {
    Scale(Divide(part, whole), 100.0)
  }

  /** For a positive whole the band is decided by comparing `part` with 90%
      and 70% of the whole, and capping the percentage at 100 for display
      never moves it to another band. */
  lemma BandOfPositiveWhole(part: real, whole: real)
    requires whole > 0.0
    ensures Percentage(part, whole).Finite?
    ensures BandOf(Percentage(part, whole)) == OverBudget <==> part * 100.0 > whole * 90.0
    ensures BandOf(Percentage(part, whole)) == Warning <==>
      whole * 70.0 < part * 100.0 <= whole * 90.0
    ensures BandOf(Percentage(part, whole)) == OnTrack <==> part * 100.0 <= whole * 70.0
    ensures BandOf(Min(Percentage(part, whole), 100.0)) == BandOf(Percentage(part, whole))
  {
    var q := part / whole;
    assert q * whole == part;
    assert Percentage(part, whole) == Finite(q * 100.0);
    RatioAbove(q, part, whole, 90.0);
    RatioAbove(q, part, whole, 70.0);
  }

  /** For `q == part / whole` with a positive whole, `q * 100 > t` compares
      `part` with `t` percent of the whole. */
  lemma RatioAbove(q: real, part: real, whole: real, t: real)
    requires whole > 0.0 && q * whole == part
    ensures q * 100.0 > t <==> part * 100.0 > whole * t
  {
    assert part * 100.0 - whole * t == (q * 100.0 - t) * whole;
    if q * 100.0 > t {
      assert (q * 100.0 - t) * whole > 0.0;
    } else {
      assert (t - q * 100.0) * whole >= 0.0;
    }
  }

  /** A percentage of a positive whole, capped at 100, lies in [0, 100] for a
      non-negative part and is exactly 100 when the part reaches the whole. */
  lemma CappedPercentageOfPositiveWhole(part: real, whole: real)
    requires whole > 0.0 && part >= 0.0
    ensures var p := Min(Percentage(part, whole), 100.0);
      p.Finite? && 0.0 <= p.v <= 100.0 && (p.v == 100.0 <==> part >= whole)
  {
    var q := part / whole;
    assert q * whole == part;
    RatioAbove(q, part, whole, 0.0);
    RatioAbove(q, part, whole, 100.0);
    assert q * 100.0 >= 100.0 <==> part >= whole by {
      assert q * 100.0 >= 100.0 <==> !(100.0 > q * 100.0);
      RatioAbove(q, part, whole, 100.0);
      assert part * 100.0 >= whole * 100.0 <==> part >= whole;
      if q * 100.0 >= 100.0 {
        assert q >= 1.0;
        assert q * whole >= whole by { assert (q - 1.0) * whole >= 0.0; }
      } else {
        assert q < 1.0;
        assert q * whole < whole by { assert (1.0 - q) * whole > 0.0; }
      }
    }
  }
}

/** The budget part of the application state of app.js: spending categories
    with a ceiling and a running spent total, the list of recorded expenses,
    and the figures the budget tab derives from them. */
module Budget {
  import opened Common
  import opened Bands

  datatype Category = Category(id: Id, name: string, icon: string, budget: real, spent: real, color: string)

  datatype Expense = Expense(id: Id, categoryId: Id, amount: real, description: string, date: string)

  /** The sums `updateBudgetSummary` shows. */
  datatype Summary = Summary(totalBudget: real, totalSpent: real, totalRemaining: real)

  /** What `renderBudgetCategories` shows for one category. */
  datatype CategoryView = CategoryView(percentage: Num, remaining: real, band: Band)

  /** The answer to the "new budget" prompt of `editCategory`, as far as its
      guard can tell: dismissed, empty, not a number, or a number. */
  datatype BudgetAnswer = Cancelled | Blank | NotANumber | Number(value: real)

  /** `categories.find(c => c.id == id)`, as a position or -1. */
  function CategoryPosition(cs: seq<Category>, id: Id): int {
    FindIndex(cs, (c: Category) => c.id == id)
  }

  /** Replacing a category by one with the same identifier moves no
      category: every identifier is found where it was. */
  lemma UpdateKeepsPositions(cs: seq<Category>, k: nat, c: Category)
    requires k < |cs| && c.id == cs[k].id
    ensures forall id :: CategoryPosition(cs[k := c], id) == CategoryPosition(cs, id)
  {
    forall id ensures CategoryPosition(cs[k := c], id) == CategoryPosition(cs, id) {
      var p := (x: Category) => x.id == id;
      assert forall j :: 0 <= j < |cs| ==> p(cs[k := c][j]) == p(cs[j]);
    }
  }

  /** `categories.reduce((sum, cat) => sum + cat.budget, 0)`. */
  function TotalBudget(cs: seq<Category>): real {
    if |cs| == 0 then 0.0 else TotalBudget(cs[..|cs| - 1]) + cs[|cs| - 1].budget
  }

  /** `categories.reduce((sum, cat) => sum + cat.spent, 0)`. */
  function TotalSpent(cs: seq<Category>): real {
    if |cs| == 0 then 0.0 else TotalSpent(cs[..|cs| - 1]) + cs[|cs| - 1].spent
  }

  /** `updateBudgetSummary`: what is left is the sum of the ceilings minus
      the sum of the spent totals, and may be negative. */
  function BudgetSummary(cs: seq<Category>): (s: Summary)
    ensures s.totalBudget == TotalBudget(cs) && s.totalSpent == TotalSpent(cs)
    ensures s.totalRemaining == s.totalBudget - s.totalSpent
    ensures s.totalRemaining < 0.0 <==> TotalSpent(cs) > TotalBudget(cs)
  {
    var budget := TotalBudget(cs);
    var spent := TotalSpent(cs);
    Summary(budget, spent, budget - spent)
  }

  /** Adding `amount` to one category's spent total adds it to the overall
      spent total and leaves the overall budget alone. */
  lemma {:induction false} SpendOneCategory(cs: seq<Category>, i: nat, amount: real)
    requires i < |cs|
    ensures var cs' := cs[i := cs[i].(spent := cs[i].spent + amount)];
      TotalSpent(cs') == TotalSpent(cs) + amount && TotalBudget(cs') == TotalBudget(cs)
  {
    var cs' := cs[i := cs[i].(spent := cs[i].spent + amount)];
    var n := |cs|;
    if i == n - 1 {
      assert cs'[..n - 1] == cs[..n - 1];
    } else {
      SpendOneCategory(cs[..n - 1], i, amount);
      assert cs'[..n - 1] == cs[..n - 1][i := cs[i].(spent := cs[i].spent + amount)];
    }
  }

  /** Changing one category's ceiling changes the overall budget by the
      difference and leaves the overall spent total alone. */
  lemma {:induction false} RebudgetOneCategory(cs: seq<Category>, i: nat, budget: real)
    requires i < |cs|
    ensures var cs' := cs[i := cs[i].(budget := budget)];
      TotalBudget(cs') == TotalBudget(cs) - cs[i].budget + budget && TotalSpent(cs') == TotalSpent(cs)
  {
    var cs' := cs[i := cs[i].(budget := budget)];
    var n := |cs|;
    if i == n - 1 {
      assert cs'[..n - 1] == cs[..n - 1];
    } else {
      RebudgetOneCategory(cs[..n - 1], i, budget);
      assert cs'[..n - 1] == cs[..n - 1][i := cs[i].(budget := budget)];
    }
  }

  /** `renderBudgetCategories` for one category: the spent percentage capped
      at 100, the uncapped remainder, and the band of the capped percentage. */
  function CategoryStatus(c: Category): (v: CategoryView)
    ensures v.percentage == NaN <==> c.spent == 0.0 && c.budget == 0.0
    ensures v.percentage != PosInf
    ensures v.band == OverBudget ==> v.percentage.Finite? && v.percentage.v > 90.0
    ensures v.remaining < 0.0 <==> c.spent > c.budget
  {
    var percentage := Min(Percentage(c.spent, c.budget), 100.0);
    CategoryView(percentage, c.budget - c.spent, BandOf(percentage))
  }

  /** With a positive ceiling and a non-negative spent total, the shown
      percentage lies in [0, 100] and is 100 exactly when the ceiling is
      reached; the band compares the spent total with 90% and 70% of the
      ceiling; the remainder is negative exactly when the ceiling is passed. */
  lemma StatusWithPositiveBudget(c: Category)
    requires c.budget > 0.0 && c.spent >= 0.0
    ensures var v := CategoryStatus(c);
      v.percentage.Finite? && 0.0 <= v.percentage.v <= 100.0 &&
      (v.percentage.v == 100.0 <==> c.spent >= c.budget) &&
      (v.band == OverBudget <==> c.spent * 100.0 > c.budget * 90.0) &&
      (v.band == Warning <==> c.budget * 70.0 < c.spent * 100.0 <= c.budget * 90.0) &&
      (v.band == OnTrack <==> c.spent * 100.0 <= c.budget * 70.0) &&
      (v.remaining < 0.0 <==> c.spent > c.budget)
  {
    CappedPercentageOfPositiveWhole(c.spent, c.budget);
    BandOfPositiveWhole(c.spent, c.budget);
  }

  /** A zero ceiling divides by zero: with nothing spent the percentage is NaN
      and the band is on track; with something spent it is +Infinity, shown
      as 100 and over budget. */
  lemma StatusWithZeroBudget(c: Category)
    requires c.budget == 0.0 && c.spent >= 0.0
    ensures var v := CategoryStatus(c);
      (c.spent == 0.0 ==> v.percentage == NaN && v.band == OnTrack) &&
      (c.spent > 0.0 ==> v.percentage == Finite(100.0) && v.band == OverBudget) &&
      v.remaining == -c.spent
  {
  }

  /** Spent totals are never negative, and every recorded expense has a
      positive amount and names a listed category. */
  ghost predicate Consistent(cs: seq<Category>, es: seq<Expense>) {
    (forall i :: 0 <= i < |cs| ==> cs[i].spent >= 0.0) &&
    (forall j :: 0 <= j < |es| ==> es[j].amount > 0.0 && CategoryPosition(cs, es[j].categoryId) != -1)
  }

  /** Recording an expense against a listed category keeps the ledger
      consistent. */
  lemma SpendingKeepsConsistent(cs: seq<Category>, es: seq<Expense>, k: nat, e: Expense,
                                 cs': seq<Category>, es': seq<Expense>)
    requires Consistent(cs, es) && k < |cs| && e.amount > 0.0 && cs[k].id == e.categoryId
    requires cs' == cs[k := cs[k].(spent := cs[k].spent + e.amount)] && es' == es + [e]
    ensures Consistent(cs', es')
  {
    UpdateKeepsPositions(cs, k, cs'[k]);
    assert CategoryPosition(cs, e.categoryId) != -1;
  }

  /** A new ceiling keeps the ledger consistent. */
  lemma RebudgetingKeepsConsistent(cs: seq<Category>, es: seq<Expense>, k: nat, budget: real,
                                    cs': seq<Category>)
    requires Consistent(cs, es) && k < |cs| && cs' == cs[k := cs[k].(budget := budget)]
    ensures Consistent(cs', es)
  {
    UpdateKeepsPositions(cs, k, cs'[k]);
  }

  class Ledger {
    var categories: seq<Category>
    var expenses: seq<Expense>

    /** Spent totals are never negative, and every recorded expense has a
        positive amount and names a listed category. */
    ghost predicate Valid()
      reads this
    {
      Consistent(categories, expenses)
    }

    constructor (categories: seq<Category>)
      requires forall i :: 0 <= i < |categories| ==> categories[i].spent >= 0.0
      ensures Valid() && this.categories == categories && expenses == []
    {
      this.categories := categories;
      expenses := [];
    }

    /** `saveExpense`, with the parsed amount as a parameter (`None` for
        NaN): a missing category id, a zero, NaN or negative amount, or an
        unknown category changes nothing; otherwise the category's spent total
        grows by exactly the amount and exactly one expense is appended. The
        description is trimmed but not checked. */
    method SaveExpense(categoryId: Id, amount: Option<real>, descriptionInput: string, freshId: Id, date: string)
      returns (saved: bool)
      requires Valid()
      modifies this
      ensures Valid()
      ensures var k := CategoryPosition(old(categories), categoryId);
        (saved <==> categoryId != "" && amount.Some? && amount.value > 0.0 && k != -1) &&
        (saved ==>
          categories == old(categories)[k := old(categories)[k].(spent := old(categories)[k].spent + amount.value)] &&
          expenses == old(expenses) + [Expense(freshId, categoryId, amount.value, Trim(descriptionInput), date)])
      ensures saved ==>
        BudgetSummary(categories) == Summary(old(TotalBudget(categories)),
                                             old(TotalSpent(categories)) + amount.value,
                                             old(BudgetSummary(categories)).totalRemaining - amount.value)
      ensures !saved ==> categories == old(categories) && expenses == old(expenses)
    {
      var description := Trim(descriptionInput);
      if categoryId == "" || amount.None? || amount.value <= 0.0 {
        return false;
      }
      var k := CategoryPosition(categories, categoryId);
      if k == -1 {
        return false;
      }
      Record(k, Expense(freshId, categoryId, amount.value, description, date));
      saved := true;
    }

    /** The bookkeeping of a saved expense: the category's spent total grows
        by the amount and the expense is appended. */
    method Record(k: nat, e: Expense)
      requires Valid() && k < |categories| && categories[k].id == e.categoryId && e.amount > 0.0
      modifies this
      ensures Valid()
      ensures categories == old(categories)[k := old(categories)[k].(spent := old(categories)[k].spent + e.amount)]
      ensures expenses == old(expenses) + [e]
      ensures BudgetSummary(categories) == Summary(old(TotalBudget(categories)),
                                                   old(TotalSpent(categories)) + e.amount,
                                                   old(BudgetSummary(categories)).totalRemaining - e.amount)
    {
      var cs, es := categories[k := categories[k].(spent := categories[k].spent + e.amount)], expenses + [e];
      SpendingKeepsConsistent(categories, expenses, k, e, cs, es);
      SpendOneCategory(categories, k, e.amount);
      categories, expenses := cs, es;
    }

    /** The guard of `editCategory`, with the prompt's answer as a
        parameter: only a known category and a numeric answer change
        anything, and then only that category's ceiling; the number is not
        checked for sign. */
    method EditCategory(categoryId: Id, answer: BudgetAnswer) returns (changed: bool)
      requires Valid()
      modifies this
      ensures Valid()
      ensures var k := CategoryPosition(old(categories), categoryId);
        (changed <==> k != -1 && answer.Number?) &&
        categories == (if changed then old(categories)[k := old(categories)[k].(budget := answer.value)]
                       else old(categories))
      ensures expenses == old(expenses)
      ensures changed ==> TotalSpent(categories) == old(TotalSpent(categories))
    {
      var k := CategoryPosition(categories, categoryId);
      if k == -1 || !answer.Number? {
        return false;
      }
      var cs := categories[k := categories[k].(budget := answer.value)];
      RebudgetOneCategory(categories, k, answer.value);
      RebudgetingKeepsConsistent(categories, expenses, k, answer.value, cs);
      categories := cs;
      changed := true;
    }
  }
}
