/** The React budget component (src/components/BudgetTracker.js): one overall
    budget, a list of expenses each tagged with a category name, the form
    that adds them, and the figures derived from the list: the total spent,
    what remains, the spent percentage with its coloured bar, and the totals
    per category for the pie chart. */
module Tracker {
  import opened Common
  import opened Bands

  datatype TrackerCategory = TrackerCategory(name: string, color: string, icon: string)

  /** The fixed category table, in display order. */
  const Categories: seq<TrackerCategory> := [
    TrackerCategory("תחבורה", "#8884d8", "🚗"),
    TrackerCategory("לינה", "#82ca9d", "🏨"),
    TrackerCategory("אוכל", "#ffc658", "🍽️"),
    TrackerCategory("אטרקציות", "#ff7300", "🎢"),
    TrackerCategory("קניות", "#0088fe", "🛍️")
  ]

  const DefaultCategory: string := "תחבורה"

  /** The amount field of the form. It is a number input, so its text is
      either empty or the decimal form of a number. */
  datatype AmountField = Empty | Typed(value: real)

  datatype ExpenseForm = ExpenseForm(category: string, amount: AmountField, description: string)

  /** The form as it starts and as it is reset after an expense is added. */
  const BlankForm: ExpenseForm := ExpenseForm(DefaultCategory, Empty, "")

  datatype Expense = Expense(category: string, amount: real, description: string, date: string, id: int)

  /** One slice of the pie chart. */
  datatype CategoryTotal = CategoryTotal(name: string, value: real, color: string, icon: string)

  /** `Number(field)`: an empty field converts to 0. */
  function NumberOf(a: AmountField): real {
    match a
    case Empty => 0.0
    case Typed(v) => v
  }

  /** `expenses.reduce((sum, e) => sum + e.amount, 0)`. */
  function Total(es: seq<Expense>): real {
    if |es| == 0 then 0.0 else Total(es[..|es| - 1]) + es[|es| - 1].amount
  }

  /** The sum of the amounts of the expenses tagged `name`. */
  function AmountFor(es: seq<Expense>, name: string): real {
    if |es| == 0 then 0.0
    else AmountFor(es[..|es| - 1], name) + (if es[|es| - 1].category == name then es[|es| - 1].amount else 0.0)
  }

  /** A list of positive amounts has a positive total unless it is empty. */
  lemma {:induction false} TotalOfPositive(es: seq<Expense>)
    requires forall j :: 0 <= j < |es| ==> es[j].amount > 0.0
    ensures Total(es) >= 0.0 && (Total(es) == 0.0 <==> es == [])
  {
    if |es| > 0 {
      TotalOfPositive(es[..|es| - 1]);
    }
  }

  /** The pie chart slice of one category, zero or not. */
  function CategoryRow(c: TrackerCategory, es: seq<Expense>): CategoryTotal {
    CategoryTotal(c.name, AmountFor(es, c.name), c.color, c.icon)
  }

  function AllRows(cats: seq<TrackerCategory>, es: seq<Expense>): (rows: seq<CategoryTotal>)
    ensures |rows| == |cats|
  {
    seq(|cats|, k requires 0 <= k < |cats| => CategoryRow(cats[k], es))
  }

  /** One more table entry adds its slice at the end. */
  lemma AllRowsAppend(cats: seq<TrackerCategory>, c: TrackerCategory, es: seq<Expense>)
    ensures AllRows(cats + [c], es) == AllRows(cats, es) + [CategoryRow(c, es)]
  {
  }

  /** `getExpensesByCategory` as the category table mapped to slices and
      filtered to the positive ones. */
  function CategoryRows(cats: seq<TrackerCategory>, es: seq<Expense>): seq<CategoryTotal> {
    Filter(AllRows(cats, es), IsPositive)
  }

  /** One more table entry adds its slice at the end when the slice is
      positive. */
  lemma CategoryRowsPrefixStep(cats: seq<TrackerCategory>, k: nat, es: seq<Expense>)
    requires k < |cats|
    ensures var row := CategoryRow(cats[k], es);
      CategoryRows(cats[..k + 1], es) == CategoryRows(cats[..k], es) + if IsPositive(row) then [row] else []
  {
    assert cats[..k + 1] == cats[..k] + [cats[k]];
    AllRowsAppend(cats[..k], cats[k], es);
    FilterSnoc(AllRows(cats[..k], es), CategoryRow(cats[k], es), IsPositive);
  }

  /** `cat => cat.value > 0`. */
  predicate IsPositive(row: CategoryTotal) {
    row.value > 0.0
  }

  /** Every slice is the positive total of a listed category, and every
      listed category with a positive total has its slice. */
  lemma CategoryRowsAreTotals(cats: seq<TrackerCategory>, es: seq<Expense>)
    ensures forall r :: 0 <= r < |CategoryRows(cats, es)| ==>
      var row := CategoryRows(cats, es)[r];
      row.value == AmountFor(es, row.name) && row.value > 0.0 &&
      exists k :: 0 <= k < |cats| && cats[k] == TrackerCategory(row.name, row.color, row.icon)
    ensures forall k :: 0 <= k < |cats| && AmountFor(es, cats[k].name) > 0.0 ==>
      CategoryRow(cats[k], es) in CategoryRows(cats, es)
  {
    var all := AllRows(cats, es);
    var rows := CategoryRows(cats, es);
    forall r | 0 <= r < |rows|
      ensures rows[r].value == AmountFor(es, rows[r].name) && rows[r].value > 0.0 &&
        exists k :: 0 <= k < |cats| && cats[k] == TrackerCategory(rows[r].name, rows[r].color, rows[r].icon)
    {
      assert rows[r] in all;
      var k :| 0 <= k < |all| && all[k] == rows[r];
      assert cats[k] == TrackerCategory(rows[r].name, rows[r].color, rows[r].icon);
    }
    forall k | 0 <= k < |cats| && AmountFor(es, cats[k].name) > 0.0
      ensures CategoryRow(cats[k], es) in rows
    {
      assert all[k] == CategoryRow(cats[k], es);
    }
  }

  /** The number of table entries called `name`. */
  function Occurrences(cats: seq<TrackerCategory>, name: string): nat {
    if |cats| == 0 then 0
    else (if cats[0].name == name then 1 else 0) + Occurrences(cats[1..], name)
  }

  /** The sum over the table of each category's total. */
  function SumOverCategories(cats: seq<TrackerCategory>, es: seq<Expense>): real {
    if |cats| == 0 then 0.0 else AmountFor(es, cats[0].name) + SumOverCategories(cats[1..], es)
  }

  /** The sum of the values of a list of slices. */
  function SumValues(rows: seq<CategoryTotal>): real {
    if |rows| == 0 then 0.0 else rows[0].value + SumValues(rows[1..])
  }

  /** One more expense adds its amount once for every table entry bearing its
      category name. */
  lemma SumOverCategoriesStep(cats: seq<TrackerCategory>, es: seq<Expense>, e: Expense)
    ensures SumOverCategories(cats, es + [e]) ==
      SumOverCategories(cats, es) + Occurrences(cats, e.category) as real * e.amount
  {
    SumOverCategoriesAppend(cats, es, e);
    SumOverOneExpense(cats, e);
  }

  /** The per-category sum over a list with one more expense is the sum over
      the list plus the sum over that expense alone. */
  lemma {:induction false} SumOverCategoriesAppend(cats: seq<TrackerCategory>, es: seq<Expense>, e: Expense)
    ensures SumOverCategories(cats, es + [e]) == SumOverCategories(cats, es) + SumOverCategories(cats, [e])
  {
    if |cats| > 0 {
      SumOverCategoriesAppend(cats[1..], es, e);
      AmountForSnoc(es, e, cats[0].name);
      AmountForSnoc([], e, cats[0].name);
      assert [] + [e] == [e];
    }
  }

  /** A single expense counts once for every table entry bearing its
      category name. */
  lemma {:induction false} SumOverOneExpense(cats: seq<TrackerCategory>, e: Expense)
    ensures SumOverCategories(cats, [e]) == Occurrences(cats, e.category) as real * e.amount
  {
    if |cats| > 0 {
      SumOverOneExpense(cats[1..], e);
      AmountForOne(e, cats[0].name);
      OccurrencesTimes(cats, e.category, e.amount);
    }
  }

  /** The total of a single expense for a category. */
  lemma AmountForOne(e: Expense, name: string)
    ensures AmountFor([e], name) == if e.category == name then e.amount else 0.0
  {
    assert [e][..0] == [];
  }

  /** `Occurrences` times an amount, one table entry at a time. */
  lemma OccurrencesTimes(cats: seq<TrackerCategory>, name: string, x: real)
    requires |cats| > 0
    ensures Occurrences(cats, name) as real * x ==
      (if cats[0].name == name then x else 0.0) + Occurrences(cats[1..], name) as real * x
  {
    Distribute(cats[0].name == name, Occurrences(cats[1..], name), x);
  }

  /** One more expense adds its amount to its own category's total. */
  lemma AmountForSnoc(es: seq<Expense>, e: Expense, name: string)
    ensures AmountFor(es + [e], name) == AmountFor(es, name) + if e.category == name then e.amount else 0.0
  {
    assert (es + [e])[..|es|] == es;
  }

  /** Multiplying a count of one more or none more by an amount. */
  lemma Distribute(here: bool, later: nat, x: real)
    ensures ((if here then 1 else 0) + later) as real * x == (if here then x else 0.0) + later as real * x
  {
  }

  /** When each expense's category names exactly one table entry, the
      per-category totals add up to the overall total. */
  lemma {:induction false} SumOverCategoriesIsTotal(cats: seq<TrackerCategory>, es: seq<Expense>)
    requires forall j :: 0 <= j < |es| ==> Occurrences(cats, es[j].category) == 1
    ensures SumOverCategories(cats, es) == Total(es)
  {
    if |es| == 0 {
      SumOverCategoriesOfNothing(cats);
    } else {
      var init, last := es[..|es| - 1], es[|es| - 1];
      assert init + [last] == es;
      SumOverCategoriesIsTotal(cats, init);
      SumOverCategoriesAppend(cats, init, last);
      SumOverOneExpense(cats, last);
      assert Occurrences(cats, last.category) == 1;
    }
  }

  lemma {:induction false} SumOverCategoriesOfNothing(cats: seq<TrackerCategory>)
    ensures SumOverCategories(cats, []) == 0.0
  {
    if |cats| > 0 {
      SumOverCategoriesOfNothing(cats[1..]);
    }
  }

  /** Dropping the slices that are not positive loses nothing when no slice
      is negative; all slices together add up to the per-category sum. */
  lemma {:induction false} SumOfPositiveRows(rows: seq<CategoryTotal>)
    requires forall r :: 0 <= r < |rows| ==> rows[r].value >= 0.0
    ensures SumValues(Filter(rows, IsPositive)) == SumValues(rows)
  {
    if |rows| > 0 {
      SumOfPositiveRows(rows[1..]);
      var kept := Filter(rows[1..], IsPositive);
      if IsPositive(rows[0]) {
        assert Filter(rows, IsPositive) == [rows[0]] + kept;
        assert ([rows[0]] + kept)[1..] == kept;
      } else {
        assert Filter(rows, IsPositive) == kept;
      }
    }
  }

  lemma {:induction false} SumOfAllRows(cats: seq<TrackerCategory>, es: seq<Expense>)
    ensures SumValues(AllRows(cats, es)) == SumOverCategories(cats, es)
  {
    if |cats| > 0 {
      SumOfAllRows(cats[1..], es);
      assert AllRows(cats, es)[1..] == AllRows(cats[1..], es);
    }
  }

  lemma {:induction false} AmountForOfPositive(es: seq<Expense>, name: string)
    requires forall j :: 0 <= j < |es| ==> es[j].amount > 0.0
    ensures AmountFor(es, name) >= 0.0
  {
    if |es| > 0 {
      AmountForOfPositive(es[..|es| - 1], name);
    }
  }

  /** The pie chart covers all spending: when every expense has a positive
      amount and names exactly one entry of the table (as every listed
      category does, see `ListedCategoryOccursOnce`), the slices add up to
      the total spent. */
  lemma CategoryRowsSumToTotal(cats: seq<TrackerCategory>, es: seq<Expense>)
    requires forall j :: 0 <= j < |es| ==> es[j].amount > 0.0
    requires forall j :: 0 <= j < |es| ==> Occurrences(cats, es[j].category) == 1
    ensures SumValues(CategoryRows(cats, es)) == Total(es)
  {
    SumOverCategoriesIsTotal(cats, es);
    SumOfAllRows(cats, es);
    forall r | 0 <= r < |cats| ensures AmountFor(es, cats[r].name) >= 0.0 {
      AmountForOfPositive(es, cats[r].name);
    }
    SumOfPositiveRows(AllRows(cats, es));
  }

  /** A category name the form can produce: one of the five of the table. */
  predicate IsListedCategory(name: string) {
    name == "תחבורה" || name == "לינה" || name == "אוכל" || name == "אטרקציות" || name == "קניות"
  }

  /** The five category names are distinct. */
  lemma ListedCategoryOccursOnce(name: string)
    requires IsListedCategory(name)
    ensures Occurrences(Categories, name) == 1
  {
    var cs := Categories;
    assert cs[1..][1..][1..][1..][1..] == [];
    assert "תחבורה" != "לינה" && "תחבורה" != "אוכל" && "תחבורה" != "אטרקציות" && "תחבורה" != "קניות";
    assert "לינה"[0] != "אוכל"[0] && "לינה" != "אטרקציות" && "לינה" != "קניות";
    assert "אוכל"[1] != "אטרקציות"[1] && "אוכל" != "קניות";
    assert "אטרקציות" != "קניות";
  }

  /** The colour of the progress bar for a band. */
  function BarColor(b: Band): string {
    match b
    case OverBudget => "#f44336"
    case Warning => "#ff9800"
    case OnTrack => "#4caf50"
  }

  class BudgetTracker {
    var budget: real
    var expenses: seq<Expense>
    var form: ExpenseForm

    /** Every stored expense has a positive amount, and every category name
        in the form and in the expenses is one the category menu offers. */
    predicate Valid()
      reads this
    {
      (forall j :: 0 <= j < |expenses| ==> expenses[j].amount > 0.0) &&
      (forall j :: 0 <= j < |expenses| ==> IsListedCategory(expenses[j].category)) &&
      IsListedCategory(form.category)
    }

    constructor ()
      ensures Valid() && budget == 5000.0 && expenses == [] && form == BlankForm
    {
      budget := 5000.0;
      expenses := [];
      form := BlankForm;
    }

    /** `handleAddExpense`, with the date and the timestamp identifier as
        parameters: only a positive amount and a description that is not
        blank after trimming add anything; then exactly one expense is
        appended, carrying the form's category, the numeric amount and the
        untrimmed description, and the form is reset. */
    method HandleAddExpense(date: string, now: int) returns (added: bool)
      requires Valid()
      modifies this
      ensures Valid() && budget == old(budget)
      ensures added <==> NumberOf(old(form).amount) > 0.0 && Trim(old(form).description) != ""
      ensures added ==>
        expenses == old(expenses) +
          [Expense(old(form).category, NumberOf(old(form).amount), old(form).description, date, now)] &&
        form == BlankForm &&
        TotalSpent() == old(TotalSpent()) + NumberOf(old(form).amount)
      ensures !added ==> expenses == old(expenses) && form == old(form)
    {
      if NumberOf(form.amount) > 0.0 && Trim(form.description) != "" {
        var e := Expense(form.category, NumberOf(form.amount), form.description, date, now);
        ghost var before := expenses;
        expenses := expenses + [e];
        assert expenses[..|expenses| - 1] == before;
        form := BlankForm;
        added := true;
      } else {
        added := false;
      }
    }

    /** The budget field: `Number(value)` of a number input, 0 when empty. */
    method SetBudget(value: AmountField)
      requires Valid()
      modifies this`budget
      ensures Valid() && budget == NumberOf(value)
    {
      budget := NumberOf(value);
    }

    /** The category menu: it offers exactly the entries of the table. */
    method SelectCategory(k: nat)
      requires Valid() && k < |Categories|
      modifies this`form
      ensures Valid() && form == old(form).(category := Categories[k].name)
    {
      form := form.(category := Categories[k].name);
      assert IsListedCategory(Categories[k].name);
    }

    /** The amount and description fields of the form. */
    method EditForm(amount: AmountField, description: string)
      requires Valid()
      modifies this`form
      ensures Valid() && form == old(form).(amount := amount, description := description)
    {
      form := form.(amount := amount, description := description);
    }

    /** The pie chart covers all spending: the slices add up to the total
        spent, because every expense carries a category from the menu and
        the menu's names are distinct. */
    lemma PieCoversSpending()
      requires Valid()
      ensures SumValues(CategoryRows(Categories, expenses)) == TotalSpent()
    {
      forall j | 0 <= j < |expenses| ensures Occurrences(Categories, expenses[j].category) == 1 {
        ListedCategoryOccursOnce(expenses[j].category);
      }
      CategoryRowsSumToTotal(Categories, expenses);
    }

    /** `calculateTotalSpent`: never negative, and zero only with no
        expenses. */
    function TotalSpent(): (r: real)
      reads this
      ensures Valid() ==> r >= 0.0 && (r == 0.0 <==> expenses == [])
    {
      if Valid() then TotalOfPositive(expenses); Total(expenses) else Total(expenses)
    }

    /** `calculateRemaining`: the budget less what was spent, negative once
        the budget is exceeded. */
    function Remaining(): (r: real)
      reads this
      ensures r < 0.0 <==> TotalSpent() > budget
      ensures r + TotalSpent() == budget
    {
      budget - TotalSpent()
    }

    /** `getProgressPercentage`: the total spent as a percentage of the
        budget; a zero budget gives +Infinity or NaN. */
    function ProgressPercentage(): (p: Num)
      reads this
      ensures budget != 0.0 ==> p.Finite? && p.v * budget == TotalSpent() * 100.0
      ensures budget == 0.0 ==> (p == NaN <==> TotalSpent() == 0.0)
      ensures budget == 0.0 && TotalSpent() > 0.0 ==> p == PosInf
    {
      Percentage(TotalSpent(), budget)
    }

    /** The bar's length `Math.min(percentage, 100)` and its colour band: with
        a positive budget the bar lies in [0, 100], is full exactly when the
        budget is used up, and is red above 90% of the budget, orange above
        70% and green otherwise. */
    lemma ProgressBar()
      requires Valid() && budget > 0.0
      ensures var bar := Min(ProgressPercentage(), 100.0);
        bar.Finite? && 0.0 <= bar.v <= 100.0 && (bar.v == 100.0 <==> TotalSpent() >= budget)
      ensures BarColor(BandOf(ProgressPercentage())) == "#f44336" <==> TotalSpent() * 100.0 > budget * 90.0
      ensures BarColor(BandOf(ProgressPercentage())) == "#ff9800" <==>
        budget * 70.0 < TotalSpent() * 100.0 <= budget * 90.0
      ensures BarColor(BandOf(ProgressPercentage())) == "#4caf50" <==> TotalSpent() * 100.0 <= budget * 70.0
    {
      CappedPercentageOfPositiveWhole(TotalSpent(), budget);
      BandOfPositiveWhole(TotalSpent(), budget);
    }

    /** `getExpensesByCategory`: the totals are accumulated into a dictionary
        keyed by category name in one pass over the expenses, then read off
        in table order, keeping the positive ones. */
    method ExpensesByCategory() returns (rows: seq<CategoryTotal>)
      ensures rows == CategoryRows(Categories, expenses)
    {
      var totals: map<string, real> := map[];
      var i := 0;
      while i < |expenses|
        invariant 0 <= i <= |expenses|
        invariant forall name :: name in totals ==> totals[name] == AmountFor(expenses[..i], name)
        invariant forall name :: name !in totals ==> AmountFor(expenses[..i], name) == 0.0
      {
        var e := expenses[i];
        var sofar := if e.category in totals then totals[e.category] else 0.0;
        totals := totals[e.category := sofar + e.amount];
        assert expenses[..i + 1][..i] == expenses[..i];
        i := i + 1;
      }
      assert expenses[..i] == expenses;
      rows := [];
      var k := 0;
      while k < |Categories|
        invariant 0 <= k <= |Categories|
        invariant rows == CategoryRows(Categories[..k], expenses)
      {
        var c := Categories[k];
        var value := if c.name in totals then totals[c.name] else 0.0;
        var row := CategoryTotal(c.name, value, c.color, c.icon);
        assert row == CategoryRow(c, expenses);
        CategoryRowsPrefixStep(Categories, k, expenses);
        if value > 0.0 {
          rows := rows + [row];
        }
        k := k + 1;
      }
      assert Categories[..k] == Categories;
    }
  }
}
