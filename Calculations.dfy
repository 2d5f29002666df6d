/** The financial arithmetic of `src/utils/calculations.js`: totals, balance, savings,
    goal progress, savings variation and per-category spending. */
module Calculations {
  import opened Js
  import opened Records

  // ---------------------------------------------------------------------------
  // Income and expense totals

  /** The amount a budget line contributes to income: only strictly positive amounts count. */
  function IncomeContribution(c: BudgetCategory): (r: real)
    ensures r >= 0.0
    ensures c.amount > 0.0 ==> r == c.amount
    ensures c.amount <= 0.0 ==> r == 0.0
  {
    if c.amount > 0.0 then c.amount else 0.0
  }

  /** `calculateTotalIncome`: a left fold adding each line's contribution. */
  function TotalIncome(cs: seq<BudgetCategory>): (r: real)
    ensures r >= 0.0
  {
    if cs == [] then 0.0 else TotalIncome(cs[..|cs| - 1]) + IncomeContribution(cs[|cs| - 1])
  }

  /** The lines with a strictly positive amount, in order: the reference definition of income. */
  function IncomeLines(cs: seq<BudgetCategory>): (r: seq<BudgetCategory>)
    ensures forall c :: c in r <==> c in cs && c.amount > 0.0
  {
    if cs == [] then []
    else IncomeLines(cs[..|cs| - 1]) + (if cs[|cs| - 1].amount > 0.0 then [cs[|cs| - 1]] else [])
  }

  /** Plain sum of the amounts of a list of lines. */
  function SumAmounts(cs: seq<BudgetCategory>): real {
    if cs == [] then 0.0 else SumAmounts(cs[..|cs| - 1]) + cs[|cs| - 1].amount
  }

  /** Income is exactly the sum of the positive lines, the others being ignored. */
  lemma {:induction false} TotalIncomeIsSumOfPositiveLines(cs: seq<BudgetCategory>)
    ensures TotalIncome(cs) == SumAmounts(IncomeLines(cs))
  {
    if cs != [] {
      var init, last := cs[..|cs| - 1], cs[|cs| - 1];
      TotalIncomeIsSumOfPositiveLines(init);
      var lines := IncomeLines(init);
      if last.amount > 0.0 {
        assert IncomeLines(cs) == lines + [last];
        assert (lines + [last])[..|lines|] == lines;
        assert SumAmounts(lines + [last]) == SumAmounts(lines) + last.amount;
      } else {
        assert IncomeLines(cs) == lines;
      }
    }
  }

  /** Income over a concatenation of budgets is the sum of their incomes. */
  lemma {:induction false} TotalIncomeConcat(a: seq<BudgetCategory>, b: seq<BudgetCategory>)
    ensures TotalIncome(a + b) == TotalIncome(a) + TotalIncome(b)
  {
    if b == [] {
      assert a + b == a;
    } else {
      var b' := b[..|b| - 1];
      assert (a + b)[..|a + b| - 1] == a + b';
      TotalIncomeConcat(a, b');
    }
  }

  /** Lines of 800 and -50 give an income of 800. */
  lemma TotalIncomeExample(salary: BudgetCategory, rent: BudgetCategory)
    requires salary.amount == 800.0 && rent.amount == -50.0
    ensures TotalIncome([salary, rent]) == 800.0
  {
    assert [salary, rent][..1] == [salary];
    assert [salary][..0] == [];
    assert TotalIncome([salary]) == 800.0;
  }

  /** `calculateTotalExpenses`: a left fold over every expense, without filtering. */
  function TotalExpenses(es: seq<Expense>): real {
    if es == [] then 0.0 else TotalExpenses(es[..|es| - 1]) + es[|es| - 1].amount
  }

  /** Expenses over a concatenation add up; in particular appending one expense raises the
      total by exactly its amount. */
  lemma {:induction false} TotalExpensesConcat(a: seq<Expense>, b: seq<Expense>)
    ensures TotalExpenses(a + b) == TotalExpenses(a) + TotalExpenses(b)
  {
    if b == [] {
      assert a + b == a;
    } else {
      var b' := b[..|b| - 1];
      assert (a + b)[..|a + b| - 1] == a + b';
      TotalExpensesConcat(a, b');
    }
  }

  /** `calculateBalance` */
  function Balance(totalIncome: real, totalExpenses: real): (r: real)
    ensures r + totalExpenses == totalIncome
  {
    totalIncome - totalExpenses
  }

  /** `calculateSavings`: the balance floored at 0. */
  function Savings(balance: real): (r: real)
    ensures r >= 0.0 && r >= balance
    ensures balance >= 0.0 ==> r == balance
    ensures balance < 0.0 ==> r == 0.0
  {
    if balance > 0.0 then balance else 0.0
  }

  lemma SavingsMonotone(a: real, b: real)
    requires a <= b
    ensures Savings(a) <= Savings(b)
  {
  }

  /** The statistics `getFinancialStats` returns. */
  datatype FinancialStats = FinancialStats(totalIncome: real, totalExpenses: real, balance: real, savings: real)

  /** `getFinancialStats(budget, expenses)`. The function takes no income entries and no
      reserves: callers that pass them see them ignored. */
  function GetFinancialStats(budget: Budget, expenses: seq<Expense>): (r: FinancialStats)
    ensures r.totalIncome == TotalIncome(budget.categories)
    ensures r.totalExpenses == TotalExpenses(expenses)
    ensures r.balance == r.totalIncome - r.totalExpenses
    ensures r.savings >= 0.0 && r.savings >= r.balance
    ensures r.balance >= 0.0 ==> r.savings == r.balance
    ensures r.balance < 0.0 ==> r.savings == 0.0
  {
    var totalIncome := TotalIncome(budget.categories);
    var totalExpenses := TotalExpenses(expenses);
    var balance := Balance(totalIncome, totalExpenses);
    FinancialStats(totalIncome, totalExpenses, balance, Savings(balance))
  }

  /** The stored `totalIncome` of a budget plays no part: income is recomputed from the lines. */
  lemma StatsIgnoreStoredIncome(categories: seq<BudgetCategory>, t1: real, t2: real, expenses: seq<Expense>)
    ensures GetFinancialStats(Budget(categories, t1), expenses) == GetFinancialStats(Budget(categories, t2), expenses)
  {
  }

  /** One monthly salary of 2000 and one expense of 500 give income 2000, balance 1500 and
      savings 1500; income entries and reserves recorded beside them change nothing. */
  lemma StatsExample(salary: BudgetCategory, expense: Expense)
    requires salary.amount == 2000.0 && expense.amount == 500.0
    ensures GetFinancialStats(Budget([salary], 0.0), [expense]) == FinancialStats(2000.0, 500.0, 1500.0, 1500.0)
  {
    assert [salary][..0] == [];
    assert [expense][..0] == [];
    assert TotalIncome([salary]) == 2000.0;
    assert TotalExpenses([expense]) == 500.0;
  }

  // ---------------------------------------------------------------------------
  // Goals

  /** `calculateDreamProgress`: a percentage capped at 100, 0 for a target that is not positive. */
  function DreamProgress(currentSavings: real, targetAmount: real): (r: real)
    ensures r <= 100.0
    ensures targetAmount <= 0.0 ==> r == 0.0
    ensures targetAmount > 0.0 && currentSavings >= targetAmount ==> r == 100.0
    ensures targetAmount > 0.0 && currentSavings <= targetAmount ==> r * targetAmount == currentSavings * 100.0
    ensures currentSavings >= 0.0 ==> r >= 0.0
  {
    if targetAmount <= 0.0 then 0.0
    else
      var p := (currentSavings / targetAmount) * 100.0;
      RatioAtLeastOne(currentSavings, targetAmount);
      if p < 100.0 then p else 100.0
  }

  lemma RatioAtLeastOne(a: real, b: real)
    requires b > 0.0
    ensures (a / b) * 100.0 >= 100.0 <==> a >= b
    ensures (a / b) * 100.0 * b == a * 100.0
    ensures a >= 0.0 ==> (a / b) * 100.0 >= 0.0
  {
    assert (a / b) * b == a;
  }

  /** `isDreamAchieved` */
  predicate IsDreamAchieved(currentSavings: real, targetAmount: real) {
    currentSavings >= targetAmount
  }

  /** A reached goal with a positive target shows full progress, and full progress means the
      goal is reached. */
  lemma AchievedIffFullProgress(currentSavings: real, targetAmount: real)
    requires targetAmount > 0.0
    ensures IsDreamAchieved(currentSavings, targetAmount) <==> DreamProgress(currentSavings, targetAmount) == 100.0
  {
    if DreamProgress(currentSavings, targetAmount) == 100.0 {
      RatioAtLeastOne(currentSavings, targetAmount);
    }
  }

  /** `calculateSavingsVariation`: the change in percent of the previous savings, with 100
      ("started from nothing") or 0 when the previous savings are 0. */
  function SavingsVariation(currentSavings: real, previousSavings: real): (r: real)
    ensures previousSavings == 0.0 && currentSavings > 0.0 ==> r == 100.0
    ensures previousSavings == 0.0 && currentSavings <= 0.0 ==> r == 0.0
    ensures previousSavings != 0.0 ==> r * previousSavings == (currentSavings - previousSavings) * 100.0
  {
    if previousSavings == 0.0 then (if currentSavings > 0.0 then 100.0 else 0.0)
    else
      var r := ((currentSavings - previousSavings) / previousSavings) * 100.0;
      assert ((currentSavings - previousSavings) / previousSavings) * previousSavings == currentSavings - previousSavings;
      r
  }

  /** Savings going from 100 to 110 are a variation of exactly 10, the encouragement threshold. */
  lemma SavingsVariationExamples()
    ensures SavingsVariation(110.0, 100.0) == 10.0
    ensures SavingsVariation(50.0, 0.0) == 100.0
    ensures SavingsVariation(0.0, 0.0) == 0.0
  {
  }

  /** With positive previous savings, the variation reaches `t` percent exactly when current
      savings reach `(1 + t/100)` times the previous ones. */
  lemma VariationThreshold(currentSavings: real, previousSavings: real, t: real)
    requires previousSavings > 0.0
    ensures SavingsVariation(currentSavings, previousSavings) >= t
        <==> currentSavings * 100.0 >= previousSavings * (100.0 + t)
  {
    var r := SavingsVariation(currentSavings, previousSavings);
    assert r * previousSavings == (currentSavings - previousSavings) * 100.0;
    if r >= t {
      assert r * previousSavings >= t * previousSavings;
    } else {
      assert r * previousSavings < t * previousSavings;
    }
  }

  // ---------------------------------------------------------------------------
  // Spending per category

  /** `expenses.filter(e => e.category === category)` */
  function ExpensesIn(es: seq<Expense>, category: string): (r: seq<Expense>)
    ensures forall e :: e in r <==> e in es && e.category == category
  {
    if es == [] then []
    else ExpensesIn(es[..|es| - 1], category) + (if es[|es| - 1].category == category then [es[|es| - 1]] else [])
  }

  /** Total spent in one category. */
  function SpendIn(es: seq<Expense>, category: string): real {
    TotalExpenses(ExpensesIn(es, category))
  }

  /** One more expense adds its amount to its own category's spending and to no other. */
  lemma SpendInStep(es: seq<Expense>, e: Expense, category: string)
    ensures SpendIn(es + [e], category) == SpendIn(es, category) + (if e.category == category then e.amount else 0.0)
  {
    assert (es + [e])[..|es|] == es;
    var f := ExpensesIn(es, category);
    if e.category == category {
      assert (f + [e])[..|f|] == f;
    } else {
      assert ExpensesIn(es + [e], category) == f;
    }
  }

  /** The categories the expenses are recorded under. */
  ghost function CategorySet(es: seq<Expense>): set<string> {
    set e | e in es :: e.category
  }

  /** The distinct categories that occur, in order of first occurrence: the keys of the
      object `calculateExpensesByCategory` builds. */
  function Categories(es: seq<Expense>): (r: seq<string>)
    ensures forall c :: c in r <==> c in CategorySet(es)
    ensures forall i, j :: 0 <= i < j < |r| ==> r[i] != r[j]
  {
    if es == [] then []
    else
      var init := es[..|es| - 1];
      var rest := Categories(init);
      var c := es[|es| - 1].category;
      assert es == init + [es[|es| - 1]];
      assert CategorySet(es) == CategorySet(init) + {c};
      if c in rest then rest else rest + [c]
  }

  /** A category that never occurs has nothing spent in it. */
  lemma {:induction false} SpendInAbsent(es: seq<Expense>, category: string)
    requires category !in Categories(es)
    ensures SpendIn(es, category) == 0.0
  {
    if es != [] {
      var init := es[..|es| - 1];
      assert es == init + [es[|es| - 1]];
      assert category !in Categories(init);
      SpendInAbsent(init, category);
      SpendInStep(init, es[|es| - 1], category);
    }
  }

  /** Sum of the spending over a list of categories. */
  function SumSpend(keys: seq<string>, es: seq<Expense>): real {
    if keys == [] then 0.0 else SumSpend(keys[..|keys| - 1], es) + SpendIn(es, keys[|keys| - 1])
  }

  lemma {:induction false} SumSpendStep(keys: seq<string>, es: seq<Expense>, e: Expense)
    requires forall i, j :: 0 <= i < j < |keys| ==> keys[i] != keys[j]
    ensures SumSpend(keys, es + [e]) == SumSpend(keys, es) + (if e.category in keys then e.amount else 0.0)
  {
    if keys != [] {
      var init, k := keys[..|keys| - 1], keys[|keys| - 1];
      assert k !in init by {
        forall i | 0 <= i < |init| ensures init[i] != k { assert keys[i] != keys[|keys| - 1]; }
      }
      assert e.category in keys <==> e.category in init || e.category == k;
      SumSpendStep(init, es, e);
      SpendInStep(es, e, k);
    }
  }

  lemma {:induction false} SumSpendAppendKey(keys: seq<string>, k: string, es: seq<Expense>)
    ensures SumSpend(keys + [k], es) == SumSpend(keys, es) + SpendIn(es, k)
  {
    assert (keys + [k])[..|keys|] == keys;
  }

  /** The per-category sums add up to the total of all expenses. */
  lemma {:induction false} ByCategorySumsToTotal(es: seq<Expense>)
    ensures SumSpend(Categories(es), es) == TotalExpenses(es)
  {
    if es != [] {
      var init, e := es[..|es| - 1], es[|es| - 1];
      assert es == init + [e];
      var keys := Categories(init);
      ByCategorySumsToTotal(init);
      assert TotalExpenses(es) == TotalExpenses(init) + e.amount;
      SumSpendStep(keys, init, e);
      if e.category in keys {
        assert Categories(es) == keys;
      } else {
        assert Categories(es) == keys + [e.category];
        SumSpendAppendKey(keys, e.category, es);
        SpendInStep(init, e, e.category);
        SpendInAbsent(init, e.category);
      }
    }
  }

  /** The category-to-spending object as a fold over the expenses: each expense adds its
      amount to its category's entry, a missing entry counting as 0. */
  function ByCategoryOf(es: seq<Expense>): map<string, real> {
    if es == [] then map[]
    else
      var m, e := ByCategoryOf(es[..|es| - 1]), es[|es| - 1];
      m[e.category := (if e.category in m then m[e.category] else 0.0) + e.amount]
  }

  /** The fold's keys are exactly the categories that occur. */
  lemma {:induction false} ByCategoryOfKeys(es: seq<Expense>)
    ensures ByCategoryOf(es).Keys == CategorySet(es)
  {
    if es != [] {
      var init, e := es[..|es| - 1], es[|es| - 1];
      ByCategoryOfKeys(init);
      assert es == init + [e];
      assert CategorySet(es) == CategorySet(init) + {e.category};
    }
  }

  /** Each entry of the fold is the amount spent in its category. */
  lemma {:induction false} ByCategoryOfValues(es: seq<Expense>)
    ensures forall c :: c in ByCategoryOf(es) ==> ByCategoryOf(es)[c] == SpendIn(es, c)
  {
    if es != [] {
      var init, e := es[..|es| - 1], es[|es| - 1];
      ByCategoryOfValues(init);
      ByCategoryOfKeys(init);
      var m := ByCategoryOf(init);
      assert init + [e] == es;
      forall c | c in ByCategoryOf(es) ensures ByCategoryOf(es)[c] == SpendIn(es, c) {
        SpendInStep(init, e, c);
        if c == e.category && c !in m {
          SpendInAbsent(init, c);
        }
      }
    }
  }

  /** `calculateExpensesByCategory`: builds the category-to-spending object in one pass. */
  method ExpensesByCategory(expenses: seq<Expense>) returns (byCategory: map<string, real>)
    ensures byCategory.Keys == CategorySet(expenses)
    ensures forall c :: c in byCategory ==> byCategory[c] == SpendIn(expenses, c)
  {
    byCategory := map[];
    var i := 0;
    while i < |expenses|
      invariant 0 <= i <= |expenses|
      invariant byCategory == ByCategoryOf(expenses[..i])
    {
      var e := expenses[i];
      // a missing (or zero) entry starts from 0, then the amount is added
      var base := if e.category !in byCategory || byCategory[e.category] == 0.0 then 0.0 else byCategory[e.category];
      assert expenses[..i + 1][..i] == expenses[..i];
      byCategory := byCategory[e.category := base + e.amount];
      i := i + 1;
    }
    assert expenses[..i] == expenses;
    ByCategoryOfKeys(expenses);
    ByCategoryOfValues(expenses);
  }

  /** `calculateCategoryProgress`: spending as a percentage of the category's budget. */
  function CategoryProgress(es: seq<Expense>, category: string, budgetAmount: real): (r: real)
    ensures budgetAmount <= 0.0 ==> r == 0.0
    ensures budgetAmount > 0.0 ==> r * budgetAmount == SpendIn(es, category) * 100.0
  {
    var spent := SpendIn(es, category);
    if budgetAmount <= 0.0 then 0.0
    else
      RatioAtLeastOne(spent, budgetAmount);
      (spent / budgetAmount) * 100.0
  }

  /** `isCategoryOverBudget`: progress beyond 100 percent. */
  predicate IsCategoryOverBudget(es: seq<Expense>, category: string, budgetAmount: real) {
    CategoryProgress(es, category, budgetAmount) > 100.0
  }

  /** A category is over budget exactly when it has a positive budget and more was spent. */
  lemma OverBudgetIff(es: seq<Expense>, category: string, budgetAmount: real)
    ensures IsCategoryOverBudget(es, category, budgetAmount) <==> budgetAmount > 0.0 && SpendIn(es, category) > budgetAmount
  {
    if budgetAmount > 0.0 {
      ProgressCompare(CategoryProgress(es, category, budgetAmount), SpendIn(es, category), budgetAmount);
    }
  }

  /** A spending ratio in percent exceeds 100 exactly when the spending exceeds the budget. */
  lemma ProgressCompare(p: real, s: real, b: real)
    requires b > 0.0 && p * b == s * 100.0
    ensures p > 100.0 <==> s > b
  {
    ScaleCompare(p, 100.0, b);
    ScaleCompare(s, b, 100.0);
  }

  /** Multiplying by a positive factor keeps a strict comparison. */
  lemma ScaleCompare(x: real, y: real, k: real)
    requires k > 0.0
    ensures x > y <==> x * k > y * k
  {
    if x > y {
      assert (x - y) * k > 0.0;
    } else {
      assert (y - x) * k >= 0.0;
    }
  }

  /** `calculateRemainingBudget`: what is left of the budget; negative once it is overspent. */
  function RemainingBudget(es: seq<Expense>, category: string, budgetAmount: real): (r: real)
    ensures r + SpendIn(es, category) == budgetAmount
    ensures r < 0.0 <==> SpendIn(es, category) > budgetAmount
  {
    budgetAmount - SpendIn(es, category)
  }
}
