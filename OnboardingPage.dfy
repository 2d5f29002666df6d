/** The onboarding page, `src/components/OnboardingPage.jsx`: step 1 collects the budget (from
    a spreadsheet or typed row by row), step 2 shows it and completes the onboarding. */
module OnboardingPage {
  import opened Js
  import opened Records
  import opened Calculations
  import opened ExcelParser
  import opened LocalStorage

  /** A typed budget row: the texts of its inputs and its period. */
  datatype ManualRow = ManualRow(name: string, amount: string, period: string)

  /** The inputs of a typed row that call `handleManualCategoryChange`: its name and its
      amount. */
  datatype ManualField = NameField | AmountField

  const RowAlert := "Veuillez ajouter au moins une cat\U{00E9}gorie valide"

  function EmptyRow(period: string): ManualRow {
    ManualRow("", "", period)
  }

  function WithField(row: ManualRow, field: ManualField, value: string): (r: ManualRow)
    ensures field == NameField ==> r == row.(name := value)
    ensures field == AmountField ==> r == row.(amount := value)
  {
    match field
    case NameField => row.(name := value)
    case AmountField => row.(amount := value)
  }

  /** A row is kept when both its name and its amount text are filled. */
  predicate IsFilled(row: ManualRow) {
    row.name != "" && row.amount != ""
  }

  /** What the number inputs guarantee: a filled amount text is a number. */
  ghost predicate AmountsParse(rows: seq<ManualRow>, parse: ParseFloat) {
    forall i :: 0 <= i < |rows| && rows[i].amount != "" ==> parse(rows[i].amount).Some?
  }

  function RowCategory(row: ManualRow, parse: ParseFloat): (c: BudgetCategory)
    requires parse(row.amount).Some?
  {
    BudgetCategory(row.name, parse(row.amount).value, row.period, None)
  }

  /** The lines `handleManualSubmit` builds: the filled rows, in order, with their amount
      parsed and their own period. */
  function ManualCategories(rows: seq<ManualRow>, parse: ParseFloat): (r: seq<BudgetCategory>)
    requires AmountsParse(rows, parse)
    ensures |r| <= |rows|
  {
    if rows == [] then []
    else
      var init, last := rows[..|rows| - 1], rows[|rows| - 1];
      assert forall i :: 0 <= i < |init| ==> init[i] == rows[i];
      ManualCategories(init, parse) + (if IsFilled(last) then [RowCategory(last, parse)] else [])
  }

  /** Rows keep their order: building commutes with concatenation. */
  lemma {:induction false} ManualCategoriesConcat(a: seq<ManualRow>, b: seq<ManualRow>, parse: ParseFloat)
    requires AmountsParse(a + b, parse)
    ensures AmountsParse(a, parse) && AmountsParse(b, parse)
    ensures ManualCategories(a + b, parse) == ManualCategories(a, parse) + ManualCategories(b, parse)
  {
    assert forall i :: 0 <= i < |a| ==> a[i] == (a + b)[i];
    assert forall i :: 0 <= i < |b| ==> b[i] == (a + b)[|a| + i];
    if b == [] {
      assert a + b == a;
    } else {
      var init := b[..|b| - 1];
      assert (a + b)[..|a + b| - 1] == a + init;
      assert (a + b)[|a + b| - 1] == b[|b| - 1];
      assert forall i :: 0 <= i < |a + init| ==> (a + init)[i] == (a + b)[i];
      ManualCategoriesConcat(a, init, parse);
    }
  }

  /** Every filled row gives its line, and every line comes from a filled row. */
  lemma {:induction false} ManualCategoriesRows(rows: seq<ManualRow>, parse: ParseFloat)
    requires AmountsParse(rows, parse)
    ensures var r := ManualCategories(rows, parse);
      && (forall i :: 0 <= i < |rows| && IsFilled(rows[i]) ==> RowCategory(rows[i], parse) in r)
      && (forall c :: c in r ==> exists i :: 0 <= i < |rows| && IsFilled(rows[i]) && c == RowCategory(rows[i], parse))
  {
    if rows != [] {
      var init, last := rows[..|rows| - 1], rows[|rows| - 1];
      assert forall i :: 0 <= i < |init| ==> init[i] == rows[i];
      ManualCategoriesRows(init, parse);
      var r, pre := ManualCategories(rows, parse), ManualCategories(init, parse);
      forall c | c in r ensures exists i :: 0 <= i < |rows| && IsFilled(rows[i]) && c == RowCategory(rows[i], parse) {
        if c in pre {
          var i :| 0 <= i < |init| && IsFilled(init[i]) && c == RowCategory(init[i], parse);
          assert rows[i] == init[i];
        } else {
          assert rows[|rows| - 1] == last;
        }
      }
    }
  }

  /** No line is built exactly when no row is filled. */
  lemma {:induction false} ManualCategoriesEmptyIff(rows: seq<ManualRow>, parse: ParseFloat)
    requires AmountsParse(rows, parse)
    ensures ManualCategories(rows, parse) == [] <==> forall i :: 0 <= i < |rows| ==> !IsFilled(rows[i])
  {
    if rows != [] {
      var init := rows[..|rows| - 1];
      assert forall i :: 0 <= i < |init| ==> init[i] == rows[i];
      ManualCategoriesEmptyIff(init, parse);
    }
  }

  /** The remove button exists only while there is more than one row, so the list of rows is
      never emptied through it. */
  predicate RemoveButtonShown(rows: seq<ManualRow>) {
    |rows| > 1
  }

  lemma RemoveNeverEmpties(rows: seq<ManualRow>, index: int)
    requires RemoveButtonShown(rows) && 0 <= index < |rows|
    ensures |WithoutIndex(rows, index)| == |rows| - 1 >= 1
  {
  }

  /** The page's state: the step shown, the chosen period and input mode, the budget lines of
      step 2 and the typed rows. */
  class OnboardingState {
    var step: int
    var budgetPeriod: string
    var useExcel: bool
    var categories: seq<BudgetCategory>
    var manualCategories: seq<ManualRow>

    /** The page shows step 1 or step 2. */
    predicate Valid()
      reads this
    {
      step == 1 || step == 2
    }

    constructor()
      ensures Valid() && step == 1
      ensures budgetPeriod == Monthly && useExcel && categories == []
      ensures manualCategories == [EmptyRow(Monthly)]
    {
      step := 1;
      budgetPeriod := Monthly;
      useExcel := true;
      categories := [];
      manualCategories := [EmptyRow(Monthly)];
    }

    method SetBudgetPeriod(period: string)
      modifies this`budgetPeriod
      ensures budgetPeriod == period
    {
      budgetPeriod := period;
    }

    method SetUseExcel(value: bool)
      modifies this`useExcel
      ensures useExcel == value
    {
      useExcel := value;
    }

    /** `handleExcelLoaded`: the loaded lines replace the categories and step 2 follows. */
    method HandleExcelLoaded(loadedCategories: seq<BudgetCategory>)
      modifies this`categories, this`step
      ensures Valid() && step == 2 && categories == loadedCategories
    {
      categories := loadedCategories;
      step := 2;
    }

    /** `handleAddManualCategory`: a new empty row in the current budget period. */
    method HandleAddManualCategory()
      modifies this`manualCategories
      ensures manualCategories == old(manualCategories) + [EmptyRow(budgetPeriod)]
    {
      manualCategories := manualCategories + [EmptyRow(budgetPeriod)];
    }

    method HandleRemoveManualCategory(index: int)
      modifies this`manualCategories
      ensures manualCategories == WithoutIndex(old(manualCategories), index)
    {
      manualCategories := WithoutIndex(manualCategories, index);
    }

    /** `handleManualCategoryChange`: only the named field of the row at `index` changes. */
    method HandleManualCategoryChange(index: int, field: ManualField, value: string)
      requires 0 <= index < |manualCategories|
      modifies this`manualCategories
      ensures |manualCategories| == |old(manualCategories)|
      ensures manualCategories[index] == WithField(old(manualCategories)[index], field, value)
      ensures forall i :: 0 <= i < |manualCategories| && i != index ==> manualCategories[i] == old(manualCategories)[i]
    {
      var updated := manualCategories;
      updated := updated[index := WithField(updated[index], field, value)];
      manualCategories := updated;
    }

    /** `handleManualSubmit`: with no filled row the alert is raised and nothing changes;
        otherwise the built lines replace the categories and step 2 follows. */
    method HandleManualSubmit(parse: ParseFloat) returns (alert: Option<string>)
      requires AmountsParse(manualCategories, parse)
      requires Valid()
      modifies this`categories, this`step
      ensures Valid()
      ensures alert.Some? <==> forall i :: 0 <= i < |manualCategories| ==> !IsFilled(manualCategories[i])
      ensures alert.Some? ==> alert.value == RowAlert && step == old(step) && categories == old(categories)
      ensures alert.None? ==> step == 2 && categories == ManualCategories(manualCategories, parse) && |categories| > 0
    {
      var validCategories := ManualCategories(manualCategories, parse);
      ManualCategoriesEmptyIff(manualCategories, parse);
      if |validCategories| == 0 {
        return Some(RowAlert);
      }
      categories := validCategories;
      step := 2;
      return None;
    }

    /** 'Modifier': back to step 1, the categories kept. */
    method BackToStepOne()
      modifies this`step
      ensures Valid() && step == 1
    {
      step := 1;
    }

    /** `handleComplete`: the categories are stored as the budget with their income total, and
        the onboarding is marked done with the chosen period. */
    method HandleComplete(store: Store)
      modifies store
      ensures store.stored == Some(old(store.GetData()).(budget := Budget(categories, TotalIncome(categories)),
                                                          user := User(true, budgetPeriod)))
    {
      var totalIncome := TotalIncome(categories);
      store.SaveBudget(Budget(categories, totalIncome));
      store.CompleteOnboarding(budgetPeriod);
    }
  }
}
