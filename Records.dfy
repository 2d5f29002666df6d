/** The entities the application records. Amounts are exact reals; ids and dates are texts. */
module Records {
  import opened Js

  /** A budget line. Positive amounts are income; `period` names the recurrence
      ('mensuel', 'semestriel' or 'annuel'); `originalPeriod` is set once the line has been
      normalised to another period. */
  datatype BudgetCategory = BudgetCategory(name: string, amount: real, period: string, originalPeriod: Option<string>)

  /** The stored budget: its lines and the income total computed when it was saved. */
  datatype Budget = Budget(categories: seq<BudgetCategory>, totalIncome: real)

  datatype Expense = Expense(id: string, date: string, category: string, amount: real, description: string)

  datatype IncomeEntry = IncomeEntry(id: string, date: string, source: string, amount: real, description: string)

  datatype Reserve = Reserve(id: string, date: string, amount: real, description: string)

  /** A saved savings goal ("rêve"). Nothing in the application ever sets `achieved` to true. */
  datatype Dream = Dream(id: string, name: string, targetAmount: real, achieved: bool)
}
