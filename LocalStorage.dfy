/** The record store of `src/utils/localStorage.js`. The browser storage and its JSON encoding
    are not modelled: the store is one in-memory field holding the snapshot last written, and
    every operation reads it (or the default), changes one part and writes it back. */
module LocalStorage {
  import opened Js
  import opened Records
  import opened ExcelParser

  datatype User = User(hasCompletedOnboarding: bool, budgetPeriod: string)

  /** Everything the application keeps. A snapshot written by an older version may lack the
      income entries or the reserves: those two lists are optional. */
  datatype Snapshot = Snapshot(
    user: User,
    budget: Budget,
    expenses: seq<Expense>,
    incomeEntries: Option<seq<IncomeEntry>>,
    reserves: Option<seq<Reserve>>,
    savings: real,
    dreams: seq<Dream>,
    globalSavingsGoal: Option<real>,
    previousSavings: real)

  /** The snapshot used when nothing is stored or what is stored cannot be read. */
  function Default(): (d: Snapshot)
    ensures !d.user.hasCompletedOnboarding && d.user.budgetPeriod == Monthly
    ensures d.budget.categories == [] && d.budget.totalIncome == 0.0
    ensures d.expenses == [] && d.incomeEntries == Some([]) && d.reserves == Some([])
    ensures d.savings == 0.0 && d.previousSavings == 0.0
    ensures d.dreams == [] && d.globalSavingsGoal.None?
  {
    Snapshot(User(false, Monthly), Budget([], 0.0), [], Some([]), Some([]), 0.0, [], None, 0.0)
  }

  /** The top-level keys an `updateData` call may carry; an absent key is `None`. */
  datatype Patch = Patch(
    user: Option<User>,
    budget: Option<Budget>,
    expenses: Option<seq<Expense>>,
    incomeEntries: Option<Option<seq<IncomeEntry>>>,
    reserves: Option<Option<seq<Reserve>>>,
    savings: Option<real>,
    dreams: Option<seq<Dream>>,
    globalSavingsGoal: Option<Option<real>>,
    previousSavings: Option<real>)

  const NoKeys := Patch(None, None, None, None, None, None, None, None, None)

  /** `{ ...current, ...updates }`: each key the patch carries replaces the stored one, every
      other key keeps its value. */
  function Merge(d: Snapshot, p: Patch): (r: Snapshot)
    ensures p.user.Some? ==> r.user == p.user.value
    ensures p.user.None? ==> r.user == d.user
    ensures p.budget.Some? ==> r.budget == p.budget.value
    ensures p.budget.None? ==> r.budget == d.budget
    ensures p.expenses.Some? ==> r.expenses == p.expenses.value
    ensures p.expenses.None? ==> r.expenses == d.expenses
    ensures p.incomeEntries.Some? ==> r.incomeEntries == p.incomeEntries.value
    ensures p.incomeEntries.None? ==> r.incomeEntries == d.incomeEntries
    ensures p.reserves.Some? ==> r.reserves == p.reserves.value
    ensures p.reserves.None? ==> r.reserves == d.reserves
    ensures p.savings.Some? ==> r.savings == p.savings.value
    ensures p.savings.None? ==> r.savings == d.savings
    ensures p.dreams.Some? ==> r.dreams == p.dreams.value
    ensures p.dreams.None? ==> r.dreams == d.dreams
    ensures p.globalSavingsGoal.Some? ==> r.globalSavingsGoal == p.globalSavingsGoal.value
    ensures p.globalSavingsGoal.None? ==> r.globalSavingsGoal == d.globalSavingsGoal
    ensures p.previousSavings.Some? ==> r.previousSavings == p.previousSavings.value
    ensures p.previousSavings.None? ==> r.previousSavings == d.previousSavings
  {
    Snapshot(
      p.user.GetOr(d.user),
      p.budget.GetOr(d.budget),
      p.expenses.GetOr(d.expenses),
      p.incomeEntries.GetOr(d.incomeEntries),
      p.reserves.GetOr(d.reserves),
      p.savings.GetOr(d.savings),
      p.dreams.GetOr(d.dreams),
      p.globalSavingsGoal.GetOr(d.globalSavingsGoal),
      p.previousSavings.GetOr(d.previousSavings))
  }

  /** Two patches applied one after the other: the later one wins on the keys it carries. */
  function Then(p: Patch, q: Patch): Patch {
    Patch(
      if q.user.Some? then q.user else p.user,
      if q.budget.Some? then q.budget else p.budget,
      if q.expenses.Some? then q.expenses else p.expenses,
      if q.incomeEntries.Some? then q.incomeEntries else p.incomeEntries,
      if q.reserves.Some? then q.reserves else p.reserves,
      if q.savings.Some? then q.savings else p.savings,
      if q.dreams.Some? then q.dreams else p.dreams,
      if q.globalSavingsGoal.Some? then q.globalSavingsGoal else p.globalSavingsGoal,
      if q.previousSavings.Some? then q.previousSavings else p.previousSavings)
  }

  /** A patch with no key changes nothing; merging twice is merging once; two merges are one
      merge of the combined patch. */
  lemma MergeLaws(d: Snapshot, p: Patch, q: Patch)
    ensures Merge(d, NoKeys) == d
    ensures Merge(Merge(d, p), p) == Merge(d, p)
    ensures Merge(Merge(d, p), q) == Merge(d, Then(p, q))
  {
  }

  /** The patch carrying every key of a snapshot: merging it replaces the whole snapshot. */
  function PatchOf(d: Snapshot): Patch {
    Patch(Some(d.user), Some(d.budget), Some(d.expenses), Some(d.incomeEntries), Some(d.reserves),
          Some(d.savings), Some(d.dreams), Some(d.globalSavingsGoal), Some(d.previousSavings))
  }

  lemma MergeFullPatch(d: Snapshot, e: Snapshot)
    ensures Merge(d, PatchOf(e)) == e
  {
  }

  /** `xs.filter(x => x.id !== id)`: the records whose id differs, in their order. */
  function WithoutId<T(!new)>(xs: seq<T>, idOf: T -> string, id: string): (r: seq<T>)
    ensures |r| <= |xs|
    ensures forall i :: 0 <= i < |r| ==> idOf(r[i]) != id
  {
    if xs == [] then []
    else
      var last := xs[|xs| - 1];
      WithoutId(xs[..|xs| - 1], idOf, id) + (if idOf(last) != id then [last] else [])
  }

  /** The records kept are exactly those whose id differs. */
  lemma {:induction false} WithoutIdMembers<T(!new)>(xs: seq<T>, idOf: T -> string, id: string)
    ensures forall x :: x in WithoutId(xs, idOf, id) <==> x in xs && idOf(x) != id
  {
    if xs != [] {
      var init := xs[..|xs| - 1];
      WithoutIdMembers(init, idOf, id);
      assert xs == init + [xs[|xs| - 1]];
    }
  }

  /** Filtering commutes with concatenation, so the kept records stay in order. */
  lemma {:induction false} WithoutIdConcat<T(!new)>(xs: seq<T>, ys: seq<T>, idOf: T -> string, id: string)
    ensures WithoutId(xs + ys, idOf, id) == WithoutId(xs, idOf, id) + WithoutId(ys, idOf, id)
  {
    if ys != [] {
      var init := ys[..|ys| - 1];
      assert (xs + ys)[..|xs + ys| - 1] == xs + init;
      assert (xs + ys)[|xs + ys| - 1] == ys[|ys| - 1];
      WithoutIdConcat(xs, init, idOf, id);
    } else {
      assert xs + ys == xs;
    }
  }

  /** Deleting an id no record carries changes nothing. */
  lemma {:induction false} WithoutUnknownId<T(!new)>(xs: seq<T>, idOf: T -> string, id: string)
    requires forall i :: 0 <= i < |xs| ==> idOf(xs[i]) != id
    ensures WithoutId(xs, idOf, id) == xs
  {
    if xs != [] {
      var init := xs[..|xs| - 1];
      assert forall i :: 0 <= i < |init| ==> init[i] == xs[i];
      WithoutUnknownId(init, idOf, id);
      assert init + [xs[|xs| - 1]] == xs;
    }
  }

  /** Deleting the id of a record just appended under a fresh id gives back the list. */
  lemma DeleteAfterAppend<T(!new)>(xs: seq<T>, x: T, idOf: T -> string)
    requires forall y :: y in xs ==> idOf(y) != idOf(x)
    ensures WithoutId(xs + [x], idOf, idOf(x)) == xs
  {
    WithoutIdConcat(xs, [x], idOf, idOf(x));
    assert forall i :: 0 <= i < |xs| ==> xs[i] in xs;
    WithoutUnknownId(xs, idOf, idOf(x));
    assert [x][..0] == [];
  }

  /** Deleting the same id twice is deleting it once. */
  lemma DeleteIdempotent<T(!new)>(xs: seq<T>, idOf: T -> string, id: string)
    ensures WithoutId(WithoutId(xs, idOf, id), idOf, id) == WithoutId(xs, idOf, id)
  {
    WithoutUnknownId(WithoutId(xs, idOf, id), idOf, id);
  }

  function ExpenseId(e: Expense): string { e.id }
  function IncomeEntryId(e: IncomeEntry): string { e.id }
  function ReserveId(r: Reserve): string { r.id }

  /** A list the snapshot may lack, read as `list || []`. */
  function OrEmpty<T>(xs: Option<seq<T>>): seq<T> {
    xs.GetOr([])
  }

  /** The store: `stored` is the snapshot last written, or `None` when nothing was written
      (an unreadable entry reads the same way). */
  class Store {
    var stored: Option<Snapshot>

    constructor()
      ensures stored.None?
    {
      stored := None;
    }

    /** `getData`: the stored snapshot, or a copy of the default. */
    function GetData(): (d: Snapshot)
      reads this
      ensures stored.None? ==> d == Default()
      ensures stored.Some? ==> d == stored.value
    {
      if stored.Some? then stored.value else Default()
    }

    /** `updateData`: the shallow merge of the patch into the current snapshot. */
    method UpdateData(updates: Patch)
      modifies this
      ensures stored == Some(Merge(old(GetData()), updates))
    {
      var current := GetData();
      stored := Some(Merge(current, updates));
    }

    method SaveBudget(budget: Budget)
      modifies this
      ensures stored == Some(old(GetData()).(budget := budget))
    {
      var data := GetData();
      data := data.(budget := budget);
      stored := Some(data);
    }

    /** `saveExpense`: one record appended at the end, its id replaced by the fresh one. */
    method SaveExpense(expense: Expense, freshId: string)
      modifies this
      ensures stored == Some(old(GetData()).(expenses := old(GetData()).expenses + [expense.(id := freshId)]))
    {
      var data := GetData();
      data := data.(expenses := data.expenses + [expense.(id := freshId)]);
      stored := Some(data);
    }

    method DeleteExpense(expenseId: string)
      modifies this
      ensures stored == Some(old(GetData()).(expenses := WithoutId(old(GetData()).expenses, ExpenseId, expenseId)))
    {
      var data := GetData();
      data := data.(expenses := WithoutId(data.expenses, ExpenseId, expenseId));
      stored := Some(data);
    }

    /** `saveIncomeEntry`: a missing list is created first. */
    method SaveIncomeEntry(entry: IncomeEntry, freshId: string)
      modifies this
      ensures stored == Some(old(GetData()).(incomeEntries := Some(OrEmpty(old(GetData()).incomeEntries) + [entry.(id := freshId)])))
    {
      var data := GetData();
      if data.incomeEntries.None? {
        data := data.(incomeEntries := Some([]));
      }
      data := data.(incomeEntries := Some(data.incomeEntries.value + [entry.(id := freshId)]));
      stored := Some(data);
    }

    /** `deleteIncomeEntry`: a missing list stays missing. */
    method DeleteIncomeEntry(incomeId: string)
      modifies this
      ensures old(GetData()).incomeEntries.None? ==> stored == Some(old(GetData()))
      ensures old(GetData()).incomeEntries.Some? ==>
        stored == Some(old(GetData()).(incomeEntries := Some(WithoutId(old(GetData()).incomeEntries.value, IncomeEntryId, incomeId))))
    {
      var data := GetData();
      if data.incomeEntries.Some? {
        data := data.(incomeEntries := Some(WithoutId(data.incomeEntries.value, IncomeEntryId, incomeId)));
      }
      stored := Some(data);
    }

    method SaveReserve(reserve: Reserve, freshId: string)
      modifies this
      ensures stored == Some(old(GetData()).(reserves := Some(OrEmpty(old(GetData()).reserves) + [reserve.(id := freshId)])))
    {
      var data := GetData();
      if data.reserves.None? {
        data := data.(reserves := Some([]));
      }
      data := data.(reserves := Some(data.reserves.value + [reserve.(id := freshId)]));
      stored := Some(data);
    }

    method DeleteReserve(reserveId: string)
      modifies this
      ensures old(GetData()).reserves.None? ==> stored == Some(old(GetData()))
      ensures old(GetData()).reserves.Some? ==>
        stored == Some(old(GetData()).(reserves := Some(WithoutId(old(GetData()).reserves.value, ReserveId, reserveId))))
    {
      var data := GetData();
      if data.reserves.Some? {
        data := data.(reserves := Some(WithoutId(data.reserves.value, ReserveId, reserveId)));
      }
      stored := Some(data);
    }

    method SaveDreams(dreams: seq<Dream>)
      modifies this
      ensures stored == Some(old(GetData()).(dreams := dreams))
    {
      var data := GetData();
      data := data.(dreams := dreams);
      stored := Some(data);
    }

    /** `completeOnboarding`: the period argument defaults to 'mensuel'. */
    method CompleteOnboarding(budgetPeriod: string := Monthly)
      modifies this
      ensures stored == Some(old(GetData()).(user := User(true, budgetPeriod)))
    {
      var data := GetData();
      data := data.(user := data.user.(hasCompletedOnboarding := true));
      data := data.(user := data.user.(budgetPeriod := budgetPeriod));
      stored := Some(data);
    }

    /** `updateSavings`: the old savings become the previous savings. */
    method UpdateSavings(savings: real)
      modifies this
      ensures stored == Some(old(GetData()).(previousSavings := old(GetData()).savings, savings := savings))
    {
      var data := GetData();
      data := data.(previousSavings := data.savings);
      data := data.(savings := savings);
      stored := Some(data);
    }
  }

  /** Saving an expense under an id no stored expense carries and then deleting that id
      leaves the stored snapshot as it read before. */
  method SaveThenDeleteExpense(store: Store, expense: Expense, freshId: string)
    requires forall e :: e in store.GetData().expenses ==> e.id != freshId
    modifies store
    ensures store.stored == Some(old(store.GetData()))
  {
    ghost var before := store.GetData();
    store.SaveExpense(expense, freshId);
    store.DeleteExpense(freshId);
    DeleteAfterAppend(before.expenses, expense.(id := freshId), ExpenseId);
  }

  /** Two savings updates in a row: the first value becomes the previous savings. */
  method UpdateSavingsTwice(store: Store, first: real, second: real)
    modifies store
    ensures store.GetData().savings == second && store.GetData().previousSavings == first
    ensures store.GetData().expenses == old(store.GetData()).expenses
  {
    store.UpdateSavings(first);
    store.UpdateSavings(second);
  }
}
