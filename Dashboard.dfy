/** The decision logic of the dashboard, `src/components/Dashboard.jsx`: refreshing the
    statistics and the stored savings, saving a new expense, income entry or reserve, the
    motivational messages, closing one of them, and the recent-expense and dream-preview
    selections. Rendering is not modelled. */
module Dashboard {
  import opened Js
  import opened Records
  import opened Calculations
  import opened LocalStorage

  /** The message types 'success', 'encouragement' and 'warning'. */
  datatype MessageType = SuccessType | EncouragementType | WarningType

  datatype Message = Message(kind: MessageType, text: string)

  function DreamReachedText(name: string): string {
    "\U{1F389} Bravo ! Tu as atteint ton objectif \"" + name + "\" !"
  }

  const EncouragementText := "Bravo \U{1F389} tu es en bonne voie vers tes r\U{00EA}ves !"
  const WarningText := "\U{26A0}\U{FE0F} Attention, tu t'\U{00E9}loignes de tes r\U{00EA}ves..."

  /** A dream earns a success message when its target is truthy (not 0), it is not flagged
      achieved, and the savings reach the target. */
  predicate Celebrates(dream: Dream, currentSavings: real) {
    dream.targetAmount != 0.0 && !dream.achieved && IsDreamAchieved(currentSavings, dream.targetAmount)
  }

  function SuccessMessage(dream: Dream): Message {
    Message(SuccessType, DreamReachedText(dream.name))
  }

  /** The success messages, one per celebrated dream, in list order. */
  function SuccessMessages(dreams: seq<Dream>, currentSavings: real): (r: seq<Message>)
    ensures |r| <= |dreams|
    ensures forall i :: 0 <= i < |r| ==> r[i].kind == SuccessType
  {
    if dreams == [] then []
    else
      var last := dreams[|dreams| - 1];
      SuccessMessages(dreams[..|dreams| - 1], currentSavings)
        + (if Celebrates(last, currentSavings) then [SuccessMessage(last)] else [])
  }

  /** The celebrated dreams, in list order. */
  function CelebratedDreams(dreams: seq<Dream>, currentSavings: real): (r: seq<Dream>)
    ensures forall d :: d in r <==> d in dreams && Celebrates(d, currentSavings)
  {
    if dreams == [] then []
    else
      var last := dreams[|dreams| - 1];
      CelebratedDreams(dreams[..|dreams| - 1], currentSavings)
        + (if Celebrates(last, currentSavings) then [last] else [])
  }

  /** Exactly one success message per celebrated dream, in the order of the dreams. */
  lemma {:induction false} SuccessMessagesPerDream(dreams: seq<Dream>, currentSavings: real)
    ensures var ms, ds := SuccessMessages(dreams, currentSavings), CelebratedDreams(dreams, currentSavings);
      |ms| == |ds| && forall i :: 0 <= i < |ms| ==> ms[i] == SuccessMessage(ds[i])
  {
    if dreams != [] {
      SuccessMessagesPerDream(dreams[..|dreams| - 1], currentSavings);
    }
  }

  /** The trend message for a savings variation: encouragement from +10 %, warning from
      -10 %, nothing strictly between. */
  function TrendMessage(variation: real): (r: seq<Message>)
    ensures variation >= 10.0 <==> r == [Message(EncouragementType, EncouragementText)]
    ensures variation <= -10.0 <==> r == [Message(WarningType, WarningText)]
    ensures -10.0 < variation < 10.0 <==> r == []
  {
    if variation >= 10.0 then [Message(EncouragementType, EncouragementText)]
    else if variation <= -10.0 then [Message(WarningType, WarningText)]
    else []
  }

  /** The messages `checkForMotivationalMessages` collects: the success messages, then at
      most one trend message computed against the previous savings. */
  function MotivationalMessages(dreams: seq<Dream>, currentSavings: real, previousSavings: real): seq<Message> {
    SuccessMessages(dreams, currentSavings) + TrendMessage(SavingsVariation(currentSavings, previousSavings))
  }

  /** Success messages come first; the only other message, if any, is the last one. */
  lemma MessagesOrder(dreams: seq<Dream>, currentSavings: real, previousSavings: real)
    ensures var ms := MotivationalMessages(dreams, currentSavings, previousSavings);
      && ms[..|SuccessMessages(dreams, currentSavings)|] == SuccessMessages(dreams, currentSavings)
      && |ms| <= |SuccessMessages(dreams, currentSavings)| + 1
      && forall i :: 0 <= i < |ms| && ms[i].kind != SuccessType ==> i == |ms| - 1
  {
    var ms := MotivationalMessages(dreams, currentSavings, previousSavings);
    var ok := SuccessMessages(dreams, currentSavings);
    assert ms[..|ok|] == ok;
  }

  /** `checkForMotivationalMessages` without its final state update: the `forEach` over the
      dreams pushing success messages, then the trend check. */
  method ComputeMotivationalMessages(dreams: seq<Dream>, currentSavings: real, previousSavings: real)
    returns (messages: seq<Message>)
    ensures messages == MotivationalMessages(dreams, currentSavings, previousSavings)
  {
    messages := [];
    var i := 0;
    while i < |dreams|
      invariant 0 <= i <= |dreams|
      invariant messages == SuccessMessages(dreams[..i], currentSavings)
    {
      var dream := dreams[i];
      if Celebrates(dream, currentSavings) {
        messages := messages + [SuccessMessage(dream)];
      }
      assert dreams[..i + 1][..i] == dreams[..i];
      i := i + 1;
    }
    assert dreams[..i] == dreams;
    var variation := SavingsVariation(currentSavings, previousSavings);
    if variation >= 10.0 {
      messages := messages + [Message(EncouragementType, EncouragementText)];
    } else if variation <= -10.0 {
      messages := messages + [Message(WarningType, WarningText)];
    }
  }

  /** `setMotivationalMessages` is called only with a non-empty list. */
  function ShownAfterCheck(previous: seq<Message>, latest: seq<Message>): (r: seq<Message>)
    ensures latest != [] ==> r == latest
    ensures latest == [] ==> r == previous
  {
    if |latest| > 0 then latest else previous
  }

  /** `data.expenses.slice(-10).reverse()`: at most ten expenses, the newest first. */
  function RecentExpenses(expenses: seq<Expense>): (r: seq<Expense>)
    ensures |r| == if |expenses| <= 10 then |expenses| else 10
    ensures forall i :: 0 <= i < |r| ==> r[i] == expenses[|expenses| - 1 - i]
  {
    var last := LastN(expenses, 10);
    assert forall i :: 0 <= i < |last| ==> Reverse(last)[i] == expenses[|expenses| - 1 - i];
    Reverse(last)
  }

  /** `dreams.filter(d => d.name)`: the dreams with a non-empty name, in order. */
  function NamedDreams(dreams: seq<Dream>): (r: seq<Dream>)
    ensures |r| <= |dreams|
    ensures forall d :: d in r <==> d in dreams && d.name != ""
  {
    if dreams == [] then []
    else
      var last := dreams[|dreams| - 1];
      NamedDreams(dreams[..|dreams| - 1]) + (if last.name != "" then [last] else [])
  }

  /** Filtering commutes with concatenation, so the named dreams keep their list order. */
  lemma {:induction false} NamedDreamsConcat(a: seq<Dream>, b: seq<Dream>)
    ensures NamedDreams(a + b) == NamedDreams(a) + NamedDreams(b)
  {
    if b == [] {
      assert a + b == a;
    } else {
      var init := b[..|b| - 1];
      assert (a + b)[..|a + b| - 1] == a + init;
      assert (a + b)[|a + b| - 1] == b[|b| - 1];
      NamedDreamsConcat(a, init);
    }
  }

  /** The preview bubbles: the named dreams among the first three. */
  function DreamPreview(dreams: seq<Dream>): (r: seq<Dream>)
    ensures |r| <= 3
    ensures forall d :: d in r <==> (exists i :: 0 <= i < |dreams| && i < 3 && dreams[i] == d) && d.name != ""
  {
    var firstThree := if |dreams| <= 3 then dreams else dreams[..3];
    assert forall d :: d in firstThree <==> exists i :: 0 <= i < |dreams| && i < 3 && dreams[i] == d;
    NamedDreams(firstThree)
  }

  /** The bubbles come in list order: they begin the list of all named dreams, followed by
      the named dreams past the third. */
  lemma PreviewIsFirstNamed(dreams: seq<Dream>)
    ensures |dreams| <= 3 ==> NamedDreams(dreams) == DreamPreview(dreams)
    ensures |dreams| > 3 ==> NamedDreams(dreams) == DreamPreview(dreams) + NamedDreams(dreams[3..])
  {
    if |dreams| > 3 {
      assert dreams == dreams[..3] + dreams[3..];
      NamedDreamsConcat(dreams[..3], dreams[3..]);
    }
  }

  /** The preview section is rendered when some dream, anywhere in the list, has a name. */
  predicate ShowDreamPreview(dreams: seq<Dream>) {
    |dreams| > 0 && |NamedDreams(dreams)| > 0
  }

  lemma ShowDreamPreviewIff(dreams: seq<Dream>)
    ensures ShowDreamPreview(dreams) <==> exists i :: 0 <= i < |dreams| && dreams[i].name != ""
  {
    var named := NamedDreams(dreams);
    if |named| > 0 {
      assert named[0] in named;
    }
  }

  /** A list without a named dream previews nothing. */
  lemma {:induction false} NoNamedDreams(dreams: seq<Dream>)
    requires forall i :: 0 <= i < |dreams| ==> dreams[i].name == ""
    ensures NamedDreams(dreams) == []
  {
    if dreams != [] {
      NoNamedDreams(dreams[..|dreams| - 1]);
    }
  }

  /** The section test looks at the whole list but the bubbles at the first three dreams only:
      a list whose only named dream is the fourth shows the section with no bubble. */
  lemma PreviewShownButEmpty()
    ensures var dreams := [Dream("1", "", 0.0, false), Dream("2", "", 0.0, false), Dream("3", "", 0.0, false),
                           Dream("4", "Voyage", 0.0, false)];
      ShowDreamPreview(dreams) && DreamPreview(dreams) == []
  {
    var dreams := [Dream("1", "", 0.0, false), Dream("2", "", 0.0, false), Dream("3", "", 0.0, false),
                   Dream("4", "Voyage", 0.0, false)];
    ShowDreamPreviewIff(dreams);
    assert dreams[3].name != "";
    NoNamedDreams(dreams[..3]);
  }

  /** The dashboard's state: the snapshot it read, the statistics it shows, the messages on
      screen and which of the three entry forms is open. */
  class DashboardView {
    var data: Snapshot
    var stats: Option<FinancialStats>
    var motivationalMessages: seq<Message>
    var showExpenseForm: bool
    var showIncomeForm: bool
    var showReserveForm: bool

    constructor(store: Store)
      ensures data == store.GetData() && stats.None? && motivationalMessages == []
      ensures !showExpenseForm && !showIncomeForm && !showReserveForm
    {
      data := store.GetData();
      stats := None;
      motivationalMessages := [];
      showExpenseForm := false;
      showIncomeForm := false;
      showReserveForm := false;
    }

    /** `checkForMotivationalMessages`, on the dreams and previous savings of `data`. */
    method CheckForMotivationalMessages(currentSavings: real)
      modifies this`motivationalMessages
      ensures motivationalMessages == ShownAfterCheck(old(motivationalMessages),
                                        MotivationalMessages(data.dreams, currentSavings, data.previousSavings))
    {
      var messages := ComputeMotivationalMessages(data.dreams, currentSavings, data.previousSavings);
      if |messages| > 0 {
        motivationalMessages := messages;
      }
    }

    /** `updateStats`: the statistics of `data`; the savings are stored, and the messages
        checked, only when they differ from the savings `data` holds. */
    method UpdateStats(store: Store)
      modifies this`stats, this`motivationalMessages, store
      ensures stats == Some(GetFinancialStats(data.budget, data.expenses))
      ensures var s := GetFinancialStats(data.budget, data.expenses).savings;
        if s == data.savings then
          store.stored == old(store.stored) && motivationalMessages == old(motivationalMessages)
        else
          && store.stored == Some(old(store.GetData()).(previousSavings := old(store.GetData()).savings, savings := s))
          && motivationalMessages == ShownAfterCheck(old(motivationalMessages), MotivationalMessages(data.dreams, s, data.previousSavings))
    {
      var financialStats := GetFinancialStats(data.budget, data.expenses);
      stats := Some(financialStats);
      if financialStats.savings != data.savings {
        store.UpdateSavings(financialStats.savings);
        CheckForMotivationalMessages(financialStats.savings);
      }
    }

    /** `setData(getData())` followed by the effect it triggers: the stored snapshot is
        loaded and its statistics shown; savings that differ from the loaded ones are stored,
        the loaded savings becoming the previous ones, and the messages are checked. */
    method Reload(store: Store)
      modifies this`data, this`stats, this`motivationalMessages, store
      ensures data == old(store.GetData())
      ensures stats == Some(GetFinancialStats(data.budget, data.expenses))
      ensures var s := GetFinancialStats(data.budget, data.expenses).savings;
        if s == data.savings then
          store.stored == old(store.stored) && motivationalMessages == old(motivationalMessages)
        else
          && store.stored == Some(data.(previousSavings := data.savings, savings := s))
          && motivationalMessages == ShownAfterCheck(old(motivationalMessages), MotivationalMessages(data.dreams, s, data.previousSavings))
    {
      data := store.GetData();
      UpdateStats(store);
    }

    /** `handleAddExpense`: the expense is saved under a fresh id, the view reloads the new
        snapshot, and the expense form closes. */
    method HandleAddExpense(store: Store, expense: Expense, freshId: string)
      modifies this`data, this`stats, this`motivationalMessages, this`showExpenseForm, store
      ensures data == old(store.GetData()).(expenses := old(store.GetData()).expenses + [expense.(id := freshId)])
      ensures stats == Some(GetFinancialStats(data.budget, data.expenses))
      ensures var s := GetFinancialStats(data.budget, data.expenses).savings;
        if s == data.savings then
          store.stored == Some(data) && motivationalMessages == old(motivationalMessages)
        else
          && store.stored == Some(data.(previousSavings := data.savings, savings := s))
          && motivationalMessages == ShownAfterCheck(old(motivationalMessages), MotivationalMessages(data.dreams, s, data.previousSavings))
      ensures !showExpenseForm
    {
      store.SaveExpense(expense, freshId);
      Reload(store);
      showExpenseForm := false;
    }

    /** `handleAddIncome`: the entry is saved under a fresh id, the view reloads the new
        snapshot, and the income form closes. */
    method HandleAddIncome(store: Store, entry: IncomeEntry, freshId: string)
      modifies this`data, this`stats, this`motivationalMessages, this`showIncomeForm, store
      ensures data == old(store.GetData()).(incomeEntries := Some(OrEmpty(old(store.GetData()).incomeEntries) + [entry.(id := freshId)]))
      ensures stats == Some(GetFinancialStats(data.budget, data.expenses))
      ensures var s := GetFinancialStats(data.budget, data.expenses).savings;
        if s == data.savings then
          store.stored == Some(data) && motivationalMessages == old(motivationalMessages)
        else
          && store.stored == Some(data.(previousSavings := data.savings, savings := s))
          && motivationalMessages == ShownAfterCheck(old(motivationalMessages), MotivationalMessages(data.dreams, s, data.previousSavings))
      ensures !showIncomeForm
    {
      store.SaveIncomeEntry(entry, freshId);
      Reload(store);
      showIncomeForm := false;
    }

    /** `handleAddReserve`: the reserve is saved under a fresh id, the view reloads the new
        snapshot, and the reserve form closes. */
    method HandleAddReserve(store: Store, reserve: Reserve, freshId: string)
      modifies this`data, this`stats, this`motivationalMessages, this`showReserveForm, store
      ensures data == old(store.GetData()).(reserves := Some(OrEmpty(old(store.GetData()).reserves) + [reserve.(id := freshId)]))
      ensures stats == Some(GetFinancialStats(data.budget, data.expenses))
      ensures var s := GetFinancialStats(data.budget, data.expenses).savings;
        if s == data.savings then
          store.stored == Some(data) && motivationalMessages == old(motivationalMessages)
        else
          && store.stored == Some(data.(previousSavings := data.savings, savings := s))
          && motivationalMessages == ShownAfterCheck(old(motivationalMessages), MotivationalMessages(data.dreams, s, data.previousSavings))
      ensures !showReserveForm
    {
      store.SaveReserve(reserve, freshId);
      Reload(store);
      showReserveForm := false;
    }

    /** `handleCloseMessage`: exactly the message at `index` goes, the others keep their order. */
    method CloseMessage(index: int)
      modifies this`motivationalMessages
      ensures motivationalMessages == WithoutIndex(old(motivationalMessages), index)
    {
      motivationalMessages := WithoutIndex(motivationalMessages, index);
    }
  }
}
