/** The dreams page, `src/components/DreamsPage.jsx`: the editable list of dreams, the choice
    between per-dream targets and one global goal, and saving both to the store. */
module DreamsPage {
  import opened Js
  import opened Records
  import opened Calculations
  import opened LocalStorage

  /** A dream while it is edited. Its target is the text of the input, or the number read
      back from the store before any edit. */
  datatype DreamDraft = DreamDraft(id: string, name: string, targetAmount: Value, achieved: bool)

  /** The two fields an input edits. */
  datatype DreamField = NameField | TargetAmountField

  function EmptyDream(id: string): DreamDraft {
    DreamDraft(id, "", Text(""), false)
  }

  /** The three empty dreams shown when none exists yet. */
  const InitialDreams: seq<DreamDraft> := [EmptyDream("1"), EmptyDream("2"), EmptyDream("3")]

  function DraftOf(d: Dream): DreamDraft {
    DreamDraft(d.id, d.name, Number(d.targetAmount), d.achieved)
  }

  /** The stored dreams as drafts, one for one. */
  function DraftsOf(stored: seq<Dream>): (r: seq<DreamDraft>)
    ensures |r| == |stored|
    ensures forall i :: 0 <= i < |r| ==> r[i] == DraftOf(stored[i])
  {
    if stored == [] then [] else DraftsOf(stored[..|stored| - 1]) + [DraftOf(stored[|stored| - 1])]
  }

  /** The drafts a page starts from: the stored dreams, or the three empty ones when there
      is none. */
  function StartingDrafts(stored: seq<Dream>): (r: seq<DreamDraft>)
    ensures stored == [] ==> r == InitialDreams
    ensures stored != [] ==> |r| == |stored| && forall i :: 0 <= i < |r| ==> r[i] == DraftOf(stored[i])
  {
    if stored == [] then InitialDreams else DraftsOf(stored)
  }

  lemma InitialDreamsAreEmpty()
    ensures |InitialDreams| == 3
    ensures forall i :: 0 <= i < 3 ==> InitialDreams[i].name == "" && !InitialDreams[i].achieved
    ensures InitialDreams[0].id == "1" && InitialDreams[1].id == "2" && InitialDreams[2].id == "3"
  {
  }

  /** One field of one draft replaced by the input's text; every other field kept. */
  function WithField(d: DreamDraft, field: DreamField, value: string): (r: DreamDraft)
    ensures field == NameField ==> r == d.(name := value)
    ensures field == TargetAmountField ==> r == d.(targetAmount := Text(value))
  {
    match field
    case NameField => d.(name := value)
    case TargetAmountField => d.(targetAmount := Text(value))
  }

  /** `handleRemoveDream` as a list rule: the dream at `index` goes only while there are
      more than three. */
  function RemoveDream(dreams: seq<DreamDraft>, index: int): (r: seq<DreamDraft>)
    ensures |dreams| > 3 ==> r == WithoutIndex(dreams, index)
    ensures |dreams| <= 3 ==> r == dreams
  {
    if |dreams| > 3 then WithoutIndex(dreams, index) else dreams
  }

  /** The remove button shows from the fourth dream on. */
  predicate RemoveButtonShown(index: int) {
    index >= 3
  }

  /** A shown remove button always removes its dream, and the list never drops below three. */
  lemma RemoveButtonRemoves(dreams: seq<DreamDraft>, index: int)
    requires 0 <= index < |dreams| && RemoveButtonShown(index)
    ensures RemoveDream(dreams, index) == dreams[..index] + dreams[index + 1..]
    ensures |RemoveDream(dreams, index)| >= 3
  {
  }

  lemma RemoveKeepsThree(dreams: seq<DreamDraft>, index: int)
    requires |dreams| >= 3
    ensures |RemoveDream(dreams, index)| >= 3
    ensures RemoveDream(dreams, index)[..3] == dreams[..3] || index < 3
  {
  }

  /** The saved form of a draft: the target parsed, an unparseable one becoming 0. */
  function ToDream(d: DreamDraft, parse: ParseFloat): (r: Dream)
    ensures r.id == d.id && r.name == d.name && r.achieved == d.achieved
    ensures r.targetAmount == NumberOrZero(ParseValue(parse, d.targetAmount))
  {
    Dream(d.id, d.name, NumberOrZero(ParseValue(parse, d.targetAmount)), d.achieved)
  }

  predicate NotBlank(d: DreamDraft) {
    Trim(d.name) != ""
  }

  /** What the cleanup makes of one draft: nothing for a blank name, its saved form otherwise. */
  function Cleaned(d: DreamDraft, parse: ParseFloat): Option<Dream> {
    if NotBlank(d) then Some(ToDream(d, parse)) else None
  }

  /** The cleanup of `handleSave`: the drafts whose trimmed name is not empty, saved. */
  function CleanDreams(drafts: seq<DreamDraft>, parse: ParseFloat): (r: seq<Dream>)
    ensures |r| <= |drafts|
    ensures forall i :: 0 <= i < |drafts| && NotBlank(drafts[i]) ==> ToDream(drafts[i], parse) in r
    ensures forall x :: x in r ==> exists i :: 0 <= i < |drafts| && NotBlank(drafts[i]) && x == ToDream(drafts[i], parse)
  {
    Somes(drafts, d => Cleaned(d, parse))
  }

  /** Cleaning commutes with concatenation: the kept dreams stay in order. */
  lemma CleanDreamsConcat(a: seq<DreamDraft>, b: seq<DreamDraft>, parse: ParseFloat)
    ensures CleanDreams(a + b, parse) == CleanDreams(a, parse) + CleanDreams(b, parse)
  {
    SomesConcat(a, b, d => Cleaned(d, parse));
  }

  /** Dreams loaded from the store and saved untouched come back unchanged, provided they
      all have a name. */
  lemma {:induction false} CleanStoredDreams(stored: seq<Dream>, parse: ParseFloat)
    requires forall i :: 0 <= i < |stored| ==> Trim(stored[i].name) != ""
    ensures CleanDreams(DraftsOf(stored), parse) == stored
  {
    if stored != [] {
      var init, last := stored[..|stored| - 1], stored[|stored| - 1];
      var drafts := DraftsOf(stored);
      assert drafts[..|drafts| - 1] == DraftsOf(init);
      CleanStoredDreams(init, parse);
      assert Cleaned(DraftOf(last), parse) == Some(last);
      assert stored == init + [last];
    }
  }

  /** `calculateTotalTargetAmount`: the parsed targets added up, an unparseable one as 0. */
  function TotalTargetAmount(drafts: seq<DreamDraft>, parse: ParseFloat): real {
    if drafts == [] then 0.0
    else
      var last := drafts[|drafts| - 1];
      TotalTargetAmount(drafts[..|drafts| - 1], parse) + NumberOrZero(ParseValue(parse, last.targetAmount))
  }

  /** The per-dream total is the total of the saved targets, blank dreams included. */
  lemma {:induction false} TotalTargetOfDrafts(drafts: seq<DreamDraft>, parse: ParseFloat)
    ensures TotalTargetAmount(drafts, parse) == SumTargets(seq(|drafts|, i requires 0 <= i < |drafts| => ToDream(drafts[i], parse)))
  {
    if drafts != [] {
      var init := drafts[..|drafts| - 1];
      var all := seq(|drafts|, i requires 0 <= i < |drafts| => ToDream(drafts[i], parse));
      assert all[..|all| - 1] == seq(|init|, i requires 0 <= i < |init| => ToDream(init[i], parse));
      TotalTargetOfDrafts(init, parse);
    }
  }

  function SumTargets(dreams: seq<Dream>): real {
    if dreams == [] then 0.0 else SumTargets(dreams[..|dreams| - 1]) + dreams[|dreams| - 1].targetAmount
  }

  /** Adding a dream adds its parsed target to the total. */
  lemma TotalTargetAppend(drafts: seq<DreamDraft>, d: DreamDraft, parse: ParseFloat)
    ensures TotalTargetAmount(drafts + [d], parse) == TotalTargetAmount(drafts, parse) + NumberOrZero(ParseValue(parse, d.targetAmount))
  {
    assert (drafts + [d])[..|drafts|] == drafts;
  }

  /** The total the page compares the savings with: the parsed global goal in global mode,
      otherwise the per-dream total. */
  function TotalTarget(useGlobalGoal: bool, globalGoal: Value, drafts: seq<DreamDraft>, parse: ParseFloat): (r: real)
    ensures useGlobalGoal ==> r == NumberOrZero(ParseValue(parse, globalGoal))
    ensures !useGlobalGoal ==> r == TotalTargetAmount(drafts, parse)
  {
    if useGlobalGoal then NumberOrZero(ParseValue(parse, globalGoal)) else TotalTargetAmount(drafts, parse)
  }

  /** The overall progress bar is drawn only for a positive total. */
  predicate ShowOverallProgress(totalTarget: real) {
    totalTarget > 0.0
  }

  /** The global goal `handleSave` stores: null outside global mode, and null as well for a
      goal that is 0 or not a number. */
  function StoredGlobalGoal(useGlobalGoal: bool, globalGoal: Value, parse: ParseFloat): (r: Option<real>)
    ensures r.Some? <==> useGlobalGoal && ParseValue(parse, globalGoal).Some? && ParseValue(parse, globalGoal).value != 0.0
    ensures r.Some? ==> r == ParseValue(parse, globalGoal)
  {
    if useGlobalGoal then NumberOrNull(ParseValue(parse, globalGoal)) else None
  }

  /** The goal input's starting value, `globalSavingsGoal || ''`. */
  function StartingGlobalGoal(stored: Option<real>): Value {
    if stored.Some? && stored.value != 0.0 then Number(stored.value) else Text("")
  }

  /** A goal loaded and saved again without an edit is kept, unless it was a stored 0. */
  lemma GlobalGoalRoundTrip(stored: Option<real>, parse: ParseFloat)
    requires stored.None? || stored.value != 0.0
    ensures StoredGlobalGoal(stored != None, StartingGlobalGoal(stored), parse) == stored
  {
  }

  /** The page's state. */
  class DreamsPageState {
    var data: Snapshot
    var dreams: seq<DreamDraft>
    var globalGoal: Value
    var useGlobalGoal: bool
    var showToast: bool

    /** The initial state and the effect that fills an empty list with three empty dreams. */
    constructor(store: Store)
      ensures data == store.GetData()
      ensures dreams == StartingDrafts(data.dreams)
      ensures globalGoal == StartingGlobalGoal(data.globalSavingsGoal)
      ensures useGlobalGoal == (data.globalSavingsGoal != None)
      ensures !showToast
    {
      var snapshot := store.GetData();
      var stored := snapshot.dreams;
      data := snapshot;
      dreams := DraftsOf(stored);
      globalGoal := StartingGlobalGoal(snapshot.globalSavingsGoal);
      useGlobalGoal := snapshot.globalSavingsGoal != None;
      showToast := false;
      new;
      if |dreams| == 0 {
        dreams := InitialDreams;
      }
    }

    /** The savings shown, from the statistics of the loaded snapshot. */
    function CurrentSavings(): real
      reads this
    {
      GetFinancialStats(data.budget, data.expenses).savings
    }

    /** The overall progress the bar shows, when it is shown. */
    function OverallProgress(parse: ParseFloat): (r: Option<real>)
      reads this
      ensures r.Some? <==> ShowOverallProgress(TotalTarget(useGlobalGoal, globalGoal, dreams, parse))
      ensures r.Some? ==> r.value == DreamProgress(CurrentSavings(), TotalTarget(useGlobalGoal, globalGoal, dreams, parse))
      ensures r.Some? ==> r.value <= 100.0 && r.value >= 0.0
    {
      var total := TotalTarget(useGlobalGoal, globalGoal, dreams, parse);
      if ShowOverallProgress(total) then Some(DreamProgress(CurrentSavings(), total)) else None
    }

    /** `handleDreamChange`: only the named field of the dream at `index` changes. */
    method HandleDreamChange(index: int, field: DreamField, value: string)
      requires 0 <= index < |dreams|
      modifies this`dreams
      ensures |dreams| == |old(dreams)|
      ensures dreams[index] == WithField(old(dreams)[index], field, value)
      ensures forall i :: 0 <= i < |dreams| && i != index ==> dreams[i] == old(dreams)[i]
    {
      var updated := dreams;
      updated := updated[index := WithField(updated[index], field, value)];
      dreams := updated;
    }

    /** `handleAddDream`: one empty dream appended under the given fresh id. */
    method HandleAddDream(freshId: string)
      modifies this`dreams
      ensures dreams == old(dreams) + [EmptyDream(freshId)]
    {
      dreams := dreams + [EmptyDream(freshId)];
    }

    method HandleRemoveDream(index: int)
      modifies this`dreams
      ensures dreams == RemoveDream(old(dreams), index)
    {
      if |dreams| > 3 {
        dreams := WithoutIndex(dreams, index);
      }
    }

    method SetUseGlobalGoal(value: bool)
      modifies this`useGlobalGoal
      ensures useGlobalGoal == value
    {
      useGlobalGoal := value;
    }

    method SetGlobalGoal(text: string)
      modifies this`globalGoal
      ensures globalGoal == Text(text)
    {
      globalGoal := Text(text);
    }

    /** `handleSave`: the cleaned dreams and the global goal are stored, nothing else in the
        store changes, and the page reloads the snapshot. */
    method HandleSave(store: Store, parse: ParseFloat)
      modifies this`data, this`showToast, store
      ensures store.stored == Some(old(store.GetData()).(dreams := CleanDreams(dreams, parse),
                                     globalSavingsGoal := StoredGlobalGoal(useGlobalGoal, globalGoal, parse)))
      ensures data == store.GetData()
      ensures showToast
    {
      var validDreams := CleanDreams(dreams, parse);
      store.SaveDreams(validDreams);
      var updatedData := store.GetData();
      updatedData := updatedData.(globalSavingsGoal := StoredGlobalGoal(useGlobalGoal, globalGoal, parse));
      MergeFullPatch(store.GetData(), updatedData);
      store.UpdateData(PatchOf(updatedData));
      data := store.GetData();
      showToast := true;
    }
  }
}
