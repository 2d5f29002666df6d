/** Period conversion and the row rule of `src/utils/excelParser.js`. Reading the file and
    the workbook is outside the model: the rule starts from the rows the sheet yields. */
module ExcelParser {
  import opened Js
  import opened Records

  // ---------------------------------------------------------------------------
  // Periods

  const Monthly := "mensuel"
  const SemiAnnual := "semestriel"
  const Annual := "annuel"

  /** The month count of a period; any other period text counts as one month. */
  function Months(period: string): (m: real)
    ensures m == 1.0 || m == 6.0 || m == 12.0
    ensures period == SemiAnnual ==> m == 6.0
    ensures period == Annual ==> m == 12.0
    ensures period != SemiAnnual && period != Annual ==> m == 1.0
  {
    if period == Monthly then 1.0
    else if period == SemiAnnual then 6.0
    else if period == Annual then 12.0
    else 1.0
  }

  /** `convertAmount`: the amount per month, scaled to the target period. */
  function ConvertAmount(amount: real, fromPeriod: string, toPeriod: string): real {
    (amount / Months(fromPeriod)) * Months(toPeriod)
  }

  /** The conversion factors of the three named periods. */
  lemma ConvertAmountFactors(amount: real)
    ensures ConvertAmount(amount, Annual, Monthly) * 12.0 == amount
    ensures ConvertAmount(amount, SemiAnnual, Monthly) * 6.0 == amount
    ensures ConvertAmount(amount, Monthly, Annual) == amount * 12.0
    ensures ConvertAmount(amount, Monthly, SemiAnnual) == amount * 6.0
    ensures ConvertAmount(amount, SemiAnnual, Annual) == amount * 2.0
  {
  }

  /** Over exact arithmetic, converting to another period and back returns the amount. */
  lemma ConvertRoundTrip(amount: real, p: string, q: string)
    ensures ConvertAmount(ConvertAmount(amount, p, q), q, p) == amount
  {
    var mp, mq := Months(p), Months(q);
    assert (amount / mp) * mq / mq == amount / mp;
    assert (amount / mp) * mp == amount;
  }

  /** Converting a period to itself is the identity. */
  lemma ConvertIdentity(amount: real, p: string)
    ensures ConvertAmount(amount, p, p) == amount
  {
    var m := Months(p);
    assert (amount / m) * m == amount;
  }

  /** An unrecognised period text behaves exactly as 'mensuel'. */
  lemma UnknownPeriodIsMonthly(amount: real, p: string, q: string)
    requires p != SemiAnnual && p != Annual
    ensures ConvertAmount(amount, p, q) == ConvertAmount(amount, Monthly, q)
    ensures ConvertAmount(amount, q, p) == ConvertAmount(amount, q, Monthly)
  {
  }

  /** `normalizeBudgetToPeriod`: every line converted to the target period, the old period
      kept as `originalPeriod`, every other field unchanged, length and order preserved. */
  function NormalizeBudgetToPeriod(cs: seq<BudgetCategory>, targetPeriod: string): (r: seq<BudgetCategory>)
    ensures |r| == |cs|
    ensures forall i :: 0 <= i < |cs| ==>
      && r[i].name == cs[i].name
      && r[i].period == targetPeriod
      && r[i].originalPeriod == Some(cs[i].period)
      && r[i].amount == ConvertAmount(cs[i].amount, cs[i].period, targetPeriod)
  {
    if cs == [] then []
    else
      var c := cs[|cs| - 1];
      NormalizeBudgetToPeriod(cs[..|cs| - 1], targetPeriod)
        + [c.(amount := ConvertAmount(c.amount, c.period, targetPeriod), originalPeriod := Some(c.period), period := targetPeriod)]
  }

  /** Normalising lines that are already in the target period keeps their amounts. */
  lemma NormalizeSamePeriodKeepsAmounts(cs: seq<BudgetCategory>, targetPeriod: string)
    requires forall i :: 0 <= i < |cs| ==> cs[i].period == targetPeriod
    ensures forall i :: 0 <= i < |cs| ==> NormalizeBudgetToPeriod(cs, targetPeriod)[i].amount == cs[i].amount
  {
    forall i | 0 <= i < |cs| ensures NormalizeBudgetToPeriod(cs, targetPeriod)[i].amount == cs[i].amount {
      ConvertIdentity(cs[i].amount, targetPeriod);
    }
  }

  /** Normalising to another period and then back to the original one restores every line's
      amount and period. */
  lemma NormalizeRoundTrip(cs: seq<BudgetCategory>, p: string, q: string)
    requires forall i :: 0 <= i < |cs| ==> cs[i].period == p
    ensures var back := NormalizeBudgetToPeriod(NormalizeBudgetToPeriod(cs, q), p);
      forall i :: 0 <= i < |cs| ==> back[i].amount == cs[i].amount && back[i].period == p && back[i].name == cs[i].name
  {
    var there := NormalizeBudgetToPeriod(cs, q);
    forall i | 0 <= i < |cs| ensures NormalizeBudgetToPeriod(there, p)[i].amount == cs[i].amount {
      ConvertRoundTrip(cs[i].amount, p, q);
    }
  }

  // ---------------------------------------------------------------------------
  // Row rule

  /** A sheet row as the workbook reader yields it: column header to cell text. A header the
      row lacks is absent from the map. */
  type Row = map<string, string>

  const CategoryHeaders: seq<string> := ["Cat\U{00E9}gorie", "Categorie", "Category", "category"]
  const AmountHeaders: seq<string> := ["Montant", "Amount", "amount"]
  const PeriodHeaders: seq<string> := ["P\U{00E9}riode", "Periode", "Period", "period"]

  const NoValidData := "Aucune donn\U{00E9}e valide trouv\U{00E9}e dans le fichier Excel"

  /** `row[h] !== undefined && row[h] !== ''`: a header whose cell is truthy. */
  predicate Filled(row: Row, header: string) {
    header in row && row[header] != ""
  }

  /** `row[h1] || row[h2] || ...`: the cell of the first header, in order, that is filled. */
  function FirstFilled(row: Row, headers: seq<string>): (r: Option<string>)
    ensures r.None? <==> forall i :: 0 <= i < |headers| ==> !Filled(row, headers[i])
    ensures r.Some? ==> r.value != ""
  {
    if headers == [] then None
    else if Filled(row, headers[0]) then Some(row[headers[0]])
    else
      assert forall i :: 1 <= i < |headers| ==> headers[i] == headers[1..][i - 1];
      FirstFilled(row, headers[1..])
  }

  /** The cell `FirstFilled` gives is the one of the first filled header. */
  lemma {:induction false} FirstFilledIsFirst(row: Row, headers: seq<string>)
    requires FirstFilled(row, headers).Some?
    ensures exists i :: 0 <= i < |headers| && Filled(row, headers[i]) && row[headers[i]] == FirstFilled(row, headers).value
                        && forall j :: 0 <= j < i ==> !Filled(row, headers[j])
  {
    if !Filled(row, headers[0]) {
      var tail := headers[1..];
      FirstFilledIsFirst(row, tail);
      var k :| 0 <= k < |tail| && Filled(row, tail[k]) && row[tail[k]] == FirstFilled(row, tail).value
               && forall j :: 0 <= j < k ==> !Filled(row, tail[j]);
      assert headers[k + 1] == tail[k];
      forall j | 0 <= j < k + 1 ensures !Filled(row, headers[j]) {
        if j > 0 { assert headers[j] == tail[j - 1]; }
      }
    }
  }

  /** One of the three named periods. */
  predicate IsPeriod(p: string) {
    p == Monthly || p == SemiAnnual || p == Annual
  }

  /** The period of a row: its text lower-cased, 'annuel' checked first, then 'semestr',
      everything else being 'mensuel'. */
  function ClassifyPeriod(text: string): (p: string)
    ensures IsPeriod(p)
  {
    var lower := AsciiLower(text);
    if Contains(lower, "annuel") then Annual
    else if Contains(lower, "semestr") then SemiAnnual
    else Monthly
  }

  /** 'annuel' anywhere in the lower-cased text wins; otherwise 'semestr' anywhere makes the
      period semi-annual; every other text is monthly. */
  lemma ClassifyPeriodIff(text: string)
    ensures var p := ClassifyPeriod(text);
      && (p == Annual <==> Contains(AsciiLower(text), "annuel"))
      && (p == SemiAnnual <==> !Contains(AsciiLower(text), "annuel") && Contains(AsciiLower(text), "semestr"))
      && (p == Monthly <==> !Contains(AsciiLower(text), "annuel") && !Contains(AsciiLower(text), "semestr"))
  {
  }

  /** The amount of a row: the first filled amount cell parsed, or `parseFloat(0)`, which is
      0, when none is filled. */
  function RowAmount(row: Row, parse: ParseFloat): (r: Option<real>)
    ensures FirstFilled(row, AmountHeaders).None? ==> r == Some(0.0)
    ensures FirstFilled(row, AmountHeaders).Some? ==> r == parse(FirstFilled(row, AmountHeaders).value)
  {
    var cell := FirstFilled(row, AmountHeaders);
    if cell.None? then Some(0.0) else parse(cell.value)
  }

  /** The line one sheet row gives, or `None` when the row is dropped: it has no category
      name, or its amount is not a number. */
  function RowToCategory(row: Row, parse: ParseFloat): (r: Option<BudgetCategory>)
    ensures r.Some? ==> r.value.name != "" && IsPeriod(r.value.period) && r.value.originalPeriod.None?
  {
    var name := FirstFilled(row, CategoryHeaders).GetOr("");
    var amount := RowAmount(row, parse);
    var period := ClassifyPeriod(FirstFilled(row, PeriodHeaders).GetOr(Monthly));
    if name == "" || amount.None? then None
    else Some(BudgetCategory(name, amount.value, period, None))
  }

  /** A row is dropped exactly when it has no category name or its amount is not a number;
      a kept row's line carries the name, the amount and the classified period. */
  lemma RowToCategoryIff(row: Row, parse: ParseFloat)
    ensures var r := RowToCategory(row, parse);
      && (r.None? <==> FirstFilled(row, CategoryHeaders).None? || RowAmount(row, parse).None?)
      && (r.Some? ==> && r.value.name == FirstFilled(row, CategoryHeaders).value
                      && r.value.amount == RowAmount(row, parse).value
                      && r.value.period == ClassifyPeriod(FirstFilled(row, PeriodHeaders).GetOr(Monthly)))
  {
  }

  /** The lines of the kept rows, in sheet order. */
  function KeptCategories(rows: seq<Row>, parse: ParseFloat): (r: seq<BudgetCategory>)
    ensures |r| <= |rows|
    ensures forall c :: c in r ==> c.name != "" && IsPeriod(c.period)
  {
    Somes(rows, row => RowToCategory(row, parse))
  }

  /** Keeping rows commutes with splitting the sheet: kept rows stay in sheet order. */
  lemma KeptConcat(a: seq<Row>, b: seq<Row>, parse: ParseFloat)
    ensures KeptCategories(a + b, parse) == KeptCategories(a, parse) + KeptCategories(b, parse)
  {
    SomesConcat(a, b, row => RowToCategory(row, parse));
  }

  /** Nothing is kept exactly when every row is dropped. */
  lemma KeptEmptyIff(rows: seq<Row>, parse: ParseFloat)
    ensures KeptCategories(rows, parse) == [] <==> forall i :: 0 <= i < |rows| ==> RowToCategory(rows[i], parse).None?
  {
    SomesEmptyIff(rows, row => RowToCategory(row, parse));
  }

  /** The rows of a sheet after the row rule: the kept lines, or the rejection raised when no
      row survives. */
  function ParseRows(rows: seq<Row>, parse: ParseFloat): (r: Result<seq<BudgetCategory>>)
    ensures r.Failure? <==> KeptCategories(rows, parse) == []
    ensures r.Failure? ==> r.error == NoValidData
    ensures r.Success? ==> r.value == KeptCategories(rows, parse) && |r.value| > 0
  {
    var categories := KeptCategories(rows, parse);
    if |categories| == 0 then Failure(NoValidData) else Success(categories)
  }

  /** A sheet fails exactly when none of its rows is valid. */
  lemma ParseRowsFailsIff(rows: seq<Row>, parse: ParseFloat)
    ensures ParseRows(rows, parse).Failure? <==> forall i :: 0 <= i < |rows| ==> RowToCategory(rows[i], parse).None?
  {
    KeptEmptyIff(rows, parse);
  }

  /** A text cannot contain a pattern whose first character it lacks. */
  lemma {:induction false} NotContainsWithoutFirstChar(s: string, sub: string)
    requires |sub| > 0 && sub[0] !in s
    ensures !Contains(s, sub)
  {
    if s != "" {
      assert s[0] != sub[0];
      NotContainsWithoutFirstChar(s[1..], sub);
    }
  }

  const RentRow: Row := map["Cat\U{00E9}gorie" := "Loyer", "Montant" := "800", "P\U{00E9}riode" := "Semestriel"]

  /** 'Semestriel' is classified as the semi-annual period. */
  lemma SemestrielIsSemiAnnual()
    ensures ClassifyPeriod("Semestriel") == SemiAnnual
  {
    assert AsciiLower("Semestriel") == "semestriel";
    NotContainsWithoutFirstChar("semestriel", "annuel");
    assert Contains("semestriel", "semestr");
  }

  /** The cells the row rule reads in `RentRow`. */
  lemma RentRowCells()
    ensures FirstFilled(RentRow, CategoryHeaders) == Some("Loyer")
    ensures FirstFilled(RentRow, AmountHeaders) == Some("800")
    ensures FirstFilled(RentRow, PeriodHeaders) == Some("Semestriel")
  {
    assert Filled(RentRow, CategoryHeaders[0]);
    assert Filled(RentRow, AmountHeaders[0]);
    assert Filled(RentRow, PeriodHeaders[0]);
  }

  /** A 'Loyer' row of "800", 'Semestriel', is read into a semi-annual line of 800 ... */
  lemma RentRowLine(parse: ParseFloat)
    requires parse("800") == Some(800.0)
    ensures RowToCategory(RentRow, parse) == Some(BudgetCategory("Loyer", 800.0, SemiAnnual, None))
  {
    RentRowCells();
    SemestrielIsSemiAnnual();
  }

  /** ... so the sheet made of that row parses into that one line, which normalised to
      months is 800 / 6. */
  lemma RentSheetExample(parse: ParseFloat)
    requires parse("800") == Some(800.0)
    ensures ParseRows([RentRow], parse) == Success([BudgetCategory("Loyer", 800.0, SemiAnnual, None)])
    ensures NormalizeBudgetToPeriod([BudgetCategory("Loyer", 800.0, SemiAnnual, None)], Monthly)
         == [BudgetCategory("Loyer", 800.0 / 6.0, Monthly, Some(SemiAnnual))]
  {
    RentRowLine(parse);
    var line := BudgetCategory("Loyer", 800.0, SemiAnnual, None);
    assert [RentRow][..0] == [];
    assert KeptCategories([RentRow], parse) == KeptCategories([], parse) + [line];
    assert KeptCategories([RentRow], parse) == [line];
    assert [line][..0] == [];
  }
}
