/** The spreadsheet upload, `src/components/BudgetUpload.jsx`: which files are accepted, and
    the loading and error state around parsing. Reading the file is not modelled: parsing
    starts from the rows the sheet yields. */
module BudgetUpload {
  import opened Js
  import opened Records
  import opened ExcelParser

  /** The two properties of a browser `File` the upload looks at. */
  datatype File = File(name: string, mimeType: string)

  const XlsxType := "application/vnd.openxmlformats-officedocument.spreadsheetml.sheet"
  const XlsType := "application/vnd.ms-excel"
  const FormatError := "Format de fichier non valide. Utilisez un fichier Excel (.xlsx ou .xls)"
  const LoadError := "Erreur lors du chargement du fichier"

  /** A file is accepted by its MIME type or, failing that, by its extension. */
  predicate IsAcceptedFile(file: File) {
    file.mimeType == XlsxType || file.mimeType == XlsType || EndsWith(file.name, ".xlsx") || EndsWith(file.name, ".xls")
  }

  /** A name ending in '.xlsx' or '.xls' is enough, whatever the type; a CSV file is refused. */
  lemma AcceptanceExamples()
    ensures IsAcceptedFile(File("budget.xlsx", ""))
    ensures IsAcceptedFile(File("budget.xls", "application/octet-stream"))
    ensures IsAcceptedFile(File("budget", XlsType))
    ensures !IsAcceptedFile(File("budget.csv", "text/csv"))
  {
    assert "budget.xlsx"[6..] == ".xlsx";
    assert "budget.xls"[6..] == ".xls";
    assert "budget.csv"[6..] != ".xls";
    assert "budget.csv"[5..] != ".xlsx";
  }

  /** The message shown for a failed parse: the error's own, or the generic one if it is empty. */
  function LoadErrorMessage(message: string): (m: string)
    ensures m != ""
    ensures message != "" ==> m == message
  {
    if message != "" then message else LoadError
  }

  class BudgetUploadState {
    var isLoading: bool
    var error: string
    const selectedPeriod: string

    constructor(selectedPeriod: string := Monthly)
      ensures !isLoading && error == "" && this.selectedPeriod == selectedPeriod
    {
      isLoading := false;
      error := "";
      this.selectedPeriod := selectedPeriod;
    }

    /** `handleFileUpload` up to the `await`: a missing file is ignored, a refused one sets the
        format error and is not parsed, an accepted one clears the error and starts loading. */
    method Start(file: Option<File>) returns (parseIt: bool)
      modifies this
      ensures file.None? ==> !parseIt && isLoading == old(isLoading) && error == old(error)
      ensures file.Some? && !IsAcceptedFile(file.value) ==>
        !parseIt && isLoading == old(isLoading) && error == FormatError
      ensures file.Some? && IsAcceptedFile(file.value) ==> parseIt && isLoading && error == ""
    {
      if file.None? {
        return false;
      }
      if !IsAcceptedFile(file.value) {
        error := FormatError;
        return false;
      }
      isLoading := true;
      error := "";
      return true;
    }

    /** `handleFileUpload` after the `await`: a parsed budget is normalised to the selected
        period and handed on; a failure shows its message; loading ends either way. */
    method Finish(outcome: Result<seq<BudgetCategory>>) returns (loaded: Option<seq<BudgetCategory>>)
      modifies this
      ensures !isLoading
      ensures outcome.Success? ==> loaded == Some(NormalizeBudgetToPeriod(outcome.value, selectedPeriod)) && error == old(error)
      ensures outcome.Failure? ==> loaded.None? && error == LoadErrorMessage(outcome.error)
    {
      loaded := None;
      if outcome.Success? {
        loaded := Some(NormalizeBudgetToPeriod(outcome.value, selectedPeriod));
      } else {
        error := LoadErrorMessage(outcome.error);
      }
      isLoading := false;
    }

    /** The whole upload of a sheet: what reaches `onBudgetLoaded` is never empty and is all
        in the selected period. */
    method HandleFileUpload(file: Option<File>, rows: seq<Row>, parse: ParseFloat) returns (loaded: Option<seq<BudgetCategory>>)
      modifies this
      ensures loaded.Some? ==> file.Some? && IsAcceptedFile(file.value) && ParseRows(rows, parse).Success?
      ensures loaded.Some? ==> |loaded.value| > 0 && forall c :: c in loaded.value ==> c.period == selectedPeriod
      ensures file.Some? && IsAcceptedFile(file.value) ==> !isLoading
      ensures file.Some? && IsAcceptedFile(file.value) && ParseRows(rows, parse).Failure? ==> loaded.None? && error == NoValidData
      ensures file.Some? && IsAcceptedFile(file.value) && ParseRows(rows, parse).Success? ==>
        loaded == Some(NormalizeBudgetToPeriod(ParseRows(rows, parse).value, selectedPeriod)) && error == ""
      ensures file.Some? && !IsAcceptedFile(file.value) ==> loaded.None? && error == FormatError && isLoading == old(isLoading)
      ensures file.None? ==> loaded.None? && error == old(error) && isLoading == old(isLoading)
    {
      var parseIt := Start(file);
      if !parseIt {
        return None;
      }
      var outcome := ParseRows(rows, parse);
      loaded := Finish(outcome);
      if loaded.Some? {
        var normalized := loaded.value;
        assert forall c :: c in normalized ==> c.period == selectedPeriod by {
          forall c | c in normalized ensures c.period == selectedPeriod {
            var i :| 0 <= i < |normalized| && normalized[i] == c;
          }
        }
      }
    }
  }
}
