/** The reserve form, `src/components/ReserveForm.jsx`: its validation, the record it submits
    and its reset, and field edits. Today's date is a parameter. */
module ReserveForm {
  import opened Js
  import opened Records

  datatype Field = DateField | AmountField | DescriptionField

  /** The texts of the three inputs. */
  datatype FormData = FormData(date: string, amount: string, description: string)

  const DateRequired := "La date est requise"
  const AmountNotPositive := "Le montant doit \U{00EA}tre sup\U{00E9}rieur \U{00E0} 0"

  /** The form as it opens and as a valid submit leaves it: today's date, the amount and
      the description empty. */
  function InitialForm(today: string): FormData {
    FormData(today, "", "")
  }

  /** The amount is rejected when it is empty or a number that is not positive. A text that is
      not a number (NaN) slips through, since `NaN <= 0` is false. */
  predicate AmountRejected(amount: string, parse: ParseFloat) {
    amount == "" || (parse(amount).Some? && parse(amount).value <= 0.0)
  }

  /** The errors `validateForm` records, one per failing input. */
  function Errors(form: FormData, parse: ParseFloat): map<Field, string> {
    (if form.date == "" then map[DateField := DateRequired] else map[])
    + (if AmountRejected(form.amount, parse) then map[AmountField := AmountNotPositive] else map[])
  }

  predicate IsValid(form: FormData, parse: ParseFloat) {
    form.date != "" && !AmountRejected(form.amount, parse)
  }

  /** Each input has an error exactly when its own condition fails, with its own message; the
      description is never checked; the form is valid exactly when no error is recorded. */
  lemma ErrorsIff(form: FormData, parse: ParseFloat)
    ensures var e := Errors(form, parse);
      && (DateField in e <==> form.date == "")
      && (AmountField in e <==> AmountRejected(form.amount, parse))
      && DescriptionField !in e
      && (DateField in e ==> e[DateField] == DateRequired)
      && (AmountField in e ==> e[AmountField] == AmountNotPositive)
      && (e == map[] <==> IsValid(form, parse))
  {
    var e := Errors(form, parse);
    if !IsValid(form, parse) {
      if form.date == "" {
        assert DateField in e;
      } else {
        assert AmountField in e;
      }
    }
  }

  /** `validateForm`'s filling of `newErrors`, one check after the other. */
  method ValidationErrors(form: FormData, parse: ParseFloat) returns (newErrors: map<Field, string>)
    ensures newErrors == Errors(form, parse)
  {
    newErrors := map[];
    if form.date == "" {
      newErrors := newErrors[DateField := DateRequired];
    }
    if AmountRejected(form.amount, parse) {
      newErrors := newErrors[AmountField := AmountNotPositive];
    }
  }

  /** The record handed to `onSubmit`: every input, the amount as a number. Its id is left
      empty: the store gives it one. */
  function Submission(form: FormData, parse: ParseFloat): (reserve: Reserve)
    requires parse(form.amount).Some?
    ensures reserve.date == form.date && reserve.description == form.description
    ensures reserve.amount == parse(form.amount).value
  {
    Reserve("", form.date, parse(form.amount).value, form.description)
  }

  /** A valid form submits a positive amount. */
  lemma ValidSubmissionIsPositive(form: FormData, parse: ParseFloat)
    requires IsValid(form, parse) && parse(form.amount).Some?
    ensures Submission(form, parse).amount > 0.0
    ensures Submission(form, parse).date != ""
  {
  }

  function WithField(form: FormData, field: Field, value: string): (r: FormData)
    ensures field == DateField ==> r == form.(date := value)
    ensures field == AmountField ==> r == form.(amount := value)
    ensures field == DescriptionField ==> r == form.(description := value)
  {
    match field
    case DateField => form.(date := value)
    case AmountField => form.(amount := value)
    case DescriptionField => form.(description := value)
  }

  /** An error is shown while its message is not empty. */
  predicate HasError(errors: map<Field, string>, field: Field) {
    field in errors && errors[field] != ""
  }

  class ReserveFormState {
    var formData: FormData
    var errors: map<Field, string>

    constructor(today: string)
      ensures formData == InitialForm(today) && errors == map[]
    {
      formData := InitialForm(today);
      errors := map[];
    }

    /** `validateForm`: the errors are replaced by those of the current inputs. */
    method Validate(parse: ParseFloat) returns (valid: bool)
      modifies this`errors
      ensures errors == Errors(formData, parse)
      ensures valid <==> IsValid(formData, parse)
    {
      var newErrors := ValidationErrors(formData, parse);
      errors := newErrors;
      ErrorsIff(formData, parse);
      valid := |newErrors| == 0;
    }

    /** `handleSubmit`: an invalid form submits nothing and keeps its inputs; a valid one
        submits its record and resets to today's date and empty inputs. */
    method HandleSubmit(parse: ParseFloat, today: string) returns (submitted: Option<Reserve>)
      requires formData.amount == "" || parse(formData.amount).Some?
      modifies this
      ensures errors == Errors(old(formData), parse)
      ensures !IsValid(old(formData), parse) ==> submitted.None? && formData == old(formData)
      ensures IsValid(old(formData), parse) ==>
        parse(old(formData).amount).Some? && submitted == Some(Submission(old(formData), parse))
        && formData == InitialForm(today)
    {
      var valid := Validate(parse);
      if !valid {
        return None;
      }
      submitted := Some(Submission(formData, parse));
      formData := InitialForm(today);
    }

    /** `handleChange`: only the edited input changes, and its error, if it shows one, is
        cleared to the empty message. */
    method HandleChange(field: Field, value: string)
      modifies this
      ensures formData == WithField(old(formData), field, value)
      ensures HasError(old(errors), field) ==> errors == old(errors)[field := ""]
      ensures !HasError(old(errors), field) ==> errors == old(errors)
      ensures !HasError(errors, field)
    {
      formData := WithField(formData, field, value);
      if HasError(errors, field) {
        errors := errors[field := ""];
      }
    }
  }
}
