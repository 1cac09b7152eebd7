/** The registration form: display-name validation on the trimmed name, the
    submit handler that registers the trimmed name, and the edit handler
    that clears a shown validation error.
 */
module Registration {
  import opened Wrappers
  import opened Text

  /** Why a display name is refused, checked in this order. */
  datatype NameError = Required | TooShort | TooLong

  const MinNameLength: nat := 2
  const MaxNameLength: nat := 50

  /** The text shown under the field for each refusal. */
  function NameErrorMessage(e: NameError): string {
    match e
    case Required => "Display name is required"
    case TooShort => "Display name must be at least 2 characters"
    case TooLong => "Display name must be less than 50 characters"
  }

  /** `validateDisplayName`: refuse a name that is blank after trimming,
      then one whose trimmed length is under 2, then one over 50. Lengths
      are JavaScript's, in UTF-16 code units. */
  function ValidateDisplayName(name: string): (r: Option<NameError>)
    ensures r == Some(Required) <==> Trim(name) == []
    ensures r == Some(TooShort) <==> Utf16Length(Trim(name)) == 1
    ensures r == Some(TooLong) <==> Utf16Length(Trim(name)) > MaxNameLength
    ensures r.None? <==> MinNameLength <= Utf16Length(Trim(name)) <= MaxNameLength
  {
    var t := Trim(name);
    if t == [] then Some(Required)
    else if Utf16Length(t) < MinNameLength then Some(TooShort)
    else if Utf16Length(t) > MaxNameLength then Some(TooLong)
    else None
  }

  /** A single character outside the Basic Multilingual Plane is two code
      units long, so it passes the minimum-length rule on its own. */
  lemma AstralCharacterIsLongEnough()
    ensures |"\U{1F600}"| == 1
    ensures ValidateDisplayName("\U{1F600}").None?
  {
    assert !IsWhitespace('\U{1F600}');
    assert Trim("\U{1F600}") == "\U{1F600}";
  }

  /** Surrounding whitespace never changes the verdict. */
  lemma ValidationIgnoresSurroundingSpace(name: string)
    ensures ValidateDisplayName(Trim(name)) == ValidateDisplayName(name)
  {
    TrimIdempotent(name);
  }

  /** The input's `maxLength` of 50 code units keeps a typed name from ever
      being too long: trimming only shortens it. */
  lemma TypedNameNeverTooLong(name: string)
    requires Utf16Length(name) <= MaxNameLength
    ensures ValidateDisplayName(name) != Some(TooLong)
  {
    TrimUtf16Shorter(name);
  }

  /** The form's state: the raw field text and the validation message, if
      one is shown. */
  datatype Form = Form(displayName: string, validationError: Option<NameError>)

  const EmptyForm: Form := Form("", None)

  /** The effect of one submission: the new form, the name sent to the
      registration call, and the name handed to `onSuccess` once that call
      has resolved. */
  datatype Submission = Submission(form: Form, registered: Option<string>, announced: Option<string>)

  /** `handleSubmit`, given whether the registration call resolves: an
      invalid name shows its error and calls nothing; a valid one clears the
      error and registers the trimmed name, announcing it only on success.
      A rejected call is only logged. Whether it resolves is a parameter:
      the registration hook is not exported by the query hooks, so what it
      does is not fixed by the code. */
  function HandleSubmit(form: Form, succeeds: bool): (s: Submission)
    ensures s.form.displayName == form.displayName
    ensures ValidateDisplayName(form.displayName).Some? ==>
      s == Submission(Form(form.displayName, ValidateDisplayName(form.displayName)), None, None)
    ensures ValidateDisplayName(form.displayName).None? ==>
      && s.form.validationError.None?
      && s.registered == Some(Trim(form.displayName))
      && (s.announced.Some? <==> succeeds)
      && (succeeds ==> s.announced == s.registered)
  {
    var error := ValidateDisplayName(form.displayName);
    if error.Some? then
      Submission(Form(form.displayName, error), None, None)
    else
      var name := Trim(form.displayName);
      Submission(Form(form.displayName, None), Some(name), if succeeds then Some(name) else None)
  }

  /** Whatever reaches the backend is a valid name with nothing left to
      trim: submitting it again would send it unchanged. */
  lemma RegisteredNameIsClean(form: Form, succeeds: bool)
    requires HandleSubmit(form, succeeds).registered.Some?
    ensures var name := HandleSubmit(form, succeeds).registered.value;
      && Trim(name) == name
      && ValidateDisplayName(name).None?
      && MinNameLength <= Utf16Length(name) <= MaxNameLength
  {
    TrimIdempotent(form.displayName);
  }

  /** `handleInputChange`: the field takes the new text and any shown error
      disappears. */
  function HandleInputChange(form: Form, value: string): (f: Form)
    ensures f.displayName == value
    ensures f.validationError.None?
  {
    if form.validationError.Some? then Form(value, None) else Form(value, form.validationError)
  }

  /** An error shown by a refused submission lasts until the next edit, and
      the edit leaves the form as if it had been typed into afresh. */
  lemma EditClearsRefusal(form: Form, succeeds: bool, value: string)
    requires ValidateDisplayName(form.displayName).Some?
    ensures HandleSubmit(form, succeeds).form.validationError.Some?
    ensures HandleInputChange(HandleSubmit(form, succeeds).form, value) == HandleInputChange(EmptyForm, value)
  {
  }

  /** The submit button: disabled while the call is pending or the trimmed
      name is empty. */
  predicate SubmitEnabled(isPending: bool, displayName: string) {
    !isPending && Trim(displayName) != []
  }

  /** Every name validation accepts can be submitted when nothing is pending;
      the button is looser than validation, so some enabled presses are
      refused. */
  lemma SubmitGateIsLooser(displayName: string)
    ensures ValidateDisplayName(displayName).None? ==> SubmitEnabled(false, displayName)
    ensures SubmitEnabled(false, "a") && ValidateDisplayName("a") == Some(TooShort)
  {
    assert !IsWhitespace('a');
    assert Trim("a") != [];
  }
}
