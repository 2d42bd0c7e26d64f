/** The payment dialog: the chosen payment method, the reference the user
    types, its validation, what is handed to the caller on submit, and the
    per-method hints. Validation measures the trimmed reference in UTF-16
    code units, as JavaScript's `length` does. */
module PaymentModal {
  import opened Wrappers
  import opened Text

  datatype PaymentMethod = Mpesa | BankTransaction | Cash

  /** The wire spelling of a payment method. */
  function MethodName(m: PaymentMethod): string
  {
    match m
    case Mpesa => "MPESA"
    case BankTransaction => "BANK_TRANSACTION"
    case Cash => "CASH"
  }

  /** Reads a select value back into a method. */
  function ParseMethod(s: string): (m: Option<PaymentMethod>)
    ensures m.Some? ==> MethodName(m.value) == s
  {
    if s == "MPESA" then Some(Mpesa)
    else if s == "BANK_TRANSACTION" then Some(BankTransaction)
    else if s == "CASH" then Some(Cash)
    else None
  }

  lemma ParseMethodName(m: PaymentMethod)
    ensures ParseMethod(MethodName(m)) == Some(m)
  {
  }

  const ReferenceField := "paymentReference"
  const RequiredMessage := "Payment reference is required"
  const TooShortMessage := "Payment reference must be at least 3 characters"

  /** The dialog's state: the chosen method, the reference as typed and the
      errors shown under the fields. */
  datatype Form = Form(channel: PaymentMethod, reference: string, errors: map<string, string>)

  /** The state the dialog opens in and returns to when closed. */
  const InitialForm := Form(Mpesa, "", map[])

  /** The errors of a reference. The method is always one of the three
      choices, so the "method is required" error cannot arise. */
  function Validate(reference: string): (errors: map<string, string>)
    ensures errors.Keys <= {ReferenceField}
    ensures errors == map[] <==> Utf16Length(Trim(reference)) >= 3
    ensures ReferenceField in errors && AllWhite(reference) ==> errors[ReferenceField] == RequiredMessage
    ensures ReferenceField in errors && !AllWhite(reference) ==> errors[ReferenceField] == TooShortMessage
  {
    var t := Trim(reference);
    if t == "" then
      assert ReferenceField in map[ReferenceField := RequiredMessage];
      map[ReferenceField := RequiredMessage]
    else if Utf16Length(t) < 3 then
      assert ReferenceField in map[ReferenceField := TooShortMessage];
      map[ReferenceField := TooShortMessage]
    else map[]
  }

  /** What the dialog hands to its caller on a valid submit. */
  datatype Confirmation = Confirmation(channel: PaymentMethod, reference: string)

  datatype Submitted = Submitted(form: Form, confirmation: Option<Confirmation>)

  /** Submitting: the errors are recomputed, and the caller receives the
      method and the trimmed reference exactly when there are none. The
      typed reference is kept as typed. */
  function Submit(form: Form): (out: Submitted)
    ensures out.form.channel == form.channel && out.form.reference == form.reference
    ensures out.confirmation.Some? <==> out.form.errors == map[]
    ensures out.confirmation.Some? ==>
              out.confirmation.value == Confirmation(form.channel, Trim(form.reference))
  {
    var errors := Validate(form.reference);
    Submitted(form.(errors := errors),
              if errors == map[] then Some(Confirmation(form.channel, Trim(form.reference))) else None)
  }

  /** A confirmed reference is already trimmed, at least three code units
      long, and would pass validation again unchanged. */
  lemma ConfirmedReferenceIsClean(form: Form)
    requires Submit(form).confirmation.Some?
    ensures var r := Submit(form).confirmation.value.reference;
            && Trim(r) == r && Utf16Length(r) >= 3 && Validate(r) == map[]
  {
    TrimIdempotent(form.reference);
  }

  /** White space typed around a reference changes neither the errors nor
      the reference handed on. */
  lemma PaddingIsIgnored(form: Form, a: string, b: string)
    requires AllWhite(a) && AllWhite(b)
    ensures Submit(form.(reference := a + form.reference + b)).form.errors == Submit(form).form.errors
    ensures Submit(form.(reference := a + form.reference + b)).confirmation == Submit(form).confirmation
  {
    TrimIgnoresPadding(a, form.reference, b);
  }

  /** A blank reference is reported as missing and is never submitted. */
  lemma BlankIsRequired(form: Form)
    requires AllWhite(form.reference)
    ensures Submit(form).form.errors == map[ReferenceField := RequiredMessage]
    ensures Submit(form).confirmation.None?
  {
  }

  /** The length rule counts UTF-16 code units: two characters, one of them
      outside the Basic Multilingual Plane, already pass it. */
  lemma AstralCharacterCountsTwice()
    ensures Validate("\U{1F600}A") == map[]
  {
    var s := "\U{1F600}A";
    assert !IsWhite(s[0]) && !IsWhite(s[1]);
    assert Framed(s, 0, 2) && s[0..2] == s;
    var i, j := TrimFrame(s);
    FramedUnique(s, 0, 2, i, j);
    assert Trim(s) == s;
    assert Utf16Length(s) == 2 + Utf16Length(s[1..]);
    assert Utf16Length(s[1..]) == 1 + Utf16Length(s[2..]);
  }

  /** Closing the dialog returns it to its opening state, whatever was typed. */
  function Close(form: Form): (closed: Form)
    ensures closed == InitialForm
    ensures closed.errors == map[] && closed.reference == "" && closed.channel == Mpesa
  {
    InitialForm
  }

  /** Closing discards what was typed: a submit right after reopening is
      refused for a missing reference, and closing twice is closing once. */
  lemma SubmitAfterClose(form: Form)
    ensures Submit(Close(form)).form.errors == map[ReferenceField := RequiredMessage]
    ensures Submit(Close(form)).confirmation.None?
    ensures Close(Close(form)) == Close(form)
  {
    BlankIsRequired(Close(form));
  }

  /** The example shown in the empty reference field: "e.g., " and a
      reference of the method's kind. */
  function Placeholder(m: PaymentMethod): (text: string)
    ensures |text| > 6 && text[..6] == "e.g., "
  {
    "e.g., " +
      match m
      case Mpesa => "QDZ8M123AB (M-Pesa transaction code)"
      case BankTransaction => "TXN123456789 (Bank transaction number)"
      case Cash => "CASH-001-2024 (Receipt number)"
  }

  /** The hint shown under the reference field: an instruction starting
      with "Enter ". */
  function Helper(m: PaymentMethod): (text: string)
    ensures |text| > 6 && text[..6] == "Enter "
  {
    "Enter " +
      match m
      case Mpesa => "the M-Pesa transaction confirmation code"
      case BankTransaction => "the bank transaction or reference number"
      case Cash => "the cash receipt number or reference"
  }

  /** Each method has its own placeholder and its own non-empty hint. */
  lemma HintsPerMethod(m: PaymentMethod, n: PaymentMethod)
    ensures Placeholder(m) == Placeholder(n) <==> m == n
    ensures Helper(m) == Helper(n) <==> m == n
    ensures Helper(m) != ""
  {
    PlaceholdersDiffer(m, n);
    HelpersDiffer(m, n);
  }

  lemma HelpersDiffer(m: PaymentMethod, n: PaymentMethod)
    ensures Helper(m) == Helper(n) <==> m == n
  {
  }

  lemma PlaceholdersDiffer(m: PaymentMethod, n: PaymentMethod)
    ensures Placeholder(m) == Placeholder(n) <==> m == n
  {
  }
}
