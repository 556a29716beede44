/**
 * The customer onboarding form: its zod schema (the GSTIN is upper-cased, then tested
 * against an upper-case pattern), the first issue react-hook-form shows per field, and
 * `onSubmit`, which posts the payload and reports the outcome.
 */
module OnboardForm {
  import opened Wrappers
  import opened Text
  import opened Validators
  import opened Records
  import opened CustomerRoutes
  import opened ClientApi

  /** `gstinRegex`: `/^[0-9]{2}[A-Z]{5}[0-9]{4}[A-Z]{1}[1-9A-Z]{1}Z[0-9A-Z]{1}$/`, no `i` flag. */
  predicate GstinRegex(g: string) {
    && |g| == 15
    && IsDigit(g[0]) && IsDigit(g[1])
    && IsUpper(g[2]) && IsUpper(g[3]) && IsUpper(g[4]) && IsUpper(g[5]) && IsUpper(g[6])
    && IsDigit(g[7]) && IsDigit(g[8]) && IsDigit(g[9]) && IsDigit(g[10])
    && IsUpper(g[11])
    && (('1' <= g[12] <= '9') || IsUpper(g[12]))
    && g[13] == 'Z'
    && (IsDigit(g[14]) || IsUpper(g[14]))
  }

  /** The form's values as registered inputs; `entityType` is `None` until a radio is chosen. */
  datatype CustomerInput = CustomerInput(fullName: string, email: string, gstin: string, entityType: Option<string>)

  const MsgFormNameMin: string := "Full name must be at least 2 characters"
  const MsgFormNameMax: string := "String must contain at most 100 character(s)"
  const MsgFormEmail: string := "Please enter a valid email address"
  const MsgFormGstinRequired: string := "GSTIN is required"
  const MsgFormGstinFormat: string := "Invalid GSTIN format. Expected format: 22AAAAA0000A1Z5"
  const MsgFormEntity: string := "Please select entity type"
  const MsgOnboarded: string := "Customer onboarded successfully!"
  const MsgOnboardFailed: string := "Failed to onboard customer."
  const DashboardPath: string := "/dashboard"

  /** `z.string().min(2, …).max(100)` on the untrimmed name, counted in UTF-16 code units. */
  function FullNameIssue(s: string): Option<string> {
    if Utf16Length(s) < 2 then Some(MsgFormNameMin)
    else if Utf16Length(s) > 100 then Some(MsgFormNameMax)
    else None
  }

  /** `z.string().email(…)`, whose pattern is zod's. */
  function EmailIssue(zodEmail: string -> bool, s: string): Option<string> {
    if zodEmail(s) then None else Some(MsgFormEmail)
  }

  /** `min(1, …)`, then upper-case, then the pattern; the first failing check is the one shown. */
  function GstinIssue(s: string): Option<string> {
    if Utf16Length(s) < 1 then Some(MsgFormGstinRequired)
    else if !GstinRegex(ToUpper(s)) then Some(MsgFormGstinFormat)
    else None
  }

  /** `z.enum(['EXPORTER', 'IMPORTER'], …)`. */
  function EntityIssue(e: Option<string>): Option<string> {
    if e == Some(Exporter) || e == Some(Importer) then None else Some(MsgFormEntity)
  }

  function Issue(path: string, m: Option<string>): seq<FieldError> {
    if m.Some? then [FieldError(path, m.value)] else []
  }

  /** The messages shown under the fields, in field order, one per failing field. */
  function FormIssues(zodEmail: string -> bool, input: CustomerInput): seq<FieldError> {
    Issue("fullName", FullNameIssue(input.fullName))
    + Issue("email", EmailIssue(zodEmail, input.email))
    + Issue("gstin", GstinIssue(input.gstin))
    + Issue("entityType", EntityIssue(input.entityType))
  }

  /** `customerSchema` as `handleSubmit` applies it: the parsed data, or the issues shown. */
  function CustomerSchema(zodEmail: string -> bool, input: CustomerInput): Result<CustomerBody, seq<FieldError>> {
    var issues := FormIssues(zodEmail, input);
    if issues != [] then Failure(issues)
    else Success(CustomerBody(input.fullName, input.email, ToUpper(input.gstin), input.entityType.value))
  }

  /** The body `onSubmit` posts; it upper-cases the GSTIN once more. */
  function Payload(data: CustomerBody): CustomerBody {
    CustomerBody(data.fullName, data.email, ToUpper(data.gstin), data.entityType)
  }

  // ---------------------------------------------------------------------------
  // Properties of the schema.

  /** Testing the upper-case pattern after upper-casing is the backend's case-insensitive test. */
  lemma GstinRegexOnUpper(g: string)
    ensures GstinRegex(ToUpper(g)) <==> GstinMatchesCI(g)
  {
    var u := ToUpper(g);
    if |g| == 15 {
      forall i | 0 <= i < 15
        ensures IsDigit(u[i]) <==> IsDigit(g[i])
        ensures IsUpper(u[i]) <==> IsLetterCI(g[i])
        ensures ('1' <= u[i] <= '9') <==> ('1' <= g[i] <= '9')
        ensures u[i] == 'Z' <==> (g[i] == 'Z' || g[i] == 'z')
      {
        assert u[i] == UpperChar(g[i]);
      }
    }
  }

  /** The form treats a GSTIN and its upper-cased form alike. */
  lemma FormGstinCaseInsensitive(g: string)
    ensures GstinIssue(g) == GstinIssue(ToUpper(g))
  {
    ToUpperIdempotent(g);
    assert |ToUpper(g)| == |g|;
  }

  /** A GSTIN the form accepts upper-cases to fifteen characters of the upper-case pattern. */
  lemma FormGstinShape(g: string)
    requires GstinIssue(g).None?
    ensures |g| == 15 && GstinRegex(ToUpper(g))
    ensures forall i :: 0 <= i < 15 ==> !IsLower(ToUpper(g)[i])
  {
  }

  /** The form accepts the entity type iff one of the two names was chosen, as the backend does. */
  lemma FormEntityAgrees(e: Option<string>)
    ensures EntityIssue(e).None? <==> e.Some? && EntityTypeErrors(e.value) == []
  {
  }

  /**
   * Whatever the form lets through is posted with an upper-case GSTIN that the backend's
   * GSTIN and entity-type chains accept, and that is stored exactly as sent.
   */
  lemma {:induction false} SubmittedPayloadAccepted(zodEmail: string -> bool, input: CustomerInput)
    requires CustomerSchema(zodEmail, input).Success?
    ensures var p := Payload(CustomerSchema(zodEmail, input).value);
      && p.gstin == ToUpper(input.gstin)
      && (forall i :: 0 <= i < |p.gstin| ==> !IsLower(p.gstin[i]))
      && GstinErrors(p.gstin) == []
      && EntityTypeErrors(p.entityType) == []
      && GstinKey(p) == p.gstin
  {
    var g := input.gstin;
    var u := ToUpper(g);
    assert GstinIssue(g).None? && EntityIssue(input.entityType).None?;
    ToUpperIdempotent(g);
    GstinRegexOnUpper(g);
    GstinCaseInsensitive(g);
    assert IsDigit(u[0]) && (IsDigit(u[14]) || IsUpper(u[14]));
    TrimUnpadded(u);
    FormEntityAgrees(input.entityType);
  }

  /** The form does not trim: " a " passes its length rule but not the backend's. */
  lemma UntrimmedNamePassesForm()
    ensures FullNameIssue(" a ").None?
    ensures NameErrors(" a ") != []
  {
    assert Utf16Length(" a ") == 3;
    assert Trim(" a ") == "a" by {
      assert TrimStart(" a ") == TrimStart("a ");
      assert TrimStart("a ") == "a ";
      assert TrimEnd("a ") == TrimEnd("a");
    }
  }

  /** The form counts UTF-16 code units: one character outside the BMP passes it but not the backend. */
  lemma AstralNamePassesForm()
    ensures FullNameIssue("\U{1D49C}").None?
    ensures NameErrors("\U{1D49C}") != []
  {
    assert Utf16Length("\U{1D49C}") == 2;
    assert Trim("\U{1D49C}") == "\U{1D49C}";
  }

  /** The page's state: the submit flag, the notifications, the navigations and the form resets. */
  class OnboardPage {
    var isSubmitting: bool
    var toasts: seq<Toast>
    var routes: seq<string>
    var resets: nat
    /** The value of `isSubmitting` while the request was in flight. */
    ghost var submittingWhileSent: bool

    constructor ()
      ensures !isSubmitting && toasts == [] && routes == [] && resets == 0
    {
      isSubmitting := false;
      toasts := [];
      routes := [];
      resets := 0;
      submittingWhileSent := false;
    }

    /** `onSubmit(data)`: post the payload; on success toast, reset and go to the dashboard. */
    method OnSubmit(api: CustomerBody -> Option<ClientError>, data: CustomerBody)
      modifies this
      ensures submittingWhileSent && !isSubmitting
      ensures api(Payload(data)).None? ==>
        && toasts == old(toasts) + [SuccessToast(MsgOnboarded)]
        && routes == old(routes) + [DashboardPath] && resets == old(resets) + 1
      ensures api(Payload(data)).Some? ==>
        && toasts == old(toasts) + [ErrorToast(ErrorMessage(api(Payload(data)).value, MsgOnboardFailed))]
        && routes == old(routes) && resets == old(resets)
    {
      isSubmitting := true;
      submittingWhileSent := isSubmitting;
      var failure := api(CustomerBody(data.fullName, data.email, ToUpper(data.gstin), data.entityType));
      if failure.None? {
        toasts := toasts + [SuccessToast(MsgOnboarded)];
        resets := resets + 1;
        routes := routes + [DashboardPath];
      } else {
        var message := ErrorMessage(failure.value, MsgOnboardFailed);
        toasts := toasts + [ErrorToast(message)];
      }
      isSubmitting := false;
    }

    /** `handleSubmit(onSubmit)`: validate, and call `onSubmit` only when there is no issue. */
    method Submit(zodEmail: string -> bool, api: CustomerBody -> Option<ClientError>, input: CustomerInput)
      returns (issues: seq<FieldError>)
      modifies this
      ensures CustomerSchema(zodEmail, input).Failure? ==>
        && issues == CustomerSchema(zodEmail, input).error
        && isSubmitting == old(isSubmitting) && toasts == old(toasts)
        && routes == old(routes) && resets == old(resets)
      ensures CustomerSchema(zodEmail, input).Success? ==>
        var sent := Payload(CustomerSchema(zodEmail, input).value);
        && issues == [] && submittingWhileSent && !isSubmitting
        && (api(sent).None? ==>
              && toasts == old(toasts) + [SuccessToast(MsgOnboarded)]
              && routes == old(routes) + [DashboardPath] && resets == old(resets) + 1)
        && (api(sent).Some? ==>
              && toasts == old(toasts) + [ErrorToast(ErrorMessage(api(sent).value, MsgOnboardFailed))]
              && routes == old(routes) && resets == old(resets))
    {
      var parsed := CustomerSchema(zodEmail, input);
      if parsed.Failure? {
        return parsed.error;
      }
      OnSubmit(api, parsed.value);
      issues := [];
    }
  }
}
