/**
 * The express-validator chains of the backend. A chain runs its sanitizers in order
 * and then every one of its validators (none of them bails), so one field can
 * contribute several errors; the request is rejected when the error list is non-empty.
 * Handlers then read the sanitized values (trimmed, and for e-mail addresses normalised).
 */
module Validators {
  import opened Text

  /** express-validator's `isEmail()` and `normalizeEmail()`, whose rules are the library's. */
  datatype EmailLib = EmailLib(isEmail: string -> bool, normalize: string -> string)

  /** One entry of `validationResult(req).array()`: the field and its message. */
  datatype FieldError = FieldError(path: string, msg: string)

  const MsgNameRequired: string := "Full name is required."
  const MsgNameLength: string := "Full name must be between 2 and 100 characters."
  const MsgEmailRequired: string := "Email is required."
  const MsgEmailInvalid: string := "Please provide a valid email address."
  const MsgPasswordRequired: string := "Password is required."
  const MsgPasswordLength: string := "Password must be at least 6 characters long."
  const MsgPasswordClasses: string :=
    "Password must contain at least one uppercase letter, one lowercase letter, and one digit."
  const MsgGstinRequired: string := "GSTIN is required."
  const MsgGstinFormat: string := "Invalid GSTIN format. Expected format: 22AAAAA0000A1Z5"
  const MsgEntityRequired: string := "Entity type is required."
  const MsgEntityInvalid: string := "Entity type must be either EXPORTER or IMPORTER."

  /** `fullName`: trim, notEmpty (on `.length`), isLength 2..100 (on `IsLengthCount`). */
  function NameErrors(raw: string): seq<FieldError> {
    var t := Trim(raw);
    (if |t| == 0 then [FieldError("fullName", MsgNameRequired)] else [])
    + (if !(2 <= IsLengthCount(t) <= 100) then [FieldError("fullName", MsgNameLength)] else [])
  }

  /** `email`: trim, notEmpty, isEmail (normalizeEmail only sanitizes). */
  function EmailErrors(lib: EmailLib, raw: string): seq<FieldError> {
    var t := Trim(raw);
    (if |t| == 0 then [FieldError("email", MsgEmailRequired)] else [])
    + (if !lib.isEmail(t) then [FieldError("email", MsgEmailInvalid)] else [])
  }

  /** The e-mail address a handler reads after the sanitizers ran. */
  function SanitizedEmail(lib: EmailLib, raw: string): string {
    lib.normalize(Trim(raw))
  }

  /** The text a lookahead `(?=.*X)` anchored at the start can see: up to the first line break. */
  function FirstLine(s: string): (r: string)
    ensures |r| <= |s| && r == s[..|r|]
    ensures forall i :: 0 <= i < |r| ==> !IsLineTerminator(r[i])
    ensures |r| == |s| || IsLineTerminator(s[|r|])
  {
    if s == [] || IsLineTerminator(s[0]) then [] else [s[0]] + FirstLine(s[1..])
  }

  predicate HasLower(s: string) { exists i :: 0 <= i < |s| && IsLower(s[i]) }
  predicate HasUpper(s: string) { exists i :: 0 <= i < |s| && IsUpper(s[i]) }
  predicate HasDigit(s: string) { exists i :: 0 <= i < |s| && IsDigit(s[i]) }

  /** `/^(?=.*[a-z])(?=.*[A-Z])(?=.*\d)/`. */
  predicate PasswordPattern(p: string) {
    var l := FirstLine(p);
    HasLower(l) && HasUpper(l) && HasDigit(l)
  }

  /** `password` at registration: notEmpty, isLength min 6, the pattern above (no trim). */
  function PasswordErrors(p: string): seq<FieldError> {
    (if |p| == 0 then [FieldError("password", MsgPasswordRequired)] else [])
    + (if IsLengthCount(p) < 6 then [FieldError("password", MsgPasswordLength)] else [])
    + (if !PasswordPattern(p) then [FieldError("password", MsgPasswordClasses)] else [])
  }

  /** The character classes of the GSTIN pattern under the `i` flag. */
  predicate IsLetterCI(c: char) { IsUpper(c) || IsLower(c) }
  predicate IsAlnumCI(c: char) { IsDigit(c) || IsLetterCI(c) }

  /**
   * `/^[0-9]{2}[A-Z]{5}[0-9]{4}[A-Z]{1}[1-9A-Z]{1}Z[0-9A-Z]{1}$/i`: fifteen characters,
   * letters of either case.
   */
  predicate GstinMatchesCI(g: string) {
    && |g| == 15
    && IsDigit(g[0]) && IsDigit(g[1])
    && IsLetterCI(g[2]) && IsLetterCI(g[3]) && IsLetterCI(g[4]) && IsLetterCI(g[5]) && IsLetterCI(g[6])
    && IsDigit(g[7]) && IsDigit(g[8]) && IsDigit(g[9]) && IsDigit(g[10])
    && IsLetterCI(g[11])
    && (('1' <= g[12] <= '9') || IsLetterCI(g[12]))
    && (g[13] == 'Z' || g[13] == 'z')
    && IsAlnumCI(g[14])
  }

  /** `gstin`: trim, notEmpty, the pattern above. */
  function GstinErrors(raw: string): seq<FieldError> {
    var t := Trim(raw);
    (if |t| == 0 then [FieldError("gstin", MsgGstinRequired)] else [])
    + (if !GstinMatchesCI(t) then [FieldError("gstin", MsgGstinFormat)] else [])
  }

  /** `entityType`: notEmpty, isIn EXPORTER / IMPORTER (no trim, exact comparison). */
  function EntityTypeErrors(raw: string): seq<FieldError> {
    (if |raw| == 0 then [FieldError("entityType", MsgEntityRequired)] else [])
    + (if raw != "EXPORTER" && raw != "IMPORTER" then [FieldError("entityType", MsgEntityInvalid)] else [])
  }

  /** `registerValidation`. */
  function RegisterErrors(lib: EmailLib, fullName: string, email: string, password: string): seq<FieldError> {
    NameErrors(fullName) + EmailErrors(lib, email) + PasswordErrors(password)
  }

  /** `loginValidation`: the e-mail chain and a bare notEmpty on the password. */
  function LoginErrors(lib: EmailLib, email: string, password: string): seq<FieldError> {
    EmailErrors(lib, email)
    + (if |password| == 0 then [FieldError("password", MsgPasswordRequired)] else [])
  }

  /** `customerValidation`. */
  function CustomerErrors(lib: EmailLib, fullName: string, email: string, gstin: string, entityType: string)
    : seq<FieldError>
  {
    NameErrors(fullName) + EmailErrors(lib, email) + GstinErrors(gstin) + EntityTypeErrors(entityType)
  }

  // ---------------------------------------------------------------------------
  // What each chain accepts.

  /** A full name passes iff its trimmed form has 2 to 100 counted characters. */
  lemma NameAccepted(raw: string)
    ensures NameErrors(raw) == [] <==> 2 <= IsLengthCount(Trim(raw)) <= 100
  {
  }

  /** An empty (or all-blank) name reports both the required and the length message. */
  lemma BlankNameErrors(raw: string)
    requires Trim(raw) == []
    ensures NameErrors(raw) == [FieldError("fullName", MsgNameRequired), FieldError("fullName", MsgNameLength)]
  {
  }

  /**
   * The customer chain's full-name rule is the registration chain's rule: both lists
   * begin with the same full-name errors, so a name is rejected by both or by neither.
   */
  lemma CustomerNameIsRegisterName(lib: EmailLib, fullName: string, email: string, password: string,
                                   gstin: string, entityType: string)
    ensures NameErrors(fullName) <= RegisterErrors(lib, fullName, email, password)
    ensures NameErrors(fullName) <= CustomerErrors(lib, fullName, email, gstin, entityType)
  {
    var n := NameErrors(fullName);
    var c := CustomerErrors(lib, fullName, email, gstin, entityType);
    assert c == n + (EmailErrors(lib, email) + GstinErrors(gstin) + EntityTypeErrors(entityType));
  }

  /** Registration rejects an empty password and one with fewer than six counted characters. */
  lemma ShortPasswordRejected(p: string)
    requires IsLengthCount(p) < 6
    ensures FieldError("password", MsgPasswordLength) in PasswordErrors(p)
    ensures p == [] ==> FieldError("password", MsgPasswordRequired) in PasswordErrors(p)
  {
  }

  /** An accepted password has six characters or more, a lower-case letter, an upper-case letter and a digit. */
  lemma {:induction false} PasswordAcceptedHasClasses(p: string)
    requires PasswordErrors(p) == []
    ensures |p| >= IsLengthCount(p) >= 6 && HasLower(p) && HasUpper(p) && HasDigit(p)
  {
    var l := FirstLine(p);
    var i :| 0 <= i < |l| && IsLower(l[i]);
    var j :| 0 <= j < |l| && IsUpper(l[j]);
    var k :| 0 <= k < |l| && IsDigit(l[k]);
    assert p[i] == l[i] && p[j] == l[j] && p[k] == l[k];
  }

  /** On a single-line password the pattern asks exactly for the three character classes. */
  lemma {:induction false} SingleLinePasswordAccepted(p: string)
    requires forall i :: 0 <= i < |p| ==> !IsLineTerminator(p[i])
    ensures PasswordErrors(p) == [] <==> IsLengthCount(p) >= 6 && HasLower(p) && HasUpper(p) && HasDigit(p)
  {
    FirstLineWhole(p);
  }

  /**
   * `isLength` does not count the presentation selectors: "Aa1" followed by three U+FE0F
   * is six characters long but too short, and so is a name of one letter and one selector.
   */
  lemma SelectorsNotCounted()
    ensures |"Aa1\U{FE0F}\U{FE0F}\U{FE0F}"| == 6
    ensures FieldError("password", MsgPasswordLength) in PasswordErrors("Aa1\U{FE0F}\U{FE0F}\U{FE0F}")
    ensures NameErrors("a\U{FE0F}") == [FieldError("fullName", MsgNameLength)]
  {
    assert IsLengthCount("Aa1\U{FE0F}\U{FE0F}\U{FE0F}") == 3 by {
      assert "Aa1\U{FE0F}\U{FE0F}\U{FE0F}"[1..] == "a1\U{FE0F}\U{FE0F}\U{FE0F}";
      assert "a1\U{FE0F}\U{FE0F}\U{FE0F}"[1..] == "1\U{FE0F}\U{FE0F}\U{FE0F}";
      assert "1\U{FE0F}\U{FE0F}\U{FE0F}"[1..] == "\U{FE0F}\U{FE0F}\U{FE0F}";
      assert "\U{FE0F}\U{FE0F}\U{FE0F}"[1..] == "\U{FE0F}\U{FE0F}";
      assert "\U{FE0F}\U{FE0F}"[1..] == "\U{FE0F}";
    }
    assert Trim("a\U{FE0F}") == "a\U{FE0F}" by {
      TrimUnpadded("a\U{FE0F}");
    }
    assert IsLengthCount("a\U{FE0F}") == 1 by {
      assert "a\U{FE0F}"[1..] == "\U{FE0F}";
    }
  }

  lemma {:induction false} FirstLineWhole(p: string)
    requires forall i :: 0 <= i < |p| ==> !IsLineTerminator(p[i])
    ensures FirstLine(p) == p
  {
    if p != [] {
      FirstLineWhole(p[1..]);
    }
  }

  /** The lookaheads cannot see past a line break: "\nPassw0rd" is rejected. */
  lemma PatternStopsAtLineBreak()
    ensures !PasswordPattern("\nPassw0rd")
    ensures PasswordErrors("\nPassw0rd") == [FieldError("password", MsgPasswordClasses)]
  {
    assert FirstLine("\nPassw0rd") == [];
  }

  /** Login asks nothing of the password beyond being non-empty. */
  lemma LoginPasswordRule(lib: EmailLib, email: string, password: string)
    requires EmailErrors(lib, email) == []
    ensures LoginErrors(lib, email, password) == [] <==> password != []
  {
  }

  /** Every password registration accepts is accepted at login too. */
  lemma RegisterImpliesLogin(lib: EmailLib, fullName: string, email: string, password: string)
    requires RegisterErrors(lib, fullName, email, password) == []
    ensures LoginErrors(lib, email, password) == []
  {
  }

  /** An accepted GSTIN is fifteen characters long once trimmed. */
  lemma GstinAcceptedLength(raw: string)
    requires GstinErrors(raw) == []
    ensures |Trim(raw)| == 15
  {
  }

  /** The thirteenth character may be 1-9 or a letter but never 0; the fourteenth must be Z. */
  lemma GstinPositions()
    ensures GstinMatchesCI("27AAAAA0000A1Z5")
    ensures GstinMatchesCI("27aaaaa0000a1z5")
    ensures !GstinMatchesCI("27AAAAA0000A0Z5")
    ensures !GstinMatchesCI("27AAAAA0000A1Y5")
    ensures !GstinMatchesCI("12345")
  {
  }

  /** The pattern is case-insensitive: a string and its upper-cased form are accepted together. */
  lemma GstinCaseInsensitive(g: string)
    ensures GstinMatchesCI(g) <==> GstinMatchesCI(ToUpper(g))
  {
    var u := ToUpper(g);
    if |g| == 15 {
      forall i | 0 <= i < 15
        ensures IsDigit(g[i]) <==> IsDigit(u[i])
        ensures IsLetterCI(g[i]) <==> IsLetterCI(u[i])
        ensures ('1' <= g[i] <= '9') <==> ('1' <= u[i] <= '9')
        ensures (g[i] == 'Z' || g[i] == 'z') <==> (u[i] == 'Z' || u[i] == 'z')
      {
        assert u[i] == UpperChar(g[i]);
      }
    }
  }

  /** The entity type must be one of the two names exactly, in upper case. */
  lemma EntityTypeAccepted(raw: string)
    ensures EntityTypeErrors(raw) == [] <==> raw == "EXPORTER" || raw == "IMPORTER"
    ensures EntityTypeErrors("exporter") != []
  {
  }

  /** The customer chain accepts exactly when each of its four fields does. */
  lemma CustomerAccepted(lib: EmailLib, fullName: string, email: string, gstin: string, entityType: string)
    ensures CustomerErrors(lib, fullName, email, gstin, entityType) == []
        <==> && 2 <= IsLengthCount(Trim(fullName)) <= 100
             && Trim(email) != [] && lib.isEmail(Trim(email))
             && GstinMatchesCI(Trim(gstin))
             && (entityType == "EXPORTER" || entityType == "IMPORTER")
  {
  }
}
