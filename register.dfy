/**
 * front-end/pages/register.tsx: the ordered checks of handleSubmit and the email pattern,
 * which is the "valid email address" grammar of the WHATWG HTML Living Standard, section
 * 4.10.5.1.5: a local part, "@", and one or more dot-separated labels of at most 63 letters,
 * digits or hyphens that start and end with a letter or digit.
 */
module Register {
  import opened Wrappers
  import opened GoText
  import opened JsText
  import opened Models
  import opened AuthContext
  import opened Browser

  const NameMissing: string := "Please enter your name"
  const EmailMissing: string := "Please enter your email"
  const EmailInvalid: string := "Please enter valid email"
  const PasswordMismatch: string := "Passwords do not match"
  const PasswordTooShort: string := "Password must be at least 6 characters long"
  const TermsMissing: string := "Please accept terms and condition"
  const MinPasswordLength: nat := 6
  const MaxLabelLength: nat := 63

  predicate IsAlnum(c: char) { ('a' <= c <= 'z') || ('A' <= c <= 'Z') || ('0' <= c <= '9') }

  /** The characters of [a-zA-Z0-9.!#$%&'*+/=?^_`{|}~-]. */
  predicate IsLocalChar(c: char)
  {
    IsAlnum(c) || c in ".!#$%&'*+/=?^_`{|}~-"
  }

  predicate IsLocalPart(s: string)
  {
    |s| >= 1 && forall i | 0 <= i < |s| :: IsLocalChar(s[i])
  }

  /** [a-zA-Z0-9](?:[a-zA-Z0-9-]{0,61}[a-zA-Z0-9])? */
  predicate IsLabel(s: string)
  {
    && 1 <= |s| <= MaxLabelLength
    && IsAlnum(s[0]) && IsAlnum(s[|s| - 1])
    && forall i | 0 <= i < |s| :: IsAlnum(s[i]) || s[i] == '-'
  }

  predicate AllLabels(labels: seq<string>)
  {
    forall j | 0 <= j < |labels| :: IsLabel(labels[j])
  }

  /** One or more labels joined by dots. */
  ghost predicate IsDomain(d: string)
  {
    exists labels: seq<string> | |labels| >= 1 && AllLabels(labels) :: d == Join(labels, '.')
  }

  /** The grammar: some local part, "@", and a domain. */
  ghost predicate IsEmailAddress(s: string)
  {
    exists at | 0 <= at < |s| :: s[at] == '@' && IsLocalPart(s[..at]) && IsDomain(s[at + 1..])
  }

  /** The first position of c in s. */
  function IndexOf(s: string, c: char): (r: Option<nat>)
    ensures r.Some? ==> r.value < |s| && s[r.value] == c && c !in s[..r.value]
    ensures r.None? ==> c !in s
  {
    if s == [] then None
    else if s[0] == c then Some(0)
    else match IndexOf(s[1..], c)
      case None => None
      case Some(i) => assert s[..i + 1] == [s[0]] + s[1..][..i]; Some(i + 1)
  }

  /** emailRegex.test(s), decided the way the pattern reads: up to the only "@", then label by label. */
  function EmailRegexTest(s: string): bool
  {
    match IndexOf(s, '@')
    case None => false
    case Some(at) => IsLocalPart(s[..at]) && AllLabels(Split(s[at + 1..], '.'))
  }

  /** Splitting on dots and checking each piece decides the domain grammar. */
  lemma DomainIff(d: string)
    ensures AllLabels(Split(d, '.')) <==> IsDomain(d)
  {
    if AllLabels(Split(d, '.')) {
      JoinSplit(d, '.');
      assert d == Join(Split(d, '.'), '.');
    }
    if IsDomain(d) {
      var labels: seq<string> :| |labels| >= 1 && AllLabels(labels) && d == Join(labels, '.');
      SplitJoin(labels, '.');
    }
  }

  /** A local part has no "@", so the "@" after it is the first one. */
  lemma FirstAt(s: string, at: nat)
    requires at < |s| && s[at] == '@' && IsLocalPart(s[..at])
    ensures IndexOf(s, '@') == Some(at)
  {
    forall i | 0 <= i < at
      ensures s[i] != '@'
    {
      assert IsLocalChar(s[..at][i]);
    }
    assert s[at] in s;
    var r := IndexOf(s, '@');
    forall i | 0 <= i < r.value
      ensures s[i] != '@'
    {
      assert s[..r.value][i] == s[i];
    }
  }

  /** The test accepts exactly the strings of the grammar. */
  lemma EmailRegexTestIff(s: string)
    ensures EmailRegexTest(s) <==> IsEmailAddress(s)
  {
    if IsEmailAddress(s) {
      var at :| 0 <= at < |s| && s[at] == '@' && IsLocalPart(s[..at]) && IsDomain(s[at + 1..]);
      FirstAt(s, at);
      DomainIff(s[at + 1..]);
    }
    if EmailRegexTest(s) {
      var at := IndexOf(s, '@').value;
      DomainIff(s[at + 1..]);
    }
  }

  /** A single-label domain is accepted. */
  lemma SingleLabelDomainAccepted()
    ensures IsEmailAddress("a@localhost")
  {
    var s := "a@localhost";
    assert s[..1] == "a" && s[1] == '@';
    assert s[2..] == "localhost";
    assert Join(["localhost"], '.') == "localhost";
    assert IsLabel("localhost");
    assert AllLabels(["localhost"]);
    assert IsDomain(s[2..]);
  }

  /** The form fields handleSubmit reads. */
  datatype RegisterForm = RegisterForm(name: string, email: string, password: string, confirmPassword: string, termsAgree: bool)

  /** handleSubmit's checks in their order; the first failing one gives the message, None when all pass. */
  function Validate(f: RegisterForm): Option<string>
  {
    Checks(Trim(f.name), Trim(f.email), Trim(f.password), Trim(f.confirmPassword), f.termsAgree)
  }

  /** The checks on the trimmed values. */
  function Checks(name: string, email: string, password: string, confirmPassword: string, termsAgree: bool): Option<string>
  {
    if name == "" then Some(NameMissing)
    else if email == "" then Some(EmailMissing)
    else if !EmailRegexTest(email) then Some(EmailInvalid)
    else if password != confirmPassword then Some(PasswordMismatch)
    else if Utf16Length(password) < MinPasswordLength then Some(PasswordTooShort)
    else if !termsAgree then Some(TermsMissing)
    else None
  }

  /** A form passes only with a name, an email of the grammar, matching passwords of six or more code units and the terms accepted. */
  lemma ValidFormMeaning(f: RegisterForm)
    ensures Validate(f).None? <==>
              && Trim(f.name) != [] && IsEmailAddress(Trim(f.email))
              && Trim(f.password) == Trim(f.confirmPassword)
              && Utf16Length(Trim(f.password)) >= MinPasswordLength
              && f.termsAgree
  {
    EmailRegexTestIff(Trim(f.email));
  }

  /** A name of white space only is the first thing reported. */
  lemma BlankNameRejected(f: RegisterForm)
    requires AllTrimmable(f.name)
    ensures Validate(f) == Some(NameMissing)
  {
    TrimEmptyIff(f.name);
  }

  /** With a name present, an email of white space only is reported as missing, not as malformed. */
  lemma BlankEmailRejected(f: RegisterForm)
    requires !AllTrimmable(f.name) && AllTrimmable(f.email)
    ensures Validate(f) == Some(EmailMissing)
  {
    TrimEmptyIff(f.name);
    TrimEmptyIff(f.email);
  }

  /** An email outside the grammar is reported once name and email are present. */
  lemma MalformedEmailRejected(f: RegisterForm)
    requires Trim(f.name) != [] && Trim(f.email) != [] && !IsEmailAddress(Trim(f.email))
    ensures Validate(f) == Some(EmailInvalid)
  {
    EmailRegexTestIff(Trim(f.email));
  }

  /** A mismatch is reported before the length check, so a short mismatching password gets the mismatch message. */
  lemma MismatchBeforeLength(f: RegisterForm)
    requires Trim(f.name) != [] && Trim(f.email) != [] && IsEmailAddress(Trim(f.email))
    requires Trim(f.password) != Trim(f.confirmPassword)
    ensures Validate(f) == Some(PasswordMismatch)
  {
    EmailRegexTestIff(Trim(f.email));
  }

  /** The terms box is checked last: an unchecked box is reported only when every field passes. */
  lemma TermsCheckedLast(f: RegisterForm)
    requires !f.termsAgree
    ensures Validate(f) == Some(TermsMissing) <==>
              && Trim(f.name) != [] && IsEmailAddress(Trim(f.email))
              && Trim(f.password) == Trim(f.confirmPassword) && Utf16Length(Trim(f.password)) >= MinPasswordLength
  {
    EmailRegexTestIff(Trim(f.email));
  }

  /** Surrounding white space does not matter: the form is judged on trimmed values. */
  lemma ValidateIgnoresSurroundingSpace(f: RegisterForm)
    ensures Validate(f) == Validate(RegisterForm(Trim(f.name), Trim(f.email), Trim(f.password), Trim(f.confirmPassword), f.termsAgree))
  {
    TrimIdempotent(f.name);
    TrimIdempotent(f.email);
    TrimIdempotent(f.password);
    TrimIdempotent(f.confirmPassword);
  }

  /** The register page: its form state, the error text, the loading flag and the auth provider it uses. */
  class RegisterPage {
    var form: RegisterForm
    var error: string
    var isLoading: bool
    const auth: AuthProvider

    constructor (auth: AuthProvider)
      ensures form == RegisterForm("", "", "", "", false) && error == "" && !isLoading && this.auth == auth
    {
      form := RegisterForm("", "", "", "", false);
      error := "";
      isLoading := false;
      this.auth := auth;
    }

    /**
     * The part of handleSubmit after the checks pass: clear the error, set the loading flag,
     * call signUp and clear the flag. The outcome of signUp's request is applied here before
     * the flag is cleared; in the program signUp returns at once and the flag is cleared while
     * the request is still pending.
     */
    method Submit(name: string, email: string, password: string)
      modifies this`error, this`isLoading, auth`user, auth`toasts, auth.window`storage, auth.window`pathname
      ensures error == "" && !isLoading
      ensures var reply := auth.registerApi(RegisterReq(email, password, name));
              if reply.Registered? then
                auth.user == Some(reply.user) && auth.window.storage == old(auth.window.storage)[TokenKey := reply.token]
                && auth.window.pathname == DashboardPath
              else
                auth.user == old(auth.user) && auth.window.storage == old(auth.window.storage)
                && auth.window.pathname == old(auth.window.pathname)
    {
      error := "";
      isLoading := true;
      auth.SignUp(name, email, password);
      isLoading := false;
    }

    /**
     * handleSubmit: a failed check only sets its message; otherwise the error is cleared and
     * signUp gets the trimmed name, email and password. signUp never rejects, so the error
     * stays empty whatever the server answers.
     */
    method HandleSubmit()
      modifies this`error, this`isLoading, auth`user, auth`toasts, auth.window`storage, auth.window`pathname
      ensures Validate(old(form)).Some? ==>
                && error == Validate(old(form)).value && isLoading == old(isLoading)
                && auth.user == old(auth.user) && auth.toasts == old(auth.toasts)
                && auth.window.storage == old(auth.window.storage) && auth.window.pathname == old(auth.window.pathname)
      ensures Validate(old(form)).None? ==>
                && error == "" && !isLoading
                && var reply := auth.registerApi(RegisterReq(Trim(old(form).email), Trim(old(form).password), Trim(old(form).name)));
                   if reply.Registered? then
                     auth.user == Some(reply.user) && auth.window.storage == old(auth.window.storage)[TokenKey := reply.token]
                     && auth.window.pathname == DashboardPath
                   else
                     auth.user == old(auth.user) && auth.window.storage == old(auth.window.storage)
                     && auth.window.pathname == old(auth.window.pathname)
    {
      var f := form;
      var failure := Validate(f);
      if failure.Some? {
        error := failure.value;
        return;
      }
      Submit(Trim(f.name), Trim(f.email), Trim(f.password));
    }
  }
}
