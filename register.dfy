/** The registration page: `validate` checks name, email, mobile and password in that order
    and reports the first failure; the mobile field keeps only digits, at most ten; `register`
    posts the form only when it validates. */
module RegisterPage {
  import opened Js
  import Seqs
  import Client

  datatype RegisterData = RegisterData(name: string, email: string, mobile: string, password: string)

  const NameRequired := "Name is required"
  const EmailInvalid := "Enter a valid email address"
  const MobileInvalid := "Enter a valid 10-digit mobile number"
  const PasswordShort := "Password must be at least 6 characters"
  const Registered := "Registration successful! Redirecting to login..."

  /** No character of `s` is '@' or whitespace: the class `[^\s@]`. */
  predicate NoSpaceOrAt(s: string)
  {
    forall k :: 0 <= k < |s| ==> s[k] != '@' && !IsSpace(s[k])
  }

  /** The language of `/^[^\s@]+@[^\s@]+\.[^\s@]+$/`: a non-empty local part, '@', then a
      non-empty run, '.', and a non-empty run, with no '@' and no whitespace anywhere but the
      one '@'. The runs around the '.' may themselves contain dots. */
  ghost predicate EmailShape(s: string)
  {
    exists i, k :: 0 < i && i + 1 < k && k + 1 < |s| && s[i] == '@' && s[k] == '.' &&
      NoSpaceOrAt(s[..i]) && NoSpaceOrAt(s[i + 1..])
  }

  predicate IsAt(c: char)
  {
    c == '@'
  }

  /** `emailRegex.test(email)`, decided by locating the '@'. */
  function EmailTest(s: string): bool
  {
    match Seqs.FirstIndex(s, IsAt)
    case None => false
    case Some(i) =>
      var domain := s[i + 1..];
      0 < i && NoSpaceOrAt(s[..i]) && NoSpaceOrAt(domain) && |domain| >= 3 && '.' in domain[1..|domain| - 1]
  }

  /** Every address the email check accepts has the shape the pattern describes. */
  lemma EmailTestSound(s: string)
    requires EmailTest(s)
    ensures EmailShape(s)
  {
    var i := Seqs.FirstIndex(s, IsAt).value;
    var domain := s[i + 1..];
    var middle := domain[1..|domain| - 1];
    var m :| 0 <= m < |middle| && middle[m] == '.';
    var k := i + 2 + m;
    assert s[k] == middle[m];
    assert 0 < i && i + 1 < k && k + 1 < |s| && s[i] == '@' && s[k] == '.';
  }

  /** Every address of that shape passes the email check. */
  lemma EmailTestComplete(s: string)
    requires EmailShape(s)
    ensures EmailTest(s)
  {
    var i, k :| 0 < i && i + 1 < k && k + 1 < |s| && s[i] == '@' && s[k] == '.' &&
      NoSpaceOrAt(s[..i]) && NoSpaceOrAt(s[i + 1..]);
    forall j | 0 <= j < i
      ensures !IsAt(s[j])
    {
      assert s[..i][j] == s[j];
    }
    var found := Seqs.FirstIndex(s, IsAt);
    assert found == Some(i);
    var domain := s[i + 1..];
    var middle := domain[1..|domain| - 1];
    assert middle[k - i - 2] == '.';
  }

  /** The email check accepts exactly the strings of the shape the pattern describes. */
  lemma EmailTestIsShape(s: string)
    ensures EmailTest(s) <==> EmailShape(s)
  {
    if EmailTest(s) {
      EmailTestSound(s);
    }
    if EmailShape(s) {
      EmailTestComplete(s);
    }
  }

  /** `/^[6-9]\d{9}$/.test(mobile)`. */
  predicate MobileValid(s: string)
  {
    |s| == 10 && '6' <= s[0] <= '9' && forall k :: 0 <= k < |s| ==> IsDigit(s[k])
  }

  /** `validate()`: the message of the first failing check, or `null` (`None`). */
  function Validate(d: RegisterData): (r: Option<string>)
    ensures r.None? <==>
      d.name != "" && EmailTest(d.email) && MobileValid(d.mobile) && Utf16Length(d.password) >= 6
    ensures r == Some(NameRequired) <==> d.name == ""
    ensures r == Some(EmailInvalid) <==> d.name != "" && !EmailTest(d.email)
    ensures r == Some(MobileInvalid) <==> d.name != "" && EmailTest(d.email) && !MobileValid(d.mobile)
    ensures r == Some(PasswordShort) <==>
      d.name != "" && EmailTest(d.email) && MobileValid(d.mobile) && Utf16Length(d.password) < 6
  {
    if d.name == "" then Some(NameRequired)
    else if !EmailTest(d.email) then Some(EmailInvalid)
    else if !MobileValid(d.mobile) then Some(MobileInvalid)
    else if Utf16Length(d.password) < 6 then Some(PasswordShort)
    else None
  }

  /** The mobile field's `onChange`: `value.replace(/\D/g, "").slice(0, 10)`. */
  function SanitizeMobile(input: string): (r: string)
    ensures |r| <= 10
    ensures forall k :: 0 <= k < |r| ==> IsDigit(r[k])
  {
    var digits := Seqs.Filter(input, IsDigit);
    if |digits| <= 10 then digits else digits[..10]
  }

  /** Sanitising twice is sanitising once. */
  lemma SanitizeIdempotent(input: string)
    ensures SanitizeMobile(SanitizeMobile(input)) == SanitizeMobile(input)
  {
    Seqs.FilterKeepsAll(SanitizeMobile(input), IsDigit);
  }

  /** A valid mobile number goes through the field unchanged, so the sanitiser never turns
      away input that `validate` would accept. */
  lemma SanitizeKeepsValidMobile(s: string)
    requires MobileValid(s)
    ensures SanitizeMobile(s) == s
  {
    Seqs.FilterKeepsAll(s, IsDigit);
  }

  /** The state of the registration page. */
  class RegisterForm {
    var data: RegisterData
    var error: string
    var success: string
    /** The bodies posted to `/api/register`, in order. */
    var posted: seq<RegisterData>
    /** The navigations scheduled with `setTimeout`. */
    var scheduled: seq<string>

    constructor ()
      ensures data == RegisterData("", "", "", "") && error == "" && success == ""
      ensures posted == [] && scheduled == []
    {
      data := RegisterData("", "", "", "");
      error, success := "", "";
      posted, scheduled := [], [];
    }

    /** Typing into the mobile field. */
    method SetMobile(input: string)
      modifies this
      ensures data == old(data).(mobile := SanitizeMobile(input))
      ensures error == old(error) && success == old(success)
      ensures posted == old(posted) && scheduled == old(scheduled)
    {
      data := data.(mobile := SanitizeMobile(input));
    }

    /** `register()`: a form that fails validation shows the first failure and sends nothing;
        a valid form is posted, and the answer sets either the success message and the
        redirect to the login page, or the server's message. */
    method Register(outcome: Client.Outcome)
      modifies this
      ensures data == old(data)
      ensures Validate(data).Some? ==>
        && error == Validate(data).value && success == old(success)
        && posted == old(posted) && scheduled == old(scheduled)
      ensures Validate(data).None? ==> posted == old(posted) + [data]
      ensures Validate(data).None? && outcome.Succeeded? ==>
        error == "" && success == Registered && scheduled == old(scheduled) + ["/login"]
      ensures Validate(data).None? && outcome.Failed? ==>
        && error == Client.FailureText(outcome, "Registration failed")
        && success == old(success) && scheduled == old(scheduled)
    {
      var validationError := Validate(data);
      if validationError.Some? {
        error := validationError.value;
        return;
      }
      error := "";
      posted := posted + [data];
      match outcome
      case Succeeded =>
        success := Registered;
        scheduled := scheduled + ["/login"];
      case Failed(_) =>
        error := Client.FailureText(outcome, "Registration failed");
    }
  }
}
