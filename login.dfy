/** The login form (`auth/login.js`): a validator that records one message
    per bad field, a login request sent only for a valid form, and a redirect
    to the dashboard when a session already exists. */
module LoginForm {
  import opened Common

  const DashboardPath: string := "/dashboard"
  const RequiredMessage: string := "This field is required."
  const InvalidEmailMessage: string := "Email is not valid."
  const FixErrorsMessage: string := "Please fix the errors in the form."
  const DefaultFailureMessage: string := "Login failed. Please check your credentials."

  /** A character of the JavaScript class `\s`: the ASCII controls TAB to CR,
      space, and the Unicode space separators, line and paragraph separators
      and the byte-order mark. */
  predicate IsSpace(c: char) {
    var n := c as int;
    (9 <= n <= 13) || n == 0x20 || n == 0xA0 || n == 0x1680 || (0x2000 <= n <= 0x200A)
    || n == 0x2028 || n == 0x2029 || n == 0x202F || n == 0x205F || n == 0x3000 || n == 0xFEFF
  }

  /** A character of the class `[^\s@]`. */
  predicate Plain(c: char) {
    !IsSpace(c) && c != '@'
  }

  function Count(s: string, c: char): nat {
    if s == [] then 0 else (if s[0] == c then 1 else 0) + Count(s[1..], c)
  }

  /** The first index of `c` in `s`, or `|s|` when there is none. */
  function IndexOf(s: string, c: char): (k: nat)
    ensures k <= |s|
    ensures k < |s| ==> s[k] == c
    ensures forall i :: 0 <= i < k ==> s[i] != c
  {
    if s == [] then 0 else if s[0] == c then 0 else 1 + IndexOf(s[1..], c)
  }

  /** The login screen's email rule, character by character: no whitespace,
      exactly one `@` with something before it, and a `.` in the part after
      the `@` that is neither that part's first nor its last character. */
  predicate EmailAccepted(s: string): (ok: bool)
    ensures ok ==> |s| >= 5 && s[0] != '@'
  {
    && (forall i :: 0 <= i < |s| ==> !IsSpace(s[i]))
    && Count(s, '@') == 1
    && var at := IndexOf(s, '@');
       && 0 < at < |s|
       && exists k :: at + 1 < k < |s| - 1 && s[k] == '.'
  }

  /** What the pattern `^[^\s@]+@[^\s@]+\.[^\s@]+$` accepts: the string is
      `A@B.C` with `A`, `B`, `C` non-empty runs of `[^\s@]`, so every
      character except the one `@` is in that class (the `.` is too). */
  ghost predicate MatchesPattern(s: string) {
    exists at, dot ::
      && 0 < at && at + 1 < dot < |s| - 1
      && s[at] == '@' && s[dot] == '.'
      && forall i :: 0 <= i < |s| && i != at ==> Plain(s[i])
  }

  lemma {:induction false} CountZero(s: string, c: char)
    ensures Count(s, c) == 0 <==> forall i :: 0 <= i < |s| ==> s[i] != c
  {
    if s != [] {
      CountZero(s[1..], c);
      assert forall i :: 1 <= i < |s| ==> s[i] == s[1..][i - 1];
    }
  }

  /** `c` occurs exactly once iff its first occurrence is its only one. */
  lemma {:induction false} CountOne(s: string, c: char)
    ensures Count(s, c) == 1 <==>
              IndexOf(s, c) < |s| && forall i :: 0 <= i < |s| && s[i] == c ==> i == IndexOf(s, c)
  {
    if s != [] {
      assert forall i :: 1 <= i < |s| ==> s[i] == s[1..][i - 1];
      if s[0] == c {
        CountZero(s[1..], c);
      } else {
        CountOne(s[1..], c);
      }
    }
  }

  /** The character rule and the pattern accept the same strings. */
  lemma EmailAcceptedIffPattern(s: string)
    ensures EmailAccepted(s) <==> MatchesPattern(s)
  {
    CountOne(s, '@');
    var at := IndexOf(s, '@');
    if EmailAccepted(s) {
      var k :| at + 1 < k < |s| - 1 && s[k] == '.';
      assert forall i :: 0 <= i < |s| && i != at ==> Plain(s[i]);
      assert s[at] == '@' && s[k] == '.';
    }
    if MatchesPattern(s) {
      var a, dot :| && 0 < a && a + 1 < dot < |s| - 1 && s[a] == '@' && s[dot] == '.'
                    && forall i :: 0 <= i < |s| && i != a ==> Plain(s[i]);
      assert at <= a;
      assert at == a;
      assert forall i :: 0 <= i < |s| ==> !IsSpace(s[i]);
    }
  }

  /** The error map `validate` records. */
  function FormErrors(email: string, password: string): (errors: map<string, string>)
    ensures errors.Keys <= {"email", "password"}
    ensures "email" in errors <==> email == "" || !EmailAccepted(email)
    ensures "email" in errors ==> errors["email"] == if email == "" then RequiredMessage else InvalidEmailMessage
    ensures "password" in errors <==> password == ""
    ensures "password" in errors ==> errors["password"] == RequiredMessage
  {
    var e: map<string, string> :=
      if email == "" then map["email" := RequiredMessage]
      else if !EmailAccepted(email) then map["email" := InvalidEmailMessage]
      else map[];
    if password == "" then e["password" := RequiredMessage] else e
  }

  /** The form is valid exactly when the email matches the pattern and the
      password is non-empty; the two checks are independent. */
  lemma ValidIff(email: string, password: string)
    ensures FormErrors(email, password) == map[] <==> MatchesPattern(email) && password != ""
  {
    EmailAcceptedIffPattern(email);
    if FormErrors(email, password) == map[] {
      assert "email" !in FormErrors(email, password);
    }
    if MatchesPattern(email) && password != "" {
      assert FormErrors(email, password).Keys == {};
    }
  }

  /** The snackbar text after a refused login: the server's message when it
      sent a non-empty one, the default otherwise. */
  function FailureMessage(serverMessage: Option<string>): (m: string)
    ensures Truthy(serverMessage) ==> m == serverMessage.value
    ensures !Truthy(serverMessage) ==> m == DefaultFailureMessage
  {
    if Truthy(serverMessage) then serverMessage.value else DefaultFailureMessage
  }

  /** The answer to `/auth/login`: success, or an error that may carry a
      response body with a `message`. */
  datatype LoginReply = Accepted | Refused(message: Option<string>)

  /** The mount effect `checkSession`: a response with a truthy body sends the
      user to the dashboard; an error or an empty body does nothing. */
  function SessionRedirect(verify: Reply<bool>): (navigation: Option<string>)
    ensures navigation.Some? <==> verify == Ok(true)
    ensures navigation.Some? ==> navigation.value == DashboardPath
  {
    match verify
    case Ok(hasBody) => if hasBody then Some(DashboardPath) else None
    case Failed => None
  }

  class Login {
    var email: string
    var password: string
    var errors: map<string, string>
    var snackbarOpen: bool
    var snackbarMessage: string

    constructor ()
      ensures email == "" && password == "" && errors == map[] && !snackbarOpen && snackbarMessage == ""
    {
      email, password, errors := "", "", map[];
      snackbarOpen, snackbarMessage := false, "";
    }

    /** `validate` */
    method Validate() returns (valid: bool)
      modifies this
      ensures errors == FormErrors(email, password)
      ensures valid <==> errors == map[]
      ensures !valid ==> snackbarOpen && snackbarMessage == FixErrorsMessage
      ensures valid ==> snackbarOpen == old(snackbarOpen) && snackbarMessage == old(snackbarMessage)
      ensures email == old(email) && password == old(password)
    {
      var tempErrors: map<string, string> := map[];
      valid := true;
      if email == "" {
        tempErrors := tempErrors["email" := RequiredMessage];
        valid := false;
      } else if !EmailAccepted(email) {
        tempErrors := tempErrors["email" := InvalidEmailMessage];
        valid := false;
      }
      if password == "" {
        tempErrors := tempErrors["password" := RequiredMessage];
        valid := false;
      }
      errors := tempErrors;
      if !valid {
        snackbarMessage := FixErrorsMessage;
        snackbarOpen := true;
      }
    }

    /** `handleLogin`: the request is sent only for a valid form. */
    method HandleLogin(reply: LoginReply) returns (sent: bool, navigation: Option<string>)
      modifies this
      ensures errors == FormErrors(email, password) && email == old(email) && password == old(password)
      ensures sent <==> FormErrors(email, password) == map[]
      ensures !sent ==> navigation == None && snackbarOpen && snackbarMessage == FixErrorsMessage
      ensures sent && reply.Accepted? ==>
                navigation == Some(DashboardPath) && snackbarOpen == old(snackbarOpen) && snackbarMessage == old(snackbarMessage)
      ensures sent && reply.Refused? ==>
                navigation == None && snackbarOpen && snackbarMessage == FailureMessage(reply.message)
    {
      navigation := None;
      sent := Validate();
      if sent {
        match reply
        case Accepted =>
          navigation := Some(DashboardPath);
        case Refused(message) =>
          snackbarMessage := FailureMessage(message);
          snackbarOpen := true;
      }
    }
  }
}
