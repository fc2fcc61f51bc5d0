/** The registration form (Register.jsx): a two-step validation ladder, the
    register call, and the mapping of its error text to a notification. */
module Register {
  import opened Common

  /** The arguments of `authService.register`. */
  datatype Registration = Registration(username: string, email: string, password: string)

  /** The validation ladder: the error it shows, or None when the form may
      be sent. The length check runs only once all three fields are
      present, and a password of exactly six characters passes. */
  function Validate(r: Registration): (error: Option<string>)
    ensures error.None? <==> r.username != "" && r.email != "" && r.password != "" && |r.password| >= 6
    ensures (r.username == "" || r.email == "" || r.password == "") ==> error == Some("Please fill in all fields")
    ensures r.username != "" && r.email != "" && r.password != "" && |r.password| < 6 ==>
      error == Some("Password must be at least 6 characters")
  {
    if r.username == "" || r.email == "" || r.password == "" then Some("Please fill in all fields")
    else if |r.password| < 6 then Some("Password must be at least 6 characters")
    else None
  }

  /** The error message shown for a rejected registration: the server's
      text (or "Registration failed"), unless it mentions "exists" in any
      letter case, in which case "User Already Exists". */
  function FailureMessage(detail: Option<string>): (message: string)
    ensures Contains(Lower(OrElse(detail, "Registration failed")), "exists") ==> message == "User Already Exists"
    ensures !Contains(Lower(OrElse(detail, "Registration failed")), "exists") ==>
      message == OrElse(detail, "Registration failed")
  {
    var errorMessage := OrElse(detail, "Registration failed");
    if Contains(Lower(errorMessage), "exists") then "User Already Exists" else errorMessage
  }

  /** A string without the letter 'x' cannot contain "exists". */
  lemma {:induction false} NoXNoExists(s: string)
    requires 'x' !in s
    ensures !Contains(s, "exists")
  {
    if |s| > 0 {
      assert 'x' !in s[1..] by {
        assert forall c :: c in s[1..] ==> c in s;
      }
      NoXNoExists(s[1..]);
      if |s| >= 2 {
        assert s[1] in s && "exists"[1] == 'x';
      }
    }
  }

  /** Lowering a string without either 'x' or 'X' yields no 'x'. */
  lemma LowerNoX(s: string)
    requires 'x' !in s && 'X' !in s
    ensures 'x' !in Lower(s)
  {
    var l := Lower(s);
    forall i | 0 <= i < |l|
      ensures l[i] != 'x'
    {
      assert s[i] in s;
    }
  }

  /** The fallback text does not mention "exists". */
  lemma FallbackLacksExists()
    ensures !Contains(Lower("Registration failed"), "exists")
  {
    LowerNoX("Registration failed");
    NoXNoExists(Lower("Registration failed"));
  }

  /** "exists" is found whatever its letter case. */
  lemma UpperExistsFound()
    ensures Contains(Lower("User EXISTS"), "exists")
  {
    var l := Lower("User EXISTS");
    assert l[5..] == "exists" by {
      assert forall i | 5 <= i < 11 :: l[i] == "exists"[i - 5];
    }
    ContainsIffOccurs(l, "exists");
  }

  /** Without server text the notification reads "Registration failed";
      a server text "User EXISTS" becomes "User Already Exists". */
  lemma FailureMessageScenarios()
    ensures FailureMessage(None) == "Registration failed"
    ensures FailureMessage(Some("User EXISTS")) == "User Already Exists"
  {
    FallbackLacksExists();
    UpperExistsFound();
  }

  /** The form's state; `loading` is true exactly while the register call
      is in flight, and the submit button is disabled while it is. */
  class RegisterForm {
    var formData: Registration
    var loading: bool

    constructor ()
      ensures formData == Registration("", "", "") && !loading
    {
      formData := Registration("", "", "");
      loading := false;
    }

    method Edit(r: Registration)
      requires !loading
      modifies this`formData
      ensures formData == r
    {
      formData := r;
    }

    /** A form that fails the ladder shows its error and makes no call;
        otherwise `loading` starts and the form is sent to `register`. */
    method BeginSubmit() returns (request: Option<Registration>, note: Option<Note>)
      requires !loading
      modifies this`loading
      ensures request.None? <==> Validate(formData).Some?
      ensures request.None? ==> note == Some(Note(Validate(formData).value, Error)) && !loading
      ensures request.Some? ==> request.value == formData && note == None && loading
    {
      if formData.username == "" || formData.email == "" || formData.password == "" {
        return None, Some(Notice("Please fill in all fields", Some(Error)));
      }
      if |formData.password| < 6 {
        return None, Some(Notice("Password must be at least 6 characters", Some(Error)));
      }
      loading := true;
      request, note := Some(formData), None;
    }

    /** The call's outcome: on success the success notification is shown
        and `onRegisterSuccess` runs; on failure only an error is shown. */
    method FinishSubmit(reply: Reply<()>) returns (note: Note, registered: bool)
      requires loading
      modifies this`loading
      ensures !loading && registered == reply.Resolved?
      ensures reply.Resolved? ==> note == Note("Registration successful! Please login.", Success)
      ensures reply.Rejected? ==> note == Note(FailureMessage(reply.detail), Error)
    {
      if reply.Resolved? {
        note := Notice("Registration successful! Please login.", None);
        registered := true;
      } else {
        note := Notice(FailureMessage(reply.detail), Some(Error));
        registered := false;
      }
      loading := false;
    }
  }
}
