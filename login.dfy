/** The login form (Login.jsx): the empty-field check, the login call and
    its outcome. */
module Login {
  import opened Common

  /** The arguments of `authService.login`. */
  datatype Credentials = Credentials(username: string, password: string)

  /** What a resolved login delivers; the application keeps only the
      username and email. */
  datatype LoginResponse = LoginResponse(token: string, username: string, email: string)

  /** The notification after the login call: "Login successful!", or the
      server's text, else "Invalid credentials". */
  function ReplyNotice(reply: Reply<LoginResponse>): (n: Note)
    ensures n.kind == Success <==> reply.Resolved?
    ensures reply.Resolved? ==> n.message == "Login successful!"
    ensures reply.Rejected? ==> n.message == OrElse(reply.detail, "Invalid credentials")
  {
    if reply.Resolved? then Notice("Login successful!", None)
    else Notice(OrElse(reply.detail, "Invalid credentials"), Some(Error))
  }

  /** The form's state; `loading` is true exactly while the login call is
      in flight, and the submit button is disabled while it is. */
  class LoginForm {
    var formData: Credentials
    var loading: bool

    constructor ()
      ensures formData == Credentials("", "") && !loading
    {
      formData := Credentials("", "");
      loading := false;
    }

    method Edit(c: Credentials)
      requires !loading
      modifies this`formData
      ensures formData == c
    {
      formData := c;
    }

    /** An empty username or password shows an error and makes no call;
        otherwise `loading` starts and the credentials are sent. */
    method BeginSubmit() returns (request: Option<Credentials>, note: Option<Note>)
      requires !loading
      modifies this`loading
      ensures request.None? <==> formData.username == "" || formData.password == ""
      ensures request.None? ==> note == Some(Note("Please fill in all fields", Error)) && !loading
      ensures request.Some? ==> request.value == formData && note == None && loading
    {
      if formData.username == "" || formData.password == "" {
        return None, Some(Notice("Please fill in all fields", Some(Error)));
      }
      loading := true;
      request, note := Some(formData), None;
    }

    /** The call's outcome: `onLoginSuccess` receives the response iff the
        call resolved; `loading` ends in both cases. */
    method FinishSubmit(reply: Reply<LoginResponse>) returns (note: Note, signedIn: Option<LoginResponse>)
      requires loading
      modifies this`loading
      ensures !loading && note == ReplyNotice(reply)
      ensures signedIn.Some? <==> reply.Resolved?
      ensures reply.Resolved? ==> signedIn == Some(reply.value)
    {
      note := ReplyNotice(reply);
      signedIn := if reply.Resolved? then Some(reply.value) else None;
      loading := false;
    }
  }
}
