/** The login page: required-field checks, the call into the session's
    `loginUser`, the busy flag, and the two effects that turn a session error
    into the page's "Incorrect login details." message. */
module LoginPage {
  import opened Wrappers
  import Auth

  const UsernameKey: string := "usernameError"
  const PasswordKey: string := "passwordError"
  const AnonymousKey: string := "anonymousError"
  const UsernameMissing: string := "Please fill in your username"
  const PasswordMissing: string := "Please fill in your password"
  const IncorrectDetails: string := "Incorrect login details."

  /** The `errorMessage` object: error field to message. */
  type Errors = map<string, string>

  /** The object `validInputs` stores: one entry per empty field, and nothing
      else, so an earlier `anonymousError` is gone. */
  function InputErrors(username: string, password: string): (e: Errors)
    ensures UsernameKey in e <==> username == ""
    ensures PasswordKey in e <==> password == ""
    ensures UsernameKey in e ==> e[UsernameKey] == UsernameMissing
    ensures PasswordKey in e ==> e[PasswordKey] == PasswordMissing
    ensures AnonymousKey !in e
    ensures |e| == 0 <==> username != "" && password != ""
  {
    var u: Errors := if username == "" then map[UsernameKey := UsernameMissing] else map[];
    var p: Errors := if password == "" then map[PasswordKey := PasswordMissing] else map[];
    assert u.Keys !! p.Keys;
    u + p
  }

  /** The arguments handed to `loginUser`. */
  datatype Credentials = Credentials(username: string, password: string)

  class Page {
    var username: string
    var password: string
    var loading: bool
    var errorMessage: Errors

    constructor ()
      ensures username == "" && password == "" && !loading && errorMessage == map[]
    {
      username, password := "", "";
      loading := false;
      errorMessage := map[];
    }

    method SetUsername(u: string)
      modifies this`username
      ensures username == u
    {
      username := u;
    }

    method SetPassword(p: string)
      modifies this`password
      ensures password == p
    {
      password := p;
    }

    /** `validInputs`: builds the error object field by field, stores it whole,
      and answers whether it is empty. */
    method ValidInputs() returns (ok: bool)
      modifies this`errorMessage
      ensures errorMessage == InputErrors(username, password)
      ensures ok <==> username != "" && password != ""
    {
      var newError: Errors := map[];
      if username == "" {
        newError := newError[UsernameKey := UsernameMissing];
      }
      if password == "" {
        newError := newError[PasswordKey := PasswordMissing];
      }
      assert newError == InputErrors(username, password) by {
        assert newError.Keys == InputErrors(username, password).Keys;
      }
      errorMessage := newError;
      ok := |newError| == 0;
    }

    /** `login` up to the call: `loginUser` is called, with the fields as
      typed, only when the inputs are valid, and `loading` is raised first. */
    method Submit() returns (call: Option<Credentials>)
      modifies this`errorMessage, this`loading
      ensures errorMessage == InputErrors(username, password)
      ensures call.Some? <==> username != "" && password != ""
      ensures call.Some? ==> call.value == Credentials(username, password) && loading
      ensures call.None? ==> loading == old(loading)
    {
      var ok := ValidInputs();
      if ok {
        loading := true;
        call := Some(Credentials(username, password));
      } else {
        call := None;
      }
    }

    /** The `finally` of the login promise, on success and failure alike. */
    method LoginSettled()
      modifies this`loading
      ensures !loading
    {
      loading := false;
    }

    /** The effect on `userError`: a non-empty error adds the anonymous
      message and keeps the field errors. */
    method UserErrorChanged(userError: string)
      modifies this`errorMessage
      ensures userError != "" ==> errorMessage == old(errorMessage)[AnonymousKey := IncorrectDetails]
      ensures userError == "" ==> errorMessage == old(errorMessage)
    {
      if userError != "" {
        errorMessage := errorMessage[AnonymousKey := IncorrectDetails];
      }
    }

    /** The effect on `errorMessage.anonymousError`: once it is shown, the
      session's `userError` is reset to "". */
    method AnonymousErrorChanged(session: Auth.Session)
      requires session.Valid()
      modifies session`userError
      ensures session.Valid()
      ensures AnonymousKey in errorMessage && errorMessage[AnonymousKey] != "" ==>
                session.State() == old(session.State()).(userError := "")
      ensures !(AnonymousKey in errorMessage && errorMessage[AnonymousKey] != "") ==>
                session.State() == old(session.State())
    {
      if AnonymousKey in errorMessage && errorMessage[AnonymousKey] != "" {
        session.SetUserError("");
      }
    }
  }
}
