/**
 * The sign-in and sign-up form (src/components/auth/AuthScreen.tsx). The
 * identity provider's answer is a parameter of the step that applies it.
 */
module Auth {
  import opened Types

  /** The call the form makes to the identity provider; a sign-up carries the name and role as user metadata. */
  datatype AuthRequest =
    | SignIn(email: string, password: string)
    | SignUp(email: string, password: string, name: string, role: Role)

  /** The provider's answer: an error with its message, or success, with or without a user. */
  datatype AuthReply = AuthFailed(message: string) | AuthOk(hasUser: bool)

  const FullNameRequired := "Full name is required."
  const RegistrationDone := "Registration successful! Please check your email to confirm your account."

  /** The form's state hooks. */
  class AuthScreen {
    var isLoginView: bool
    var email: string
    var password: string
    var fullName: string
    var role: Role
    var loading: bool
    var error: Option<string>
    var message: Option<string>

    constructor ()
      ensures isLoginView && email == "" && password == "" && fullName == ""
      ensures role == Patient
      ensures !loading && error == None && message == None
    {
      isLoginView, email, password, fullName := true, "", "", "";
      role := Patient;
      loading, error, message := false, None, None;
    }

    method EnterCredentials(email: string, password: string)
      modifies this`email, this`password
      ensures this.email == email && this.password == password
    {
      this.email, this.password := email, password;
    }

    method EnterFullName(name: string)
      modifies this`fullName
      ensures fullName == name
    {
      fullName := name;
    }

    method ChooseRole(r: Role)
      modifies this`role
      ensures role == r
    {
      role := r;
    }

    /**
     * The synchronous part of `handleAuthAction`: loading starts and the
     * error and message are cleared; then a sign-in is requested, or, for a
     * sign-up, either the missing full name is reported (loading ends, no
     * call) or the sign-up is requested with the name and role as metadata.
     */
    method BeginSubmit() returns (request: Option<AuthRequest>)
      modifies this`loading, this`error, this`message
      ensures message == None
      ensures isLoginView ==> request == Some(SignIn(email, password)) && loading && error == None
      ensures !isLoginView && fullName == "" ==> request == None && !loading && error == Some(FullNameRequired)
      ensures !isLoginView && fullName != "" ==>
        request == Some(SignUp(email, password, fullName, role)) && loading && error == None
    {
      loading := true;
      error := None;
      message := None;
      if isLoginView {
        request := Some(SignIn(email, password));
      } else {
        if fullName == "" {
          error := Some(FullNameRequired);
          loading := false;
          return None;
        }
        request := Some(SignUp(email, password, fullName, role));
      }
    }

    /**
     * The rest of `handleAuthAction`, once the provider has answered the
     * request: an error is shown with the provider's message; a sign-up that
     * created a user shows the confirmation message; loading ends.
     */
    method CompleteSubmit(request: AuthRequest, reply: AuthReply)
      modifies this`loading, this`error, this`message
      ensures reply.AuthFailed? ==> error == Some(reply.message) && message == old(message)
      ensures reply.AuthOk? ==> error == old(error)
      ensures reply.AuthOk? ==> message == if request.SignUp? && reply.hasUser then Some(RegistrationDone) else old(message)
      ensures !loading
    {
      match reply {
        case AuthFailed(msg) =>
          error := Some(msg);
        case AuthOk(hasUser) =>
          if request.SignUp? && hasUser {
            message := Some(RegistrationDone);
          }
      }
      loading := false;
    }

    /** A whole submit, from the click to the provider's answer. Loading has ended on every path. */
    method HandleAuthAction(reply: AuthReply) returns (request: Option<AuthRequest>)
      modifies this`loading, this`error, this`message
      ensures request == None <==> !isLoginView && fullName == ""
      ensures request == None ==> error == Some(FullNameRequired) && message == None
      ensures request.Some? && reply.AuthFailed? ==> error == Some(reply.message) && message == None
      ensures request.Some? && reply.AuthOk? ==> error == None
      ensures request.Some? && reply.AuthOk? ==>
        message == if request.value.SignUp? && reply.hasUser then Some(RegistrationDone) else None
      ensures !loading
    {
      request := BeginSubmit();
      if request.Some? {
        CompleteSubmit(request.value, reply);
      }
    }

    /** The link under the form: switches between sign-in and sign-up and clears the error, not the message. */
    method ToggleView()
      modifies this`isLoginView, this`error
      ensures isLoginView == !old(isLoginView)
      ensures error == None
    {
      isLoginView := !isLoginView;
      error := None;
    }
  }
}
