/**
 * The login/register form of components/LoginPage.tsx.
 *
 * The form keeps which mode it is in, the three input values, an error
 * message and a loading flag.  A submit checks for empty fields, then calls
 * the credential store; a store rejection or a failed check becomes the
 * shown error.  The awaited store call is one synchronous step, and the
 * `onLoginSuccess` callback is the value the submit returns.
 */
module LoginPage {
  import opened Wrappers
  import opened AuthService

  /** The `name` attributes of the three inputs. */
  datatype Field = Username | Email | Password

  /** `formData`. */
  datatype FormData = FormData(username: string, email: string, password: string) {

    function Get(name: Field): string {
      match name
      case Username => username
      case Email => email
      case Password => password
    }

    /** `{ ...formData, [name]: value }`: the named field takes the value, the others keep theirs. */
    function With(name: Field, value: string): (r: FormData)
      ensures r.Get(name) == value
      ensures forall other :: other != name ==> r.Get(other) == Get(other)
    {
      match name
      case Username => this.(username := value)
      case Email => this.(email := value)
      case Password => this.(password := value)
    }
  }

  /** The `source` argument of `onLoginSuccess`: `'login'` or `'register'`. */
  datatype Source = FromLogin | FromRegister

  /** A call of `onLoginSuccess(user, source)`. */
  datatype LoginSuccess = LoginSuccess(user: User, source: Source)

  const LoginFieldsMissing := "Por favor, preencha o e-mail e a senha."
  const RegisterFieldsMissing := "Por favor, preencha todos os campos."
  const GenericError := "Ocorreu um erro."

  /**
   * The check a submit makes before calling the store: in login mode the
   * email and the password must be non-empty (the username is not looked
   * at), in register mode all three.
   */
  function MissingFields(isLoginView: bool, form: FormData): (m: Option<string>)
    ensures isLoginView ==> (m.Some? <==> form.email == "" || form.password == "")
    ensures !isLoginView ==> (m.Some? <==> form.username == "" || form.email == "" || form.password == "")
    ensures m.Some? ==> m.value == if isLoginView then LoginFieldsMissing else RegisterFieldsMissing
  {
    if isLoginView then
      if form.email == "" || form.password == "" then Some(LoginFieldsMissing) else None
    else
      if form.username == "" || form.email == "" || form.password == "" then Some(RegisterFieldsMissing) else None
  }

  /** `err.message || 'Ocorreu um erro.'`: the message, or a generic one when it is empty. */
  function DisplayedError(message: string): (shown: string)
    ensures shown != ""
    ensures message != "" ==> shown == message
    ensures message == "" ==> shown == GenericError
  {
    if message != "" then message else GenericError
  }

  /**
   * What a submit of the form ends in, given the mode, the form data and the
   * store before it: the reported success (exactly when no error is shown),
   * the error shown, and the store's records and session slot after it.
   */
  ghost predicate SubmitOutcome(isLoginView: bool, form: FormData,
                                users: seq<UserRec>, session: Slot,
                                success: Option<LoginSuccess>, error: Option<string>,
                                newUsers: seq<UserRec>, newSession: Slot)
  {
    (success.Some? <==> error == None) &&
    (MissingFields(isLoginView, form).Some? ==>
       success == None && error == MissingFields(isLoginView, form) &&
       newUsers == users && newSession == session) &&
    (MissingFields(isLoginView, form).None? && isLoginView ==>
       var m := FirstCredentialMatch(users, form.email, form.password);
       newUsers == users &&
       (m.None? ==> success == None && error == Some(Message(InvalidCredentials)) &&
                    newSession == session) &&
       (m.Some? ==> success == Some(LoginSuccess(SessionOf(users[m.value]), FromLogin)) &&
                    newSession == Valid(success.value.user))) &&
    (MissingFields(isLoginView, form).None? && !isLoginView ==>
       (HasEmail(users, form.email) ==>
          success == None && error == Some(Message(DuplicateEmail)) &&
          newUsers == users && newSession == session) &&
       (!HasEmail(users, form.email) ==>
          success == Some(LoginSuccess(User(form.username, form.email), FromRegister)) &&
          newUsers == users + [UserRec(form.username, form.email, form.password)] &&
          newSession == Valid(success.value.user)))
  }

  class LoginPageState {
    var isLoginView: bool
    var formData: FormData
    var error: Option<string>
    var isLoading: bool

    /** Login mode, all fields empty, no error, not loading. */
    constructor ()
      ensures isLoginView && formData == FormData("", "", "") && error == None && !isLoading
    {
      isLoginView := true;
      formData := FormData("", "", "");
      error := None;
      isLoading := false;
    }

    /** `handleChange`: only the field the input names changes. */
    method HandleChange(name: Field, value: string)
      modifies this`formData
      ensures formData == old(formData).With(name, value)
    {
      formData := formData.With(name, value);
    }

    /** The mode toggle: flips the mode and clears the error; the form data stays. */
    method Toggle()
      modifies this`isLoginView, this`error
      ensures isLoginView == !old(isLoginView) && error == None
    {
      isLoginView := !isLoginView;
      error := None;
    }

    /**
     * `handleSubmit`.  The error is cleared and loading set first; a
     * failed field check shows its message and never reaches the store;
     * otherwise the store's `login` or `register` runs and either its
     * session user is reported with the mode as source, or its rejection
     * message is shown.  Loading always ends false.
     */
    method HandleSubmit(store: AuthStore) returns (success: Option<LoginSuccess>)
      modifies this`error, this`isLoading, store
      ensures !isLoading
      ensures SubmitOutcome(isLoginView, formData, old(store.users), old(store.session),
                            success, error, store.users, store.session)
      ensures old(EmailsDistinct(store.users)) ==> EmailsDistinct(store.users)
    {
      error := None;
      isLoading := true;
      success := None;
      var thrown: Option<string> := MissingFields(isLoginView, formData);
      if thrown.None? {
        var r: Result<User, AuthError>;
        var source: Source;
        if isLoginView {
          r := store.Login(formData.email, formData.password);
          source := FromLogin;
        } else {
          r := store.Register(formData.username, formData.email, formData.password);
          source := FromRegister;
        }
        match r
        case Ok(user) => success := Some(LoginSuccess(user, source));
        case Err(e) => thrown := Some(Message(e));
      }
      if thrown.Some? {
        error := Some(DisplayedError(thrown.value));
      }
      isLoading := false;
    }
  }
}
