/** The sign-in form of src/screens/auth/LoginScreen.tsx. */
module Login {
  import opened Options
  import opened Api
  import opened Json
  import opened Storage
  import opened Effects

  const FillAllFields: string := "Please fill in all fields"
  const LoginFailed: string := "Login failed. Please try again."

  datatype Field = Email | Password

  /** `{...formData, [field]: value}` */
  function WithField(f: LoginCredentials, field: Field, value: string): (r: LoginCredentials)
    ensures field == Email ==> r == f.(email := value)
    ensures field == Password ==> r == f.(password := value)
  {
    match field
    case Email => f.(email := value)
    case Password => f.(password := value)
  }

  /** The message shown for a rejected call: the error's message, or the default. */
  function FailureMessage(message: string): (r: string)
    ensures r != ""
    ensures message != "" ==> r == message
  {
    if message != "" then message else LoginFailed
  }

  class LoginScreen {
    var formData: LoginCredentials
    var loading: bool
    var error: string
    ghost var effects: seq<Effect>

    constructor ()
      ensures formData == LoginCredentials("", "")
      ensures !loading && error == "" && effects == []
    {
      formData := LoginCredentials("", "");
      loading := false;
      error := "";
      effects := [];
    }

    /** `handleChange(field, value)`: one field changes and the error is cleared. */
    method HandleChange(field: Field, value: string)
      modifies this`formData, this`error
      ensures formData == WithField(old(formData), field, value)
      ensures error == ""
    {
      formData := WithField(formData, field, value);
      error := "";
    }

    /** `handleSubmit`. The mock service resolves unless `failure` holds the
        message of a rejection; `hasUpdateAuthState` says whether the
        optional `updateAuthState` prop was passed, since `?.` calls it only
        then. */
    method HandleSubmit(store: Store, failure: Option<string>, hasUpdateAuthState: bool)
      modifies this`loading, this`error, this`effects, store
      requires store.Valid()
      ensures store.Valid() && formData == old(formData)
      ensures formData.email == "" || formData.password == "" ==>
        && error == FillAllFields
        && loading == old(loading)
        && effects == old(effects)
        && store.items == old(store.items)
      ensures formData.email != "" && formData.password != "" && failure.None? ==>
        var response := Api.Login(formData);
        && error == "" && !loading
        && effects == old(effects) + [LoginCalled(formData), TokenStored(response.token), UserStored(response.user)]
                                   + (if hasUpdateAuthState then [AuthStateSet(true)] else [])
        && store.items == old(store.items)[AuthTokenKey := response.token][UserDataKey := EncodeUser(response.user)]
      ensures formData.email != "" && formData.password != "" && failure.Some? ==>
        && error == FailureMessage(failure.value) && !loading
        && effects == old(effects) + [LoginCalled(formData)]
        && store.items == old(store.items)
    {
      if formData.email == "" || formData.password == "" {
        error := FillAllFields;
        return;
      }
      loading := true;
      error := "";
      effects := effects + [LoginCalled(formData)];
      if failure.Some? {
        error := FailureMessage(failure.value);
        loading := false;
        return;
      }
      var response := Api.Login(formData);
      store.SetAuthToken(response.token);
      store.SetUserData(response.user);
      effects := effects + [TokenStored(response.token), UserStored(response.user)];
      if hasUpdateAuthState {
        effects := effects + [AuthStateSet(true)];
      }
      loading := false;
    }
  }

  /** After a successful sign-in the store yields the mock token and the
      fixture user carrying the email that was typed. */
  lemma LoginStoresSession(items: map<string, string>, credentials: LoginCredentials)
    ensures var response := Api.Login(credentials);
      var after := items[AuthTokenKey := response.token][UserDataKey := EncodeUser(response.user)];
      && AuthTokenIn(after) == Some(MockToken)
      && UserDataIn(after) == Some(User("1", "John", "Doe", credentials.email, None))
  {
    var response := Api.Login(credentials);
    UserDataRoundTrip(items[AuthTokenKey := response.token], response.user);
  }
}
