/** The sign-up form of src/screens/auth/SignupScreen.tsx: field edits, the
    password-strength flags and the submit handler with its ordered checks. */
module Signup {
  import opened Strings
  import opened Options
  import opened Api
  import opened Json
  import opened Storage
  import opened Effects

  const FillAllFields: string := "Please fill in all fields"
  const PasswordsDiffer: string := "Passwords do not match"
  const WeakPassword: string := "Password does not meet requirements"
  const SignupFailed: string := "Signup failed. Please try again."

  datatype Field = FirstName | LastName | Email | Password | ConfirmPassword

  datatype PasswordStrength = PasswordStrength(hasLength: bool, hasUppercase: bool, hasNumber: bool)

  /** `/[A-Z]/.test(s)` */
  function ContainsUpper(s: string): (r: bool)
    ensures r <==> exists i :: 0 <= i < |s| && IsUpper(s[i])
  {
    if s == [] then false
    else if IsUpper(s[0]) then true
    else
      var r := ContainsUpper(s[1..]);
      assert forall i :: 1 <= i < |s| ==> s[i] == s[1..][i - 1];
      r
  }

  /** `/[0-9]/.test(s)` */
  function ContainsDigit(s: string): (r: bool)
    ensures r <==> exists i :: 0 <= i < |s| && IsDigit(s[i])
  {
    if s == [] then false
    else if IsDigit(s[0]) then true
    else
      var r := ContainsDigit(s[1..]);
      assert forall i :: 1 <= i < |s| ==> s[i] == s[1..][i - 1];
      r
  }

  /** `passwordStrength`: at least eight characters, an upper-case letter, a digit. */
  function Strength(password: string): (r: PasswordStrength)
    ensures r.hasLength <==> |password| >= 8
    ensures r.hasUppercase <==> exists i :: 0 <= i < |password| && IsUpper(password[i])
    ensures r.hasNumber <==> exists i :: 0 <= i < |password| && IsDigit(password[i])
  {
    PasswordStrength(|password| >= 8, ContainsUpper(password), ContainsDigit(password))
  }

  predicate IsStrong(password: string)
  {
    var st := Strength(password);
    st.hasLength && st.hasUppercase && st.hasNumber
  }

  predicate AllFilled(f: SignupData)
  {
    f.firstName != "" && f.lastName != "" && f.email != "" && f.password != ""
  }

  /** The message `handleSubmit` shows before any call, or None when the form
      passes. The checks run in order, so the first failing one decides. */
  function ValidationError(f: SignupData): (r: Option<string>)
    ensures r == Some(FillAllFields) <==> !AllFilled(f)
    ensures r == Some(PasswordsDiffer) <==> AllFilled(f) && f.password != f.confirmPassword
    ensures r == Some(WeakPassword) <==>
      AllFilled(f) && f.password == f.confirmPassword && !IsStrong(f.password)
    ensures r == None <==> AllFilled(f) && f.password == f.confirmPassword && IsStrong(f.password)
  {
    if !AllFilled(f) then Some(FillAllFields)
    else if f.password != f.confirmPassword then Some(PasswordsDiffer)
    else if !IsStrong(f.password) then Some(WeakPassword)
    else None
  }

  /** `{...formData, [field]: value}` */
  function WithField(f: SignupData, field: Field, value: string): (r: SignupData)
    ensures field == FirstName ==> r == f.(firstName := value)
    ensures field == LastName ==> r == f.(lastName := value)
    ensures field == Email ==> r == f.(email := value)
    ensures field == Password ==> r == f.(password := value)
    ensures field == ConfirmPassword ==> r == f.(confirmPassword := value)
  {
    match field
    case FirstName => f.(firstName := value)
    case LastName => f.(lastName := value)
    case Email => f.(email := value)
    case Password => f.(password := value)
    case ConfirmPassword => f.(confirmPassword := value)
  }

  /** The message shown for a rejected call: the error's message, or the default. */
  function FailureMessage(message: string): (r: string)
    ensures r != ""
    ensures message != "" ==> r == message
  {
    if message != "" then message else SignupFailed
  }

  class SignupScreen {
    var formData: SignupData
    var loading: bool
    var error: string
    ghost var effects: seq<Effect>

    constructor ()
      ensures formData == SignupData("", "", "", "", "")
      ensures !loading && error == "" && effects == []
    {
      formData := SignupData("", "", "", "", "");
      loading := false;
      error := "";
      effects := [];
    }

    /** `handleChange(field, value)`: one field changes and the error is cleared. */
    method HandleChange(field: Field, value: string)
      modifies this`formData, this`error
      ensures formData == WithField(old(formData), field, value)
      ensures error == ""
    {
      formData := WithField(formData, field, value);
      error := "";
    }

    /** `handleSubmit`. The checks run first; the call and what follows it
        are `Submit`. */
    method HandleSubmit(store: Store, failure: Option<string>, hasUpdateAuthState: bool)
      modifies this`loading, this`error, this`effects, store
      requires store.Valid()
      ensures store.Valid() && formData == old(formData)
      ensures ValidationError(formData).Some? ==>
        && error == ValidationError(formData).value
        && loading == old(loading)
        && effects == old(effects)
        && store.items == old(store.items)
      ensures ValidationError(formData).None? ==> Submitted(store, failure, hasUpdateAuthState, old(effects), old(store.items))
    {
      var invalid := ValidationError(formData);
      if invalid.Some? {
        error := invalid.value;
        return;
      }
      Submit(store, failure, hasUpdateAuthState);
    }

    /** The state `Submit` leaves: on success the call, the token and the
        user were recorded in that order and both entries are stored, then
        the auth state is set when `updateAuthState` was passed; on a
        rejection only the call happened and the message shows. */
    ghost predicate Submitted(store: Store, failure: Option<string>, hasUpdateAuthState: bool,
                              before: seq<Effect>, items: map<string, string>)
      reads this, store
    {
      var response := Api.Signup(formData);
      && !loading
      && (failure.None? ==>
            && error == ""
            && effects == before + [SignupCalled(formData), TokenStored(response.token), UserStored(response.user)]
                                 + (if hasUpdateAuthState then [AuthStateSet(true)] else [])
            && store.items == items[AuthTokenKey := response.token][UserDataKey := EncodeUser(response.user)])
      && (failure.Some? ==>
            && error == FailureMessage(failure.value)
            && effects == before + [SignupCalled(formData)]
            && store.items == items)
    }

    /** The part of `handleSubmit` after the checks: `loading` is set, the
        error cleared and `authAPI.signup` called with the form. The mock
        service resolves unless `failure` holds the message of a rejection;
        a rejection happens before anything is stored. `updateAuthState` is
        optional and called through `?.`: `hasUpdateAuthState` says whether
        it was passed. */
    method Submit(store: Store, failure: Option<string>, hasUpdateAuthState: bool)
      modifies this`loading, this`error, this`effects, store
      requires store.Valid()
      ensures store.Valid() && formData == old(formData)
      ensures Submitted(store, failure, hasUpdateAuthState, old(effects), old(store.items))
    {
      loading := true;
      error := "";
      effects := effects + [SignupCalled(formData)];
      if failure.Some? {
        error := FailureMessage(failure.value);
        loading := false;
        return;
      }
      var response := Api.Signup(formData);
      store.SetAuthToken(response.token);
      store.SetUserData(response.user);
      effects := effects + [TokenStored(response.token), UserStored(response.user)];
      if hasUpdateAuthState {
        effects := effects + [AuthStateSet(true)];
      }
      loading := false;
    }
  }

  /** After a successful sign-up the store yields the new session: the mock
      token, and the user with the form's names and email. */
  lemma SignupStoresSession(items: map<string, string>, data: SignupData)
    ensures var response := Api.Signup(data);
      var after := items[AuthTokenKey := response.token][UserDataKey := EncodeUser(response.user)];
      && AuthTokenIn(after) == Some(MockToken)
      && UserDataIn(after) == Some(User("1", data.firstName, data.lastName, data.email, None))
  {
    var response := Api.Signup(data);
    UserDataRoundTrip(items[AuthTokenKey := response.token], response.user);
  }
}
