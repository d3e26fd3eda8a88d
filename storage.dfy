/** The storage shim of src/services/storage.ts over the platform key-value
    store (AsyncStorage), which is modelled as a map from keys to strings.
    The shim manages three fixed keys; values go through `JSON.stringify` /
    `JSON.parse` where the source does. */
module Storage {
  import opened Options
  import opened Api
  import opened Json

  const AuthTokenKey: string := "@quickbank:auth_token"
  const UserDataKey: string := "@quickbank:user_data"
  const RememberMeKey: string := "@quickbank:remember_me"

  /** The keys `clearAll` removes. */
  function ManagedKeys(): (keys: set<string>)
    ensures |keys| == 3
  {
    {AuthTokenKey, UserDataKey, RememberMeKey}
  }

  /** A store is well formed when the user and remember-me entries hold text
      that `JSON.stringify` produced for a user and a boolean. */
  ghost predicate WellFormed(items: map<string, string>)
  {
    && (UserDataKey in items ==> DecodeUser(items[UserDataKey]).Some?)
    && (RememberMeKey in items ==> DecodeBool(items[RememberMeKey]).Some?)
  }

  /** What `getAuthToken` resolves with: the stored text, or null. */
  function AuthTokenIn(items: map<string, string>): Option<string>
  {
    if AuthTokenKey in items then Some(items[AuthTokenKey]) else None
  }

  /** What `getUserData` resolves with: null for a missing (or empty) entry,
      otherwise the parsed user. */
  function UserDataIn(items: map<string, string>): Option<User>
  {
    if UserDataKey !in items || items[UserDataKey] == "" then None
    else DecodeUser(items[UserDataKey])
  }

  /** What `getRememberMe` resolves with: false for a missing entry,
      otherwise the parsed boolean. */
  function RememberMeIn(items: map<string, string>): bool
  {
    if RememberMeKey !in items || items[RememberMeKey] == "" then false
    else match DecodeBool(items[RememberMeKey])
      case Some(b) => b
      case None => false
  }

  class Store {
    /** The AsyncStorage contents, all keys included. */
    var items: map<string, string>

    ghost predicate Valid()
      reads this
    {
      WellFormed(items)
    }

    constructor (initial: map<string, string>)
      requires WellFormed(initial)
      ensures Valid() && items == initial
    {
      items := initial;
    }

    method SetAuthToken(token: string)
      modifies this
      requires Valid()
      ensures Valid()
      ensures items == old(items)[AuthTokenKey := token]
    {
      items := items[AuthTokenKey := token];
    }

    method GetAuthToken() returns (token: Option<string>)
      ensures token == AuthTokenIn(items)
    {
      token := if AuthTokenKey in items then Some(items[AuthTokenKey]) else None;
    }

    method RemoveAuthToken()
      modifies this
      requires Valid()
      ensures Valid()
      ensures items == old(items) - {AuthTokenKey}
    {
      items := items - {AuthTokenKey};
    }

    method SetUserData(user: User)
      modifies this
      requires Valid()
      ensures Valid()
      ensures items == old(items)[UserDataKey := EncodeUser(user)]
    {
      DecodeEncodedUser(user);
      items := items[UserDataKey := EncodeUser(user)];
    }

    method GetUserData() returns (user: Option<User>)
      requires Valid()
      ensures user == UserDataIn(items)
      ensures user.None? <==> UserDataKey !in items
    {
      if UserDataKey in items && items[UserDataKey] != "" {
        user := DecodeUser(items[UserDataKey]);
      } else {
        user := None;
      }
    }

    method RemoveUserData()
      modifies this
      requires Valid()
      ensures Valid()
      ensures items == old(items) - {UserDataKey}
    {
      items := items - {UserDataKey};
    }

    method SetRememberMe(value: bool)
      modifies this
      requires Valid()
      ensures Valid()
      ensures items == old(items)[RememberMeKey := EncodeBool(value)]
    {
      items := items[RememberMeKey := EncodeBool(value)];
    }

    method GetRememberMe() returns (value: bool)
      requires Valid()
      ensures value == RememberMeIn(items)
      ensures RememberMeKey in items ==> Some(value) == DecodeBool(items[RememberMeKey])
    {
      if RememberMeKey in items && items[RememberMeKey] != "" {
        value := DecodeBool(items[RememberMeKey]).value;
      } else {
        value := false;
      }
    }

    /** `clearAll`: one `multiRemove` of the three managed keys. */
    method ClearAll()
      modifies this
      requires Valid()
      ensures Valid()
      ensures items == old(items) - ManagedKeys()
    {
      items := items - ManagedKeys();
    }
  }

  /** The three keys are distinct, so a write to one leaves the others' reads alone. */
  lemma WritesAreIndependent(items: map<string, string>, token: string, user: User, value: bool)
    ensures UserDataIn(items[AuthTokenKey := token]) == UserDataIn(items)
    ensures RememberMeIn(items[AuthTokenKey := token]) == RememberMeIn(items)
    ensures AuthTokenIn(items[UserDataKey := EncodeUser(user)]) == AuthTokenIn(items)
    ensures RememberMeIn(items[UserDataKey := EncodeUser(user)]) == RememberMeIn(items)
    ensures AuthTokenIn(items[RememberMeKey := EncodeBool(value)]) == AuthTokenIn(items)
    ensures UserDataIn(items[RememberMeKey := EncodeBool(value)]) == UserDataIn(items)
    ensures UserDataIn(items - {AuthTokenKey}) == UserDataIn(items)
    ensures AuthTokenIn(items - {UserDataKey}) == AuthTokenIn(items)
  {
    assert AuthTokenKey != UserDataKey && AuthTokenKey != RememberMeKey && UserDataKey != RememberMeKey;
  }

  /** `setAuthToken(t)` then `getAuthToken()` gives `t`; after `removeAuthToken` it gives null. */
  lemma AuthTokenRoundTrip(items: map<string, string>, token: string)
    ensures AuthTokenIn(items[AuthTokenKey := token]) == Some(token)
    ensures AuthTokenIn(items - {AuthTokenKey}) == None
  {
  }

  /** `setUserData(u)` then `getUserData()` gives `u`; a missing entry gives null. */
  lemma UserDataRoundTrip(items: map<string, string>, user: User)
    ensures UserDataIn(items[UserDataKey := EncodeUser(user)]) == Some(user)
    ensures UserDataIn(items - {UserDataKey}) == None
  {
    DecodeEncodedUser(user);
  }

  /** `setRememberMe(v)` then `getRememberMe()` gives `v`; a missing entry gives false. */
  lemma RememberMeRoundTrip(items: map<string, string>, value: bool)
    ensures RememberMeIn(items[RememberMeKey := EncodeBool(value)]) == value
    ensures RememberMeIn(items - {RememberMeKey}) == false
  {
    DecodeEncodedBool(value);
  }

  /** After `clearAll` every read gives its absent value, and no other key changed. */
  lemma ClearAllResets(items: map<string, string>)
    ensures AuthTokenIn(items - ManagedKeys()) == None
    ensures UserDataIn(items - ManagedKeys()) == None
    ensures RememberMeIn(items - ManagedKeys()) == false
    ensures forall k :: k in items && k !in ManagedKeys() ==> k in items - ManagedKeys() && (items - ManagedKeys())[k] == items[k]
  {
  }
}
