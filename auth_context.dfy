/**
 * The session context (src/context/AuthContext.jsx): the signed-in user, mirrored under the
 * key "user" of the browser's key-value store so that it survives a reload.
 */
module AuthContext {
  import opened Wrappers
  import opened JsValues

  /** The browser's `localStorage`: keys to string values. */
  type Store = map<string, string>

  /** `JSON.stringify`, as far as the context uses it: the text stored for a user. */
  type Serialize = JsValue -> string

  const UserKey := "user"

  /**
   * The user a fresh provider starts with: the stored text parsed when it is present and not
   * empty, `null` otherwise; a stored text that does not parse makes `JSON.parse` throw.
   */
  function InitialUser(store: Store, parse: JsonParse): (r: Result<JsValue>)
    ensures UserKey !in store || store[UserKey] == "" ==> r == Success(Null)
    ensures UserKey in store && store[UserKey] != "" ==> r == parse(store[UserKey])
  {
    if UserKey in store && store[UserKey] != "" then parse(store[UserKey]) else Success(Null)
  }

  /**
   * Round trip: after a sign-in, a fresh provider over the same store starts with the same
   * user, for a user whose stored text is not empty and parses back to it.
   */
  lemma SigninSurvivesReload(store: Store, parse: JsonParse, serialize: Serialize, u: JsValue)
    requires serialize(u) != "" && parse(serialize(u)) == Success(u)
    ensures InitialUser(store[UserKey := serialize(u)], parse) == Success(u)
  {
  }

  /** After a sign-out, a fresh provider starts signed out, whatever else the store holds. */
  lemma SignoutSurvivesReload(store: Store, parse: JsonParse)
    ensures InitialUser(store - {UserKey}, parse) == Success(Null)
  {
  }

  /** The provider's state: the user and the store it mirrors the user into. */
  class AuthProvider {
    var user: JsValue
    var store: Store
    const parse: JsonParse
    const serialize: Serialize

    /** The user mirrored in the store, as a fresh provider would read it back. */
    predicate Mirrored()
      reads this
    {
      InitialUser(store, parse) == Success(user)
    }

    /** A provider mounted over `store`; it cannot be made when the stored text does not parse. */
    constructor(store0: Store, parse0: JsonParse, serialize0: Serialize)
      requires InitialUser(store0, parse0).Success?
      ensures user == InitialUser(store0, parse0).value && store == store0
      ensures parse == parse0 && serialize == serialize0
      ensures Mirrored()
    {
      user := InitialUser(store0, parse0).value;
      store := store0;
      parse := parse0;
      serialize := serialize0;
    }

    /** `signin(u)`: the user is set and its text stored under "user"; no other key changes. */
    method Signin(u: JsValue)
      modifies this
      ensures user == u && store == old(store)[UserKey := serialize(u)]
      ensures forall k :: k != UserKey ==> (k in store <==> k in old(store)) && (k in store ==> store[k] == old(store)[k])
      ensures serialize(u) != "" && parse(serialize(u)) == Success(u) ==> Mirrored()
    {
      user := u;
      store := store[UserKey := serialize(u)];
      if serialize(u) != "" && parse(serialize(u)) == Success(u) {
        SigninSurvivesReload(old(store), parse, serialize, u);
      }
    }

    /** `signout()`: the user becomes `null` and "user" is removed; no other key changes. */
    method Signout()
      modifies this
      ensures user == Null && store == old(store) - {UserKey}
      ensures forall k :: k != UserKey ==> (k in store <==> k in old(store)) && (k in store ==> store[k] == old(store)[k])
      ensures Mirrored()
    {
      user := Null;
      store := store - {UserKey};
      SignoutSurvivesReload(old(store), parse);
    }
  }

  /**
   * Signing in and then out leaves the provider as a fresh one over a store without "user"
   * would start: signed out, with every other key as it was.
   */
  method SigninThenSignout(auth: AuthProvider, u: JsValue)
    modifies auth
    ensures auth.user == Null && auth.store == old(auth.store) - {UserKey}
    ensures InitialUser(auth.store, auth.parse) == Success(auth.user)
  {
    auth.Signin(u);
    auth.Signout();
    assert auth.store == old(auth.store) - {UserKey};
  }
}
