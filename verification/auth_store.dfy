/**
 * The client session store (frontend/store/authStore.ts): who is signed in, mirrored
 * into the browser's local storage under the keys 'token' and 'user'. Local storage is
 * a map from keys to strings; `encode` stands for `JSON.stringify` of a user. The
 * persistence middleware's own copy of the state and its rehydration are left out;
 * rehydration is only the trigger of `SetHydrated`.
 */
module AuthStore {
  import opened Wrappers
  import opened Types

  const TokenKey := "token"
  const UserKey := "user"

  datatype AuthState = AuthState(
    user: Option<User>,
    token: Option<string>,
    isAuthenticated: bool,
    isHydrated: bool)

  type Storage = map<string, string>

  datatype Session = Session(state: AuthState, storage: Storage)

  const InitialState := AuthState(None, None, false, false)

  function Start(storage: Storage): (s: Session)
    ensures s.state.user.None? && s.state.token.None?
    ensures !s.state.isAuthenticated && !s.state.isHydrated
    ensures s.storage == storage
  {
    Session(InitialState, storage)
  }

  /** `setAuth`: writes both storage keys, then records the user and token as signed in. */
  function SetAuth(s: Session, user: User, token: string, encode: User -> string): (r: Session)
    ensures r.state == s.state.(user := Some(user), token := Some(token), isAuthenticated := true)
    ensures r.storage.Keys == s.storage.Keys + {TokenKey, UserKey}
    ensures r.storage[TokenKey] == token && r.storage[UserKey] == encode(user)
    ensures forall k :: k in s.storage && k != TokenKey && k != UserKey ==> r.storage[k] == s.storage[k]
  {
    Session(
      s.state.(user := Some(user), token := Some(token), isAuthenticated := true),
      s.storage[TokenKey := token][UserKey := encode(user)])
  }

  /** `logout`: removes both storage keys and forgets the user and token. */
  function Logout(s: Session): (r: Session)
    ensures r.state == s.state.(user := None, token := None, isAuthenticated := false)
    ensures r.storage.Keys == s.storage.Keys - {TokenKey, UserKey}
    ensures forall k :: k in r.storage ==> r.storage[k] == s.storage[k]
  {
    Session(
      s.state.(user := None, token := None, isAuthenticated := false),
      s.storage - {TokenKey, UserKey})
  }

  function SetHydrated(s: Session): (r: Session)
    ensures r.state == s.state.(isHydrated := true) && r.storage == s.storage
  {
    s.(state := s.state.(isHydrated := true))
  }

  datatype Action = SignIn(user: User, token: string) | SignOut | Hydrated

  function Apply(s: Session, a: Action, encode: User -> string): Session {
    match a
    case SignIn(u, t) => SetAuth(s, u, t, encode)
    case SignOut => Logout(s)
    case Hydrated => SetHydrated(s)
  }

  function Replay(s: Session, actions: seq<Action>, encode: User -> string): Session
    decreases |actions|
  {
    if actions == [] then s else Replay(Apply(s, actions[0], encode), actions[1..], encode)
  }

  /**
   * The store agrees with itself and with storage: signed in exactly when a user and a
   * token are held, and then storage holds that token and that user.
   */
  predicate Consistent(s: Session, encode: User -> string) {
    && (s.state.isAuthenticated <==> s.state.user.Some?)
    && (s.state.isAuthenticated <==> s.state.token.Some?)
    && (s.state.token.Some? ==> TokenKey in s.storage && s.storage[TokenKey] == s.state.token.value)
    && (s.state.user.Some? ==> UserKey in s.storage && s.storage[UserKey] == encode(s.state.user.value))
  }

  // ---- Properties ----

  /** Every action keeps the store consistent; signing in and out leave `isHydrated` alone. */
  lemma ActionKeepsConsistent(s: Session, a: Action, encode: User -> string)
    requires Consistent(s, encode)
    ensures Consistent(Apply(s, a, encode), encode)
    ensures !a.Hydrated? ==> Apply(s, a, encode).state.isHydrated == s.state.isHydrated
    ensures a.Hydrated? ==> Apply(s, a, encode).state.isHydrated
  {
  }

  /** From a fresh start, with whatever storage the browser had, every run of actions keeps the store consistent. */
  lemma {:induction false} ReplayKeepsConsistent(s: Session, actions: seq<Action>, encode: User -> string)
    requires Consistent(s, encode)
    ensures Consistent(Replay(s, actions, encode), encode)
    decreases |actions|
  {
    if actions != [] {
      ActionKeepsConsistent(s, actions[0], encode);
      ReplayKeepsConsistent(Apply(s, actions[0], encode), actions[1..], encode);
    }
  }

  lemma StartIsConsistent(storage: Storage, encode: User -> string)
    ensures Consistent(Start(storage), encode)
  {
  }

  /**
   * Signing out undoes signing in: the state is the one before, signed out, and storage
   * is the one before without the two keys. Signing out twice is signing out once.
   */
  lemma LogoutUndoesSetAuth(s: Session, user: User, token: string, encode: User -> string)
    ensures Logout(SetAuth(s, user, token, encode)) == Logout(s)
    ensures Logout(Logout(s)) == Logout(s)
  {
    var a := Logout(SetAuth(s, user, token, encode)).storage;
    var b := Logout(s).storage;
    assert a.Keys == b.Keys;
    assert forall k :: k in a ==> a[k] == b[k];
  }
}
