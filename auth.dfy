/**
 * The session context of contexts/auth.context.tsx: the credential held in
 * memory, the `loading` flag, their mirror under the `@AuthData` key of the
 * device store, and the redirect rule of `useProtectedRoute`.
 *
 * Storage is a synchronous map; a failing storage call is a boolean
 * parameter.  JSON is abstract: a stored blob is either the serialization of
 * a credential or some other text.
 */
module Auth {
  import opened Wrappers
  import opened Js

  /** The single storage key the session is persisted under. */
  const AuthKey: string := "@AuthData"

  /** The credential record (`AuthData`). */
  datatype AuthData = AuthData(token: string, email: string, username: string)

  /** A stored string: `JSON.stringify` of a credential, or text that does not parse to one. */
  datatype Blob = Serialized(data: AuthData) | Text(raw: string)

  // ---------------------------------------------------------------------------
  // The session as a value, and what each operation does to it
  // ---------------------------------------------------------------------------

  datatype Session = Session(authData: Option<AuthData>, loading: bool, items: map<string, Blob>)

  /** A fresh `AuthProvider` over a device store: no credential, still loading. */
  function Launch(items: map<string, Blob>): (s: Session)
    ensures s.authData.None? && s.loading && s.items == items
  {
    Session(None, true, items)
  }

  /** `signIn`: hold `c` in memory, then persist it (unless the write fails). */
  function AfterSignIn(s: Session, c: AuthData, writeFails: bool): (t: Session)
    ensures t.authData == Some(c) && t.loading == s.loading
    ensures !writeFails ==> t.items == s.items[AuthKey := Serialized(c)]
    ensures writeFails ==> t.items == s.items
  {
    Session(Some(c), s.loading, if writeFails then s.items else s.items[AuthKey := Serialized(c)])
  }

  /** `signOut`: forget the credential, then remove it from storage (unless the removal fails). */
  function AfterSignOut(s: Session, removeFails: bool): (t: Session)
    ensures t.authData.None? && t.loading == s.loading
    ensures !removeFails ==> t.items == s.items - {AuthKey} && AuthKey !in t.items
    ensures removeFails ==> t.items == s.items
  {
    Session(None, s.loading, if removeFails then s.items else s.items - {AuthKey})
  }

  /**
   * `loadStorageData`: a stored blob replaces the credential only when it is
   * truthy and parses; the empty string is skipped by `if (authDataSerialized)`,
   * other text makes `JSON.parse` throw, and a failing read throws too; both
   * are swallowed by the `catch`.  `loading` ends false in every case.
   */
  function AfterLoad(s: Session, readFails: bool): (t: Session)
    ensures !t.loading && t.items == s.items
    ensures t.authData != s.authData ==>
              t.authData.Some? && !readFails && AuthKey in s.items && s.items[AuthKey] == Serialized(t.authData.value)
    ensures !readFails && AuthKey in s.items && s.items[AuthKey].Serialized? ==>
              t.authData == Some(s.items[AuthKey].data)
  {
    var restored :=
      if readFails || AuthKey !in s.items then s.authData
      else match s.items[AuthKey]
        case Serialized(c) => Some(c)
        case Text(raw) => s.authData;
    Session(restored, false, s.items)
  }

  /** A sign-in that was persisted survives a restart of the app. */
  lemma SignInSurvivesRestart(s: Session, c: AuthData)
    ensures AfterLoad(Launch(AfterSignIn(s, c, false).items), false).authData == Some(c)
  {
  }

  /** After a persisted sign-out a restart finds no credential, whatever the read does. */
  lemma SignOutSurvivesRestart(s: Session, readFails: bool)
    ensures AfterLoad(Launch(AfterSignOut(s, false).items), readFails).authData.None?
  {
  }

  /** A restart finds a credential only if one was stored under `@AuthData`. */
  lemma RestartRestoresOnlyStored(items: map<string, Blob>, readFails: bool)
    ensures var t := AfterLoad(Launch(items), readFails);
      t.authData.Some? ==> AuthKey in items && items[AuthKey] == Serialized(t.authData.value)
  {
  }

  // ---------------------------------------------------------------------------
  // The route guard (`useProtectedRoute`)
  // ---------------------------------------------------------------------------

  /** The two places the guard redirects to. */
  datatype Route = Login | Tabs

  function Path(r: Route): string {
    match r
    case Login => "/login"
    case Tabs => "/(tabs)/"
  }

  /** The router segments after `router.replace(Path(r))`: app/(auth)/login.tsx or app/(tabs)/index.tsx. */
  function SegmentsAt(r: Route): seq<string> {
    match r
    case Login => ["(auth)", "login"]
    case Tabs => ["(tabs)"]
  }

  /** `segments[0] === "(auth)"`; an empty list has `undefined` there. */
  predicate InAuthGroup(segments: seq<string>) {
    |segments| > 0 && segments[0] == "(auth)"
  }

  /** The effect body of lines 78-91: the route to replace the current one with, if any. */
  function Redirect(navigationReady: bool, loading: bool, signedIn: bool, segments: seq<string>): (r: Option<Route>)
    ensures !navigationReady || loading ==> r.None?
    ensures r == Some(Login) ==> !signedIn && !InAuthGroup(segments)
    ensures r == Some(Tabs) ==> signedIn && InAuthGroup(segments)
  {
    if !navigationReady then None
    else if loading then None
    else if !signedIn && !InAuthGroup(segments) then Some(Login)
    else if signedIn && InAuthGroup(segments) then Some(Tabs)
    else None
  }

  /** Nothing happens before navigation is ready or while the session is loading. */
  lemma RedirectWaits(navigationReady: bool, loading: bool, signedIn: bool, segments: seq<string>)
    requires !navigationReady || loading
    ensures Redirect(navigationReady, loading, signedIn, segments).None?
  {
  }

  /** Once ready and loaded, the guard redirects exactly when area and session disagree. */
  lemma RedirectWhenSettled(signedIn: bool, segments: seq<string>)
    ensures Redirect(true, false, signedIn, segments) == Some(Login) <==> !signedIn && !InAuthGroup(segments)
    ensures Redirect(true, false, signedIn, segments) == Some(Tabs) <==> signedIn && InAuthGroup(segments)
    ensures Redirect(true, false, signedIn, segments).None? <==> signedIn != InAuthGroup(segments)
  {
  }

  /** Following a redirect lands where the guard has nothing more to do. */
  lemma RedirectSettles(signedIn: bool, segments: seq<string>)
    requires Redirect(true, false, signedIn, segments).Some?
    ensures Redirect(true, false, signedIn,
                     SegmentsAt(Redirect(true, false, signedIn, segments).value)).None?
  {
  }

  // ---------------------------------------------------------------------------
  // The provider's state
  // ---------------------------------------------------------------------------

  /** The device's key-value store (`AsyncStorage`); it outlives any one provider. */
  class DeviceStore {
    var items: map<string, Blob>

    constructor (items: map<string, Blob>)
      ensures this.items == items
    {
      this.items := items;
    }
  }

  class AuthProvider {
    /** The credential in memory (`authData`). */
    var authData: Option<AuthData>
    var loading: bool
    const store: DeviceStore

    function State(): Session
      reads this, store
    {
      Session(authData, loading, store.items)
    }

    /** `useState<AuthData>()` and `useState(true)`. */
    constructor (store: DeviceStore)
      ensures this.store == store && State() == Launch(store.items)
    {
      this.store := store;
      authData := None;
      loading := true;
    }

    method SignIn(c: AuthData, writeFails: bool)
      modifies this, store
      ensures State() == AfterSignIn(old(State()), c, writeFails)
    {
      authData := Some(c);
      if !writeFails {
        store.items := store.items[AuthKey := Serialized(c)];
      }
    }

    method SignOut(removeFails: bool)
      modifies this, store
      ensures State() == AfterSignOut(old(State()), removeFails)
    {
      authData := None;
      if !removeFails {
        store.items := store.items - {AuthKey};
      }
    }

    method LoadStorageData(readFails: bool)
      modifies this
      ensures State() == AfterLoad(old(State()), readFails)
    {
      if !readFails && AuthKey in store.items {
        var serialized := store.items[AuthKey];
        match serialized
        case Serialized(c) =>
          authData := Some(c);
        case Text(raw) =>
          // "" is falsy and skipped; any other text throws in JSON.parse and is caught
      }
      loading := false;
    }

    /** The guard's effect on this provider's state: the path handed to `router.replace`, if any. */
    method ProtectedRoute(navigationReady: bool, segments: seq<string>) returns (replaced: Option<string>)
      ensures var r := Redirect(navigationReady, loading, authData.Some?, segments);
        replaced == if r.Some? then Some(Path(r.value)) else None
      ensures replaced == Some("/login") ==> authData.None? && !loading
      ensures replaced == Some("/(tabs)/") ==> authData.Some? && !loading
    {
      replaced := None;
      if !navigationReady {
        return;
      }
      var inAuthGroup := InAuthGroup(segments);
      if loading {
        return;
      }
      if authData.None? && !inAuthGroup {
        replaced := Some(Path(Login));
      } else if authData.Some? && inAuthGroup {
        replaced := Some(Path(Tabs));
      }
    }
  }

  /** Signing in, closing the app and launching it again restores the credential. */
  method SignInThenRelaunch(items: map<string, Blob>, c: AuthData) returns (restored: Option<AuthData>)
    ensures restored == Some(c)
  {
    var store := new DeviceStore(items);
    var first := new AuthProvider(store);
    first.LoadStorageData(false);
    first.SignIn(c, false);
    var second := new AuthProvider(store);
    second.LoadStorageData(false);
    restored := second.authData;
  }

  // ---------------------------------------------------------------------------
  // `useAuth`
  // ---------------------------------------------------------------------------

  /** What `useAuth` does with the value `useContext` hands it. */
  datatype UseAuthOutcome = Returned(context: JsValue) | Thrown(message: string)

  function UseAuth(context: JsValue): (r: UseAuthOutcome)
    ensures r.Thrown? <==> !Truthy(context)
    ensures r.Returned? ==> r.context == context
  {
    if !Truthy(context) then Thrown("useAuth must be used within an AuthProvider") else Returned(context)
  }

  /** `useContext`: the nearest provider's value, else the context's default. */
  function UseContext(provided: Option<JsValue>, defaultValue: JsValue): (r: JsValue)
    ensures provided.Some? ==> r == provided.value
    ensures provided.None? ==> r == defaultValue
  {
    provided.GetOr(defaultValue)
  }

  /** The value `AuthProvider` provides: an object holding `authData`, `loading` and the mutators. */
  function ProviderValue(authData: Option<AuthData>, loading: bool): (r: JsValue)
    ensures Truthy(r) && r.JsObject?
    ensures "loading" in r.props && r.props["loading"] == JsBool(loading)
    ensures "authData" in r.props && (Truthy(r.props["authData"]) <==> authData.Some?)
    ensures authData.Some? ==> (
      r.props["authData"].JsObject? &&
      var fields := r.props["authData"].props;
      "token" in fields && fields["token"] == JsString(authData.value.token) &&
      "email" in fields && fields["email"] == JsString(authData.value.email) &&
      "username" in fields && fields["username"] == JsString(authData.value.username))
  {
    JsObject(map["loading" := JsBool(loading), "authData" :=
      if authData.Some? then JsObject(map["token" := JsString(authData.value.token),
                                          "email" := JsString(authData.value.email),
                                          "username" := JsString(authData.value.username)])
      else JsUndefined])
  }

  /** `createContext<AuthContextData>({} as AuthContextData)`: the default is an empty object. */
  const DefaultAsWritten: JsValue := JsObject(map[])

  /** A context created with no usable default (`createContext<... | undefined>(undefined)`). */
  const DefaultCorrected: JsValue := JsUndefined

  /** As written, `useAuth` outside any provider returns `{}` instead of throwing. */
  lemma UseAuthOutsideProviderAsWritten()
    ensures UseAuth(UseContext(None, DefaultAsWritten)) == Returned(JsObject(map[]))
  {
  }

  /** With an `undefined` default, `useAuth` throws exactly when no provider is above it. */
  lemma UseAuthFailsFastOutsideProvider(provider: Option<(Option<AuthData>, bool)>)
    ensures var provided := if provider.Some? then Some(ProviderValue(provider.value.0, provider.value.1)) else None;
      UseAuth(UseContext(provided, DefaultCorrected)).Thrown? <==> provider.None?
  {
  }
}
