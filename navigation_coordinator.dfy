/**
 * `NavigationCoordinator`: which top-level screen is shown, and the signed-in session, which is
 * kept in memory and mirrored under two keys of the user-defaults store so that a relaunch can
 * restore it.
 */
module Navigation {
  import opened Wrappers
  import opened Users

  datatype AppView = Onboarding | LoginScreen | SignUpScreen | Home | Profile

  /** The session token; only its expiry time is read by the coordinator. */
  datatype AuthToken = AuthToken(accessToken: string, expiresAt: int)

  /**
   * A value in the user-defaults store. JSON encoding is taken to be faithful, so an entry is
   * either what the coordinator wrote or data that does not decode.
   */
  datatype Stored = EncodedUser(user: User) | EncodedToken(token: AuthToken) | Unreadable

  type Store = map<string, Stored>

  const UserKey := "currentUser"
  const TokenKey := "authToken"

  function DecodeUser(s: Stored): Option<User> {
    if s.EncodedUser? then Some(s.user) else None
  }

  function DecodeToken(s: Stored): Option<AuthToken> {
    if s.EncodedToken? then Some(s.token) else None
  }

  /** `saveAuthenticationData`: both keys are overwritten. */
  function Saved(store: Store, user: User, token: AuthToken): Store {
    store[UserKey := EncodedUser(user)][TokenKey := EncodedToken(token)]
  }

  /** `clearAuthenticationData`: both keys are removed. */
  function Cleared(store: Store): Store {
    store - {UserKey, TokenKey}
  }

  /** The four ways `checkAuthenticationStatus` can end. */
  datatype Restored = Resumed(user: User, token: AuthToken) | Expired | Undecodable | Missing

  /** What a launch finds in the store at time `now`. */
  function Restore(store: Store, now: int): Restored {
    if UserKey !in store || TokenKey !in store then Missing
    else
      var user, token := DecodeUser(store[UserKey]), DecodeToken(store[TokenKey]);
      if user.None? || token.None? then Undecodable
      else if token.value.expiresAt > now then Resumed(user.value, token.value)
      else Expired
  }

  /** The screen a launch ends on. */
  function LaunchView(r: Restored): AppView {
    match r
    case Resumed(_, _) => Home
    case Expired => LoginScreen
    case Undecodable | Missing => Onboarding
  }

  /** The store a launch leaves behind: an expired session is removed, anything else is left alone. */
  function StoreAfterLaunch(store: Store, r: Restored): Store {
    if r.Expired? then Cleared(store) else store
  }

  // ---------------------------------------------------------------------------
  // What a launch makes of the store

  lemma RestoreCases(store: Store, now: int)
    ensures Restore(store, now).Resumed? <==>
      UserKey in store && TokenKey in store && store[UserKey].EncodedUser? && store[TokenKey].EncodedToken? &&
      store[TokenKey].token.expiresAt > now
    ensures Restore(store, now).Missing? <==> UserKey !in store || TokenKey !in store
    ensures Restore(store, now).Resumed? ==>
      store[UserKey] == EncodedUser(Restore(store, now).user) && store[TokenKey] == EncodedToken(Restore(store, now).token)
    ensures LaunchView(Restore(store, now)) == Home <==> Restore(store, now).Resumed?
  {
  }

  /** A session saved at login comes back on relaunch while its token is unexpired, and not after. */
  lemma {:induction false} LoginSurvivesRelaunch(store: Store, user: User, token: AuthToken, now: int)
    ensures token.expiresAt > now ==> Restore(Saved(store, user, token), now) == Resumed(user, token)
    ensures token.expiresAt <= now ==> Restore(Saved(store, user, token), now) == Expired
  {
    var s := Saved(store, user, token);
    assert UserKey != TokenKey;
    assert s[UserKey] == EncodedUser(user) && s[TokenKey] == EncodedToken(token);
  }

  /** After logout, or after a launch found the session expired, the next launch shows onboarding. */
  lemma {:induction false} ClearedStoreShowsOnboarding(store: Store, now: int)
    ensures Restore(Cleared(store), now) == Missing
    ensures Restore(StoreAfterLaunch(store, Restore(store, now)), now) != Expired
  {
    assert UserKey !in Cleared(store);
  }

  /** Saving and clearing only touch the two session keys. */
  lemma OtherKeysUntouched(store: Store, user: User, token: AuthToken, k: string)
    requires k != UserKey && k != TokenKey
    ensures k in Saved(store, user, token) <==> k in store
    ensures k in Cleared(store) <==> k in store
    ensures k in store ==> Saved(store, user, token)[k] == store[k] && Cleared(store)[k] == store[k]
  {
  }

  // ---------------------------------------------------------------------------
  // The coordinator

  class NavigationCoordinator {
    var currentView: AppView
    var isAuthenticated: bool
    var currentUser: Option<User>
    /** The stack of pushed destinations; nothing in the model pushes one, only the resets empty it. */
    var navigationPath: seq<string>
    var authToken: Option<AuthToken>
    /** `UserDefaults.standard`. */
    var store: Store

    /** While a token is held the coordinator is signed in, and the store mirrors the session. */
    predicate Valid()
      reads this
    {
      (isAuthenticated <==> authToken.Some?) &&
      (authToken.Some? ==>
        currentUser.Some? && UserKey in store && TokenKey in store &&
        store[UserKey] == EncodedUser(currentUser.value) && store[TokenKey] == EncodedToken(authToken.value))
    }

    /** `init`: starts signed out on the login screen, then runs `checkAuthenticationStatus` at time `now`. */
    constructor (initialStore: Store, now: int)
      ensures Valid()
      ensures var r := Restore(initialStore, now);
        currentView == LaunchView(r) && store == StoreAfterLaunch(initialStore, r) && navigationPath == [] &&
        (r.Resumed? ==> isAuthenticated && currentUser == Some(r.user) && authToken == Some(r.token)) &&
        (!r.Resumed? ==> !isAuthenticated && currentUser.None? && authToken.None?)
    {
      currentView := LoginScreen;
      isAuthenticated := false;
      currentUser := None;
      navigationPath := [];
      authToken := None;
      store := initialStore;
      new;
      CheckAuthenticationStatus(now);
    }

    /** `checkAuthenticationStatus`, from a signed-out state. */
    method CheckAuthenticationStatus(now: int)
      requires !isAuthenticated && currentUser.None? && authToken.None?
      modifies this`currentView, this`isAuthenticated, this`currentUser, this`authToken, this`store
      ensures Valid()
      ensures var r := Restore(old(store), now);
        currentView == LaunchView(r) && store == StoreAfterLaunch(old(store), r) &&
        (r.Resumed? ==> isAuthenticated && currentUser == Some(r.user) && authToken == Some(r.token)) &&
        (!r.Resumed? ==> !isAuthenticated && currentUser.None? && authToken.None?)
    {
      if UserKey in store && TokenKey in store {
        var user, token := DecodeUser(store[UserKey]), DecodeToken(store[TokenKey]);
        if user.Some? && token.Some? {
          if token.value.expiresAt > now {
            currentUser := user;
            authToken := token;
            isAuthenticated := true;
            currentView := Home;
          } else {
            ClearAuthenticationData();
            currentView := LoginScreen;
          }
        } else {
          currentView := Onboarding;
        }
      } else {
        currentView := Onboarding;
      }
    }

    method NavigateTo(view: AppView)
      modifies this`currentView
      ensures currentView == view
    {
      currentView := view;
    }

    /** Pops the whole stack and shows home. */
    method NavigateToHome()
      modifies this`navigationPath, this`currentView
      ensures navigationPath == [] && currentView == Home
    {
      navigationPath := navigationPath[|navigationPath|..];
      NavigateTo(Home);
    }

    /** Pops the whole stack and shows the login screen. */
    method NavigateToLogin()
      modifies this`navigationPath, this`currentView
      ensures navigationPath == [] && currentView == LoginScreen
    {
      navigationPath := navigationPath[|navigationPath|..];
      NavigateTo(LoginScreen);
    }

    /** Shows sign-up and keeps the stack. */
    method NavigateToSignUp()
      modifies this`currentView
      ensures currentView == SignUpScreen
    {
      NavigateTo(SignUpScreen);
    }

    /** Shows onboarding and keeps the stack. */
    method NavigateToOnboarding()
      modifies this`currentView
      ensures currentView == Onboarding
    {
      NavigateTo(Onboarding);
    }

    method Login(user: User, token: AuthToken)
      modifies this
      ensures Valid()
      ensures currentUser == Some(user) && authToken == Some(token) && isAuthenticated
      ensures store == Saved(old(store), user, token)
      ensures currentView == Home && navigationPath == []
    {
      currentUser := Some(user);
      authToken := Some(token);
      isAuthenticated := true;
      SaveAuthenticationData(user, token);
      NavigateToHome();
    }

    method Logout()
      modifies this
      ensures Valid()
      ensures currentUser.None? && authToken.None? && !isAuthenticated
      ensures store == Cleared(old(store))
      ensures currentView == LoginScreen && navigationPath == []
    {
      currentUser := None;
      authToken := None;
      isAuthenticated := false;
      ClearAuthenticationData();
      NavigateToLogin();
    }

    /** Replaces the user; the store is rewritten only while a token is held. */
    method UpdateUser(user: User)
      requires Valid()
      modifies this`currentUser, this`store
      ensures Valid()
      ensures currentUser == Some(user)
      ensures store == if authToken.Some? then Saved(old(store), user, authToken.value) else old(store)
    {
      currentUser := Some(user);
      if authToken.Some? {
        SaveAuthenticationData(user, authToken.value);
      }
    }

    method SaveAuthenticationData(user: User, token: AuthToken)
      modifies this`store
      ensures store == Saved(old(store), user, token)
    {
      store := store[UserKey := EncodedUser(user)];
      store := store[TokenKey := EncodedToken(token)];
    }

    method ClearAuthenticationData()
      modifies this`store
      ensures store == Cleared(old(store))
    {
      store := store - {UserKey};
      store := store - {TokenKey};
    }
  }
}
