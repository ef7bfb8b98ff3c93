/**
 * `HomeViewModel`: the signed-in user and their stats on the home screen, the two-step logout
 * (ask, then confirm or cancel), and its subscriptions to the authentication and user services.
 * The services enter as the values their publishers deliver and the outcomes their calls return.
 */
module HomeScreen {
  import opened Wrappers
  import opened Users

  /** The four progress figures; the backend has no stats endpoint, so only defaults are ever shown. */
  datatype Stats = Stats(streakDays: int, totalLessonsCompleted: int, currentLevel: string, xpPoints: int)

  const DefaultStats := Stats(0, 0, "Beginner", 0)

  class HomeViewModel {
    var currentUser: Option<User>
    var isLoading: bool
    var errorMessage: string
    var showLogoutConfirmation: bool
    var isLoggedOut: bool
    var streakDays: int
    var totalLessonsCompleted: int
    var currentLevel: string
    var xpPoints: int

    function CurrentStats(): Stats
      reads this
    {
      Stats(streakDays, totalLessonsCompleted, currentLevel, xpPoints)
    }

    /**
     * `init`: subscribing to the authentication service delivers its current user at once
     * (none clears the user data), then `loadUserData` starts loading.
     */
    constructor (authenticatedUser: Option<User>)
      ensures currentUser == authenticatedUser && CurrentStats() == DefaultStats
      ensures isLoading && errorMessage == "" && !showLogoutConfirmation && !isLoggedOut
    {
      currentUser := None;
      isLoading := false;
      errorMessage := "";
      showLogoutConfirmation := false;
      isLoggedOut := false;
      streakDays, totalLessonsCompleted, currentLevel, xpPoints := 0, 0, "Beginner", 0;
      new;
      AuthenticatedUserChanged(authenticatedUser);
      LoadUserData();
    }

    /** `loadUserData` up to its task: loading starts and the error is cleared. */
    method LoadUserData()
      modifies this`isLoading, this`errorMessage
      ensures isLoading && errorMessage == ""
    {
      isLoading := true;
      errorMessage := "";
    }

    /** `refreshUserData` is `loadUserData`. */
    method RefreshUserData()
      modifies this`isLoading, this`errorMessage
      ensures isLoading && errorMessage == ""
    {
      LoadUserData();
    }

    /** The task of `loadUserData`, given the authentication service's user when it runs. */
    method LoadUserDataTaskFinished(authenticatedUser: Option<User>)
      modifies this`currentUser, this`streakDays, this`totalLessonsCompleted, this`currentLevel, this`xpPoints, this`isLoading
      ensures !isLoading
      ensures authenticatedUser.Some? ==> currentUser == authenticatedUser && CurrentStats() == DefaultStats
      ensures authenticatedUser.None? ==> currentUser == old(currentUser) && CurrentStats() == old(CurrentStats())
    {
      if authenticatedUser.Some? {
        currentUser := authenticatedUser;
        LoadUserStats();
      }
      isLoading := false;
    }

    /** `logout` only asks for confirmation. */
    method Logout()
      modifies this`showLogoutConfirmation
      ensures showLogoutConfirmation
    {
      showLogoutConfirmation := true;
    }

    /** `confirmLogout`: signs out of the service, clears the user data, and ends with the dialog closed. */
    method ConfirmLogout()
      modifies this
      ensures isLoggedOut && !isLoading && !showLogoutConfirmation
      ensures currentUser.None? && CurrentStats() == DefaultStats && errorMessage == ""
    {
      isLoading := true;
      ClearUserData();
      isLoggedOut := true;
      isLoading := false;
      showLogoutConfirmation := false;
    }

    /** `cancelLogout` only closes the dialog. */
    method CancelLogout()
      modifies this`showLogoutConfirmation
      ensures !showLogoutConfirmation
    {
      showLogoutConfirmation := false;
    }

    /**
     * `updateUserProfile`: without a user nothing happens; otherwise loading starts. The new name
     * and email are never applied.
     */
    method UpdateUserProfile(fullName: Option<string>, email: Option<string>) returns (started: bool)
      modifies this`isLoading, this`errorMessage
      ensures started <==> currentUser.Some?
      ensures started ==> isLoading && errorMessage == ""
      ensures !started ==> isLoading == old(isLoading) && errorMessage == old(errorMessage)
    {
      if currentUser.None? {
        return false;
      }
      isLoading := true;
      errorMessage := "";
      return true;
    }

    /** The task of `updateUserProfile`: it only ends the loading. */
    method UpdateUserProfileTaskFinished()
      modifies this`isLoading
      ensures !isLoading
    {
      isLoading := false;
    }

    /** The subscription to the authentication service's current user. */
    method AuthenticatedUserChanged(user: Option<User>)
      modifies this`currentUser, this`streakDays, this`totalLessonsCompleted, this`currentLevel, this`xpPoints, this`errorMessage
      ensures currentUser == user
      ensures user.None? ==> CurrentStats() == DefaultStats && errorMessage == ""
      ensures user.Some? ==> CurrentStats() == old(CurrentStats()) && errorMessage == old(errorMessage)
    {
      if user.None? {
        ClearUserData();
      } else {
        currentUser := user;
      }
    }

    /** The subscription to the user service's updates, which drops the empty ones. */
    method UserUpdated(user: Option<User>)
      modifies this`currentUser
      ensures currentUser == if user.Some? then user else old(currentUser)
    {
      if user.Some? {
        currentUser := user;
      }
    }

    /** `loadUserStats`: the defaults, until the backend provides stats. */
    method LoadUserStats()
      modifies this`streakDays, this`totalLessonsCompleted, this`currentLevel, this`xpPoints
      ensures CurrentStats() == DefaultStats
    {
      streakDays := 0;
      totalLessonsCompleted := 0;
      currentLevel := "Beginner";
      xpPoints := 0;
    }

    method ClearUserData()
      modifies this`currentUser, this`streakDays, this`totalLessonsCompleted, this`currentLevel, this`xpPoints, this`errorMessage
      ensures currentUser.None? && CurrentStats() == DefaultStats && errorMessage == ""
    {
      currentUser := None;
      streakDays := 0;
      totalLessonsCompleted := 0;
      currentLevel := "Beginner";
      xpPoints := 0;
      errorMessage := "";
    }
  }
}
