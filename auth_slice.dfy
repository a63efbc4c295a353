/** The auth slice of the Redux store (`lib/features/auth/authSlice.js`): the
 *  signed-in user, whether someone is signed in, two modal flags and the
 *  onboarding flag. Each reducer is a method that sets its own fields and no
 *  others.
 */
module AuthSlice {
  import opened Common

  /** The user object a `setUser` payload carries; any object is truthy. */
  datatype User = User(id: string, email: Option<string>)

  class AuthStore {
    var user: Option<User>
    var isAuthenticated: bool
    var showLoginModal: bool
    var showEditProfileModal: bool
    var needsOnboarding: bool

    /** `isAuthenticated` says whether a user is set. */
    predicate Valid()
      reads this
    {
      isAuthenticated <==> user.Some?
    }

    constructor()
      ensures Valid()
      ensures user.None? && !isAuthenticated && !showLoginModal && !showEditProfileModal && !needsOnboarding
    {
      user := None;
      isAuthenticated := false;
      showLoginModal := false;
      showEditProfileModal := false;
      needsOnboarding := false;
    }

    /** `setUser`: a null payload signs out, any user signs in. */
    method SetUser(payload: Option<User>)
      modifies this
      ensures Valid()
      ensures user == payload && isAuthenticated == payload.Some?
      ensures showLoginModal == old(showLoginModal) && showEditProfileModal == old(showEditProfileModal)
      ensures needsOnboarding == old(needsOnboarding)
    {
      user := payload;
      isAuthenticated := payload.Some?;
    }

    /** `clearUser` leaves the modal and onboarding flags alone. */
    method ClearUser()
      modifies this
      ensures Valid()
      ensures user.None? && !isAuthenticated
      ensures showLoginModal == old(showLoginModal) && showEditProfileModal == old(showEditProfileModal)
      ensures needsOnboarding == old(needsOnboarding)
    {
      user := None;
      isAuthenticated := false;
    }

    /** `openLoginModal` (`open` true) and `closeLoginModal` (`open` false). */
    method SetLoginModal(open: bool)
      modifies this
      ensures showLoginModal == open
      ensures user == old(user) && isAuthenticated == old(isAuthenticated)
      ensures showEditProfileModal == old(showEditProfileModal) && needsOnboarding == old(needsOnboarding)
    {
      showLoginModal := open;
    }

    /** `openEditProfileModal` (`open` true) and `closeEditProfileModal` (`open` false). */
    method SetEditProfileModal(open: bool)
      modifies this
      ensures showEditProfileModal == open
      ensures user == old(user) && isAuthenticated == old(isAuthenticated)
      ensures showLoginModal == old(showLoginModal) && needsOnboarding == old(needsOnboarding)
    {
      showEditProfileModal := open;
    }

    /** `setNeedsOnboarding`. */
    method SetNeedsOnboarding(flag: bool)
      modifies this
      ensures needsOnboarding == flag
      ensures user == old(user) && isAuthenticated == old(isAuthenticated)
      ensures showLoginModal == old(showLoginModal) && showEditProfileModal == old(showEditProfileModal)
    {
      needsOnboarding := flag;
    }

    /** `completeOnboarding`. */
    method CompleteOnboarding()
      modifies this
      ensures !needsOnboarding
      ensures user == old(user) && isAuthenticated == old(isAuthenticated)
      ensures showLoginModal == old(showLoginModal) && showEditProfileModal == old(showEditProfileModal)
    {
      needsOnboarding := false;
    }
  }

  /** Opening the login modal twice, then signing in and out, ends with the modal
   *  open, nobody signed in, and the other two flags as they were. */
  method ReducersCompose(store: AuthStore, u: User)
    modifies store
    ensures store.showLoginModal && store.user.None? && !store.isAuthenticated && store.Valid()
    ensures store.showEditProfileModal == old(store.showEditProfileModal)
    ensures store.needsOnboarding == old(store.needsOnboarding)
  {
    store.SetLoginModal(true);
    store.SetLoginModal(true);
    store.SetUser(Some(u));
    assert store.Valid() && store.isAuthenticated;
    store.ClearUser();
  }
}
