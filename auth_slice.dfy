/** The `auth` slice of the Redux store: the signed-in Firebase user and two flags. */
module AuthSlice {
  import opened Wrappers

  /** The Firebase user, reduced to the field the rest of the client reads. */
  datatype User = User(uid: string)

  datatype AuthAction = SetUser(user: Option<User>) | SetLoading(loading: bool) | SignOut

  class AuthStore {
    var user: Option<User>
    var loading: bool
    var isInitialized: bool

    /** `initialState` */
    constructor ()
      ensures user == None && loading && !isInitialized
    {
      user, loading, isInitialized := None, true, false;
    }

    /** `setUser`: stores the user (or null) and marks the slice initialized. */
    method SetUser(u: Option<User>)
      modifies this
      ensures user == u && isInitialized && loading == old(loading)
    {
      user := u;
      isInitialized := true;
    }

    /** `setLoading`: changes only `loading`. */
    method SetLoading(b: bool)
      modifies this
      ensures loading == b && user == old(user) && isInitialized == old(isInitialized)
    {
      loading := b;
    }

    /** `signOut`: clears the user and nothing else. */
    method SignOut()
      modifies this
      ensures user == None && loading == old(loading) && isInitialized == old(isInitialized)
    {
      user := None;
    }

    /** The slice reducer: routes an action to its case. No action turns
        `isInitialized` back to false. */
    method Reduce(action: AuthAction)
      modifies this
      ensures old(isInitialized) ==> isInitialized
      ensures action.SetUser? ==> user == action.user && isInitialized && loading == old(loading)
      ensures action.SetLoading? ==> loading == action.loading && user == old(user) && isInitialized == old(isInitialized)
      ensures action.SignOut? ==> user == None && loading == old(loading) && isInitialized == old(isInitialized)
    {
      match action {
        case SetUser(u) => SetUser(u);
        case SetLoading(b) => SetLoading(b);
        case SignOut => SignOut();
      }
    }
  }
}
