/** src/store/slices/userSlice.ts: the signed-in profile with its derived authenticated flag. */
module UserSlice {
  import opened Wrappers
  import opened DbTypes

  class Slice {
    var user: Option<Profile>
    var isAuthenticated: bool
    var isLoading: bool

    /** The flag is `!!user`: it holds exactly when a profile is present. */
    ghost predicate Valid()
      reads this
    {
      isAuthenticated == user.Some?
    }

    constructor()
      ensures Valid()
      ensures user == None && !isAuthenticated && isLoading
    {
      user, isAuthenticated, isLoading := None, false, true;
    }

    method SetUser(u: Option<Profile>)
      requires Valid()
      modifies this
      ensures Valid()
      ensures user == u && (isAuthenticated <==> u.Some?) && isLoading == old(isLoading)
    {
      user, isAuthenticated := u, u.Some?;
    }

    method SetLoading(loading: bool)
      requires Valid()
      modifies this
      ensures Valid()
      ensures isLoading == loading && user == old(user) && isAuthenticated == old(isAuthenticated)
    {
      isLoading := loading;
    }

    /** Signs out locally; the loading flag is left alone. */
    method Logout()
      requires Valid()
      modifies this
      ensures Valid()
      ensures user == None && !isAuthenticated && isLoading == old(isLoading)
    {
      user, isAuthenticated := None, false;
    }
  }
}
