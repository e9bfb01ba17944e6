/**
 * The authentication context of the `src` side: the backend's user, the row of
 * `users` fetched for it, and the loading flag, set by the initial load and by
 * every auth event.
 */
module SrcAuthProvider {
  import opened Common
  import opened SrcSchema

  /** The reply of the `users` lookup: a row, an error, or no data. */
  datatype UserFetch = UserRow(row: User) | UserFetchError | UserNoData

  /** The reply of `auth.getSession()`: a session with its user's id, none, or a rejection. */
  datatype SessionReply = SessionUser(userId: string) | NoSession | SessionThrew

  /** The row stored after a lookup: the fetched one with no error, otherwise whatever was there. */
  function Adopted(previous: Option<User>, fetch: UserFetch): (u: Option<User>)
    ensures fetch.UserRow? ==> u == Some(fetch.row)
    ensures !fetch.UserRow? ==> u == previous
  {
    if fetch.UserRow? then Some(fetch.row) else previous
  }

  /**
   * A failed lookup keeps the previous row even when it belongs to another
   * user than the new session's.
   */
  lemma StaleRowSurvivesFailedLookup(previous: User, fetch: UserFetch)
    requires !fetch.UserRow?
    ensures Adopted(Some(previous), fetch) == Some(previous)
  {
  }

  class Provider {
    var user: Option<User>
    var supabaseUser: Option<string>     // the backend's user, by id
    var loading: bool

    constructor ()
      ensures user == None && supabaseUser == None && loading
    {
      user, supabaseUser, loading := None, None, true;
    }

    /**
     * `getUser`. There is no try block: a rejected `getSession` leaves every
     * field, `loading` included, as it was.
     */
    method GetUser(session: SessionReply, fetch: UserFetch)
      modifies this
      ensures session == SessionThrew ==>
                user == old(user) && supabaseUser == old(supabaseUser) && loading == old(loading)
      ensures session == NoSession ==> user == old(user) && supabaseUser == old(supabaseUser) && !loading
      ensures session.SessionUser? ==>
                supabaseUser == Some(session.userId) && user == Adopted(old(user), fetch) && !loading
    {
      if session == SessionThrew {
        return;
      }
      if session.SessionUser? {
        supabaseUser := Some(session.userId);
        if fetch.UserRow? {
          user := Some(fetch.row);
        }
      }
      loading := false;
    }

    /** The auth-change handler: a session sets the backend user and perhaps the row; none clears both. */
    method OnAuthStateChange(session: Option<string>, fetch: UserFetch)
      modifies this
      ensures session.Some? ==> supabaseUser == session && user == Adopted(old(user), fetch)
      ensures session.None? ==> supabaseUser == None && user == None
      ensures !loading
    {
      if session.Some? {
        supabaseUser := session;
        if fetch.UserRow? {
          user := Some(fetch.row);
        }
      } else {
        supabaseUser := None;
        user := None;
      }
      loading := false;
    }
  }
}
