/**
 * Saving the profile form (save_profile): the users file, read and written
 * back on every call, is an object whose `users` map the callback updates
 * in place.
 */
module Profile {
  import opened Wrappers
  import opened Session

  /** The message shown under the form. */
  datatype ProfileMessage =
    | Blank                // no click yet: ''
    | NotAuthenticated     // "Not authenticated"
    | Updated              // "Profile updated successfully!"
    | UpdateFailed         // "Error updating profile": the user is not in the file
    | Raised               // no session data at all: `session_data.get` raises

  /** `new or old`: a form field replaces the stored value only when non-empty. */
  function Merge(entered: Option<string>, stored: string): (r: string)
    ensures Truthy(entered) ==> r == entered.value
    ensures !Truthy(entered) ==> r == stored
  {
    if Truthy(entered) then entered.value else stored
  }

  /**
   * The account after the form is saved: full name, e-mail, department and
   * role take the non-empty form values; password and creation time are
   * never touched.
   */
  function UpdatedUser(u: User, fullname: Option<string>, email: Option<string>,
                       department: Option<string>, role: Option<string>): (u': User)
    ensures u'.password == u.password && u'.createdAt == u.createdAt
    ensures u'.fullName == Merge(fullname, u.fullName) && u'.email == Merge(email, u.email)
    ensures u'.department == Merge(department, u.department) && u'.role == Merge(role, u.role)
  {
    u.(fullName := Merge(fullname, u.fullName), email := Merge(email, u.email),
       department := Merge(department, u.department), role := Merge(role, u.role))
  }

  /** Submitting an empty form leaves the account as it was. */
  lemma EmptyFormKeepsUser(u: User, fullname: Option<string>, email: Option<string>,
                           department: Option<string>, role: Option<string>)
    requires !Truthy(fullname) && !Truthy(email) && !Truthy(department) && !Truthy(role)
    ensures UpdatedUser(u, fullname, email, department, role) == u
  {
  }

  /** Saving the same form twice is the same as saving it once. */
  lemma SaveIsIdempotent(u: User, fullname: Option<string>, email: Option<string>,
                         department: Option<string>, role: Option<string>)
    ensures var once := UpdatedUser(u, fullname, email, department, role);
      UpdatedUser(once, fullname, email, department, role) == once
  {
  }

  /** The users file as a map from user name to account. */
  class UserStore {
    var users: map<string, User>

    constructor (initial: map<string, User>)
      ensures users == initial
    {
      users := initial;
    }

    /**
     * save_profile: with a click and a signed-in user that exists, that
     * user's account is updated and nothing else; in every other case the
     * file is unchanged and the message says why.
     */
    method SaveProfile(nClicks: Option<nat>, fullname: Option<string>, email: Option<string>,
                       department: Option<string>, role: Option<string>, session: Option<SessionData>)
      returns (msg: ProfileMessage)
      modifies this
      ensures nClicks.None? ==> msg == Blank
      ensures nClicks.Some? && session.None? ==> msg == Raised
      ensures nClicks.Some? && session.Some? && !Truthy(session.value.username) ==> msg == NotAuthenticated
      ensures nClicks.Some? && session.Some? && Truthy(session.value.username) ==>
        msg == (if session.value.username.value in old(users) then Updated else UpdateFailed)
      ensures msg == Updated ==>
        var name := session.value.username.value;
        users == old(users)[name := UpdatedUser(old(users)[name], fullname, email, department, role)]
      ensures msg != Updated ==> users == old(users)
    {
      if nClicks.None? {
        return Blank;
      }
      if session.None? {
        return Raised;
      }
      var username := session.value.username;
      if !Truthy(username) {
        return NotAuthenticated;
      }
      var name := username.value;
      if name in users {
        users := users[name := UpdatedUser(users[name], fullname, email, department, role)];
        return Updated;
      }
      return UpdateFailed;
    }
  }
}
