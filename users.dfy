/**
 * The `users` table the service reads and updates: one record per user,
 * keyed by its auto-generated primary key.
 */
module Users {
  import opened Wrappers
  import opened Crypto

  /**
   * A row of the `users` table. The password and refresh token are stored
   * as bcrypt digests; the reset token is stored as issued; the reset expiry
   * is a timestamp in milliseconds. The nullable columns are options.
   */
  datatype UserRecord = UserRecord(
    id: int,
    username: string,
    email: string,
    password: Digest,
    refreshToken: Option<Digest>,
    resetPasswordToken: Option<string>,
    resetPasswordExpires: Option<int>)

  type UserTable = map<int, UserRecord>

  /** The `user` part of a login, register or refresh response. */
  datatype PublicUser = PublicUser(id: int, username: string, email: string)

  function PublicView(u: UserRecord): PublicUser
  {
    PublicUser(u.id, u.username, u.email)
  }

  /**
   * `userRepository.findOne({ where })`: some row satisfying the condition,
   * or none when no row does. Which of several matching rows comes back is
   * the database's choice.
   */
  method FindOne(users: UserTable, matches: UserRecord -> bool) returns (found: Option<int>)
    ensures found.Some? ==> found.value in users && matches(users[found.value])
    ensures found.None? ==> forall id :: id in users ==> !matches(users[id])
  {
    var unseen := users.Keys;
    while unseen != {}
      invariant unseen <= users.Keys
      invariant forall id :: id in users && id !in unseen ==> !matches(users[id])
      decreases unseen
    {
      NonEmptyHasMember(unseen);
      var key :| key in unseen;
      if matches(users[key]) {
        return Some(key);
      }
      unseen := unseen - {key};
    }
    return None;
  }

  lemma NonEmptyHasMember(s: set<int>)
    requires s != {}
    ensures exists k :: k in s
  {
    if forall k :: k !in s {
      assert false;
    }
  }

  /**
   * `userRepository.update(id, { refreshToken })`: that row's refresh-token
   * column takes the new value; a missing id updates no row.
   */
  function WithRefreshToken(users: UserTable, id: int, hashed: Option<Digest>): (updated: UserTable)
    ensures updated.Keys == users.Keys
    ensures id in users ==> updated[id] == users[id].(refreshToken := hashed)
    ensures forall other :: other in users && other != id ==> updated[other] == users[other]
  {
    if id in users then users[id := users[id].(refreshToken := hashed)] else users
  }
}
