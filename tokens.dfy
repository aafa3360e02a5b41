/**
 * The parts of master tokens and user ID tokens that user ID token user
 * authentication looks at. A token's identity or user is absent when the
 * token could not be decrypted.
 */
module Tokens {
  import opened Wrappers

  /** A user, as a user ID token names it. */
  datatype MslUser = MslUser(id: string)

  /** A master token: its serial number and its entity identity, if decrypted. */
  datatype MasterToken = MasterToken(serialNumber: int, identity: Option<string>)

  /**
   * A user ID token: its serial number, the serial number of the master token
   * it is bound to, and its user, if decrypted.
   */
  datatype UserIdToken = UserIdToken(serialNumber: int, masterTokenSerialNumber: int, user: Option<MslUser>)

  /**
   * `MasterToken.equals`, `UserIdToken.equals` and `UserIdToken.isBoundTo`,
   * whose definitions are not part of this model: each is an arbitrary total
   * relation. The `equals` relations take an optional argument, since the
   * modelled code may hand them `null`.
   */
  datatype TokenOps = TokenOps(
    masterTokenEquals: (MasterToken, Option<MasterToken>) -> bool,
    userIdTokenEquals: (UserIdToken, Option<UserIdToken>) -> bool,
    isBoundTo: (UserIdToken, MasterToken) -> bool)
}
