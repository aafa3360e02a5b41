/**
 * The test factory for the `USER_ID_TOKEN` user authentication scheme. It
 * stores a (master token, user ID token) pair whose user ID token is bound to
 * its master token. Its `authenticate` runs an ordered chain of checks over
 * user ID token authentication data, stopping at the first that fails with
 * that check's error code and otherwise returning the user. Although the
 * factory is documented as accepting only the stored pair, `authenticate`
 * never reads it: it compares the data's tokens with an outer `masterToken`
 * binding and with its own `userIdToken` argument (`Authenticate`).
 * `AuthenticateStored` is the variant that compares with the stored pair.
 */
module MockUserIdTokenAuthentication {
  import opened Wrappers
  import opened MslErrors
  import opened Tokens

  /** The user authentication scheme tag; schemes other than `USER_ID_TOKEN` are named only. */
  datatype UserAuthenticationScheme = USER_ID_TOKEN | OtherUserScheme(name: string)

  /** User authentication data: that of the user ID token scheme, or of some other scheme. */
  datatype UserAuthenticationData =
    | UserIdTokenAuthenticationData(masterToken: MasterToken, userIdToken: UserIdToken)
    | OtherUserAuthenticationData(scheme: UserAuthenticationScheme)

  /** The factory object; its two token fields are writable and start out `null`. */
  class MockUserIdTokenAuthenticationFactory {
    const scheme: UserAuthenticationScheme
    /** The token operations the factory calls. */
    const ops: TokenOps
    var masterToken: Option<MasterToken>
    var userIdToken: Option<UserIdToken>

    /** Either no pair is stored, or a pair whose user ID token is bound to its master token. */
    ghost predicate Valid()
      reads this
    {
      scheme == USER_ID_TOKEN &&
      masterToken.Some? == userIdToken.Some? &&
      (masterToken.Some? && userIdToken.Some? ==> ops.isBoundTo(userIdToken.value, masterToken.value))
    }

    /** `init`: the scheme is `USER_ID_TOKEN` and no tokens are accepted yet. */
    constructor (ops: TokenOps)
      ensures Valid()
      ensures scheme == USER_ID_TOKEN && this.ops == ops
      ensures masterToken == None && userIdToken == None
    {
      scheme := USER_ID_TOKEN;
      this.ops := ops;
      masterToken := None;
      userIdToken := None;
    }

    /**
     * `setTokens`: stores the pair, or throws an internal exception and
     * changes nothing when the user ID token is not bound to the master token.
     */
    method SetTokens(mt: MasterToken, uit: UserIdToken) returns (r: Outcome<MslException>)
      requires Valid()
      modifies this
      ensures Valid()
      ensures r.Pass? <==> ops.isBoundTo(uit, mt)
      ensures r.Fail? ==> r.error == MslInternalException
      ensures r.Fail? ==> masterToken == old(masterToken) && userIdToken == old(userIdToken)
      ensures r.Pass? ==> masterToken == Some(mt) && userIdToken == Some(uit)
    {
      if !ops.isBoundTo(uit, mt) {
        return Fail(MslInternalException);
      }
      masterToken := Some(mt);
      userIdToken := Some(uit);
      return Pass;
    }

    /**
     * `authenticate` as the factory's comments describe it: the data's
     * tokens are compared with the stored pair rather than with an outer
     * binding and the argument, so while no pair is stored nothing is
     * accepted. The user check against a supplied user ID token is unchanged.
     */
    function AuthenticateStored(identity: string, data: UserAuthenticationData,
                                userIdToken: Option<UserIdToken>): (r: Result<MslUser, MslException>)
      reads this
      ensures !data.UserIdTokenAuthenticationData? ==> r == Failure(MslInternalException)
      ensures r.Success? ==>
              data.UserIdTokenAuthenticationData?
              && data.userIdToken.user == Some(r.value)
              && data.masterToken.identity == Some(identity) && identity != ""
              && ops.masterTokenEquals(data.masterToken, this.masterToken)
              && ops.userIdTokenEquals(data.userIdToken, this.userIdToken)
              && (userIdToken.Some? ==> userIdToken.value.user == Some(r.value))
      // Conversely, data that passes every check against the stored pair is accepted.
      ensures data.UserIdTokenAuthenticationData? && !IsFalsy(data.masterToken.identity)
              && data.masterToken.identity == Some(identity) && data.userIdToken.user.Some?
              && ops.masterTokenEquals(data.masterToken, this.masterToken)
              && ops.userIdTokenEquals(data.userIdToken, this.userIdToken)
              && !(userIdToken.Some? && userIdToken.value.user != data.userIdToken.user)
              ==> r == Success(data.userIdToken.user.value)
    {
      match data
      case OtherUserAuthenticationData(_) => Failure(MslInternalException)
      case UserIdTokenAuthenticationData(mt, uit) =>
        var guards := AuthenticationGuards(ops, identity, mt, uit, userIdToken, this.masterToken, this.userIdToken);
        match FirstFailure(guards)
        case Some(e) => Failure(e)
        case None =>
          assert !guards[0].fails && !guards[1].fails && !guards[2].fails && !guards[3].fails && !guards[4].fails;
          Success(uit.user.value)
    }
  }

  /** JavaScript falsiness of an identity string: `null`, `undefined` or empty. */
  predicate IsFalsy(identity: Option<string>) {
    identity.None? || identity == Some("")
  }

  function UserAuthError(code: MslError): Result<MslUser, MslException> {
    Failure(MslUserAuthException(code))
  }

  /**
   * `authenticate(ctx, identity, data, userIdToken)`. The master token the
   * data's master token is compared with is the binding the free name
   * `masterToken` has where the factory is defined, not the stored field, so
   * it is an explicit input here; the user ID token compared with is the
   * `userIdToken` argument, which may be `null`.
   */
  function Authenticate(ops: TokenOps, identity: string, data: UserAuthenticationData,
                        userIdToken: Option<UserIdToken>, masterToken: Option<MasterToken>)
    : (r: Result<MslUser, MslException>)
    // The wrong kind of data is rejected before anything else is looked at.
    ensures !data.UserIdTokenAuthenticationData? ==> r == Failure(MslInternalException)
    // The identity checks, in order.
    ensures data.UserIdTokenAuthenticationData? && IsFalsy(data.masterToken.identity)
            ==> r == UserAuthError(USERAUTH_MASTERTOKEN_NOT_DECRYPTED)
    ensures data.UserIdTokenAuthenticationData? && !IsFalsy(data.masterToken.identity)
            && data.masterToken.identity != Some(identity)
            ==> r == UserAuthError(USERAUTH_ENTITY_MISMATCH)
    // The user check happens only once both identity checks have passed.
    ensures r == UserAuthError(USERAUTH_USERIDTOKEN_NOT_DECRYPTED) <==>
            data.UserIdTokenAuthenticationData? && !IsFalsy(data.masterToken.identity)
            && data.masterToken.identity == Some(identity) && data.userIdToken.user.None?
    // The comparisons with the accepted tokens, after the checks above.
    ensures r == UserAuthError(USERAUTH_ENTITYUSER_INCORRECT_DATA) <==>
            data.UserIdTokenAuthenticationData? && !IsFalsy(data.masterToken.identity)
            && data.masterToken.identity == Some(identity) && data.userIdToken.user.Some?
            && !(ops.masterTokenEquals(data.masterToken, masterToken)
                 && ops.userIdTokenEquals(data.userIdToken, userIdToken))
    ensures r == UserAuthError(USERIDTOKEN_USERAUTH_DATA_MISMATCH) <==>
            data.UserIdTokenAuthenticationData? && !IsFalsy(data.masterToken.identity)
            && data.masterToken.identity == Some(identity) && data.userIdToken.user.Some?
            && ops.masterTokenEquals(data.masterToken, masterToken)
            && ops.userIdTokenEquals(data.userIdToken, userIdToken)
            && userIdToken.Some? && userIdToken.value.user != data.userIdToken.user
    // When every check passes, the result is the data's user.
    ensures data.UserIdTokenAuthenticationData? && !IsFalsy(data.masterToken.identity)
            && data.masterToken.identity == Some(identity) && data.userIdToken.user.Some?
            && ops.masterTokenEquals(data.masterToken, masterToken)
            && ops.userIdTokenEquals(data.userIdToken, userIdToken)
            && !(userIdToken.Some? && userIdToken.value.user != data.userIdToken.user)
            ==> r == Success(data.userIdToken.user.value)
    // On success: the data's user, authenticated for this entity and the given token.
    ensures r.Success? ==>
            data.UserIdTokenAuthenticationData?
            && data.userIdToken.user == Some(r.value)
            && data.masterToken.identity == Some(identity) && identity != ""
            && ops.masterTokenEquals(data.masterToken, masterToken)
            && ops.userIdTokenEquals(data.userIdToken, userIdToken)
            && (userIdToken.Some? ==> userIdToken.value.user == Some(r.value))
  {
    match data
    case OtherUserAuthenticationData(_) => Failure(MslInternalException)
    case UserIdTokenAuthenticationData(uitadMasterToken, uitadUserIdToken) =>
      var uitadIdentity := uitadMasterToken.identity;
      if IsFalsy(uitadIdentity) then UserAuthError(USERAUTH_MASTERTOKEN_NOT_DECRYPTED)
      else if uitadIdentity != Some(identity) then UserAuthError(USERAUTH_ENTITY_MISMATCH)
      else
        match uitadUserIdToken.user
        case None => UserAuthError(USERAUTH_USERIDTOKEN_NOT_DECRYPTED)
        case Some(user) =>
          if !ops.masterTokenEquals(uitadMasterToken, masterToken)
             || !ops.userIdTokenEquals(uitadUserIdToken, userIdToken)
          then UserAuthError(USERAUTH_ENTITYUSER_INCORRECT_DATA)
          else if userIdToken.Some? && Some(user) != userIdToken.value.user
          then UserAuthError(USERIDTOKEN_USERAUTH_DATA_MISMATCH)
          else Success(user)
  }

  /** One check of an ordered validation chain: when `fails` holds, the chain stops with `error`. */
  datatype Guard = Guard(fails: bool, error: MslException)

  /** Guard `k` is the first one in `guards` that fails. */
  ghost predicate IsFirstFailing(guards: seq<Guard>, k: int) {
    0 <= k < |guards| && guards[k].fails && forall j :: 0 <= j < k ==> !guards[j].fails
  }

  /** Runs a chain of checks in order: the error of the first failing one, or `None`. */
  function FirstFailure(guards: seq<Guard>): (r: Option<MslException>)
    ensures r.None? <==> forall k :: 0 <= k < |guards| ==> !guards[k].fails
    ensures r.Some? ==> exists k :: IsFirstFailing(guards, k) && guards[k].error == r.value
  {
    if guards == [] then None
    else if guards[0].fails then
      assert IsFirstFailing(guards, 0);
      Some(guards[0].error)
    else
      var r := FirstFailure(guards[1..]);
      assert r.Some? ==> exists k :: IsFirstFailing(guards[1..], k) && guards[1..][k].error == r.value;
      assert forall k :: IsFirstFailing(guards[1..], k) ==> IsFirstFailing(guards, k + 1);
      assert forall k :: 0 <= k < |guards[1..]| ==> guards[1..][k] == guards[k + 1];
      r
  }

  /**
   * The checks of `authenticate` after the data type check, in the order it
   * makes them, for data tokens `mt` and `uit`: the data's tokens are compared
   * with `acceptedMasterToken` and `acceptedUserIdToken`, and the data's user
   * with that of a supplied `userIdToken`.
   */
  function AuthenticationGuards(ops: TokenOps, identity: string, mt: MasterToken, uit: UserIdToken,
                                userIdToken: Option<UserIdToken>,
                                acceptedMasterToken: Option<MasterToken>,
                                acceptedUserIdToken: Option<UserIdToken>)
    : (guards: seq<Guard>)
    ensures |guards| == 5
    ensures forall k :: 0 <= k < 5 ==> guards[k].error.MslUserAuthException?
    ensures !guards[0].fails ==> mt.identity.Some? && mt.identity.value != ""
    ensures !guards[2].fails ==> uit.user.Some?
    ensures !guards[3].fails ==> ops.masterTokenEquals(mt, acceptedMasterToken)
                                 && ops.userIdTokenEquals(uit, acceptedUserIdToken)
  {
    [ Guard(IsFalsy(mt.identity), MslUserAuthException(USERAUTH_MASTERTOKEN_NOT_DECRYPTED)),
      Guard(mt.identity != Some(identity), MslUserAuthException(USERAUTH_ENTITY_MISMATCH)),
      Guard(uit.user.None?, MslUserAuthException(USERAUTH_USERIDTOKEN_NOT_DECRYPTED)),
      Guard(!ops.masterTokenEquals(mt, acceptedMasterToken) || !ops.userIdTokenEquals(uit, acceptedUserIdToken),
            MslUserAuthException(USERAUTH_ENTITYUSER_INCORRECT_DATA)),
      Guard(userIdToken.Some? && userIdToken.value.user != uit.user,
            MslUserAuthException(USERIDTOKEN_USERAUTH_DATA_MISMATCH)) ]
  }

  /**
   * `authenticate` is the ordered chain: on user ID token data it fails with
   * the error of the first failing check, and succeeds with the data's user
   * exactly when every check passes.
   */
  lemma {:induction false} AuthenticateIsFirstFailure(ops: TokenOps, identity: string,
                                                      mt: MasterToken, uit: UserIdToken,
                                                      userIdToken: Option<UserIdToken>,
                                                      masterToken: Option<MasterToken>)
    ensures var guards := AuthenticationGuards(ops, identity, mt, uit, userIdToken, masterToken, userIdToken);
            var r := Authenticate(ops, identity, UserIdTokenAuthenticationData(mt, uit), userIdToken, masterToken);
            match FirstFailure(guards)
            case Some(e) => r == Failure(e)
            case None => uit.user.Some? && r == Success(uit.user.value)
  {
    var guards := AuthenticationGuards(ops, identity, mt, uit, userIdToken, masterToken, userIdToken);
    var r := Authenticate(ops, identity, UserIdTokenAuthenticationData(mt, uit), userIdToken, masterToken);
    match FirstFailure(guards)
    case None =>
      assert !guards[0].fails && !guards[1].fails && !guards[2].fails && !guards[3].fails && !guards[4].fails;
    case Some(e) =>
      var k :| IsFirstFailing(guards, k) && guards[k].error == e;
      assert !guards[0].fails ==> k != 0;
      if k == 0 {
      } else if k == 1 {
        assert !guards[0].fails;
      } else if k == 2 {
        assert !guards[0].fails && !guards[1].fails;
      } else if k == 3 {
        assert !guards[0].fails && !guards[1].fails && !guards[2].fails;
      } else {
        assert !guards[0].fails && !guards[1].fails && !guards[2].fails && !guards[3].fails;
      }
  }

  /**
   * Data whose tokens are themselves the comparison targets is accepted,
   * provided the two `equals` relations hold of a token and itself and the
   * tokens are decrypted for this entity.
   */
  lemma AcceptsItsOwnPair(ops: TokenOps, identity: string, mt: MasterToken, uit: UserIdToken)
    requires ops.masterTokenEquals(mt, Some(mt)) && ops.userIdTokenEquals(uit, Some(uit))
    requires mt.identity == Some(identity) && identity != "" && uit.user.Some?
    ensures Authenticate(ops, identity, UserIdTokenAuthenticationData(mt, uit), Some(uit), Some(mt))
            == Success(uit.user.value)
  {
  }

  /**
   * As written, the stored pair plays no part: with nothing stored, data
   * whose tokens equal the outer master token and the argument is accepted,
   * where the variant that compares with the stored pair rejects it.
   */
  lemma AsWrittenIgnoresStoredPair(f: MockUserIdTokenAuthenticationFactory, identity: string,
                                   mt: MasterToken, uit: UserIdToken)
    requires f.masterToken == None && f.userIdToken == None
    requires f.ops.masterTokenEquals(mt, Some(mt)) && f.ops.userIdTokenEquals(uit, Some(uit))
    requires !f.ops.masterTokenEquals(mt, None)
    requires mt.identity == Some(identity) && identity != "" && uit.user.Some?
    ensures Authenticate(f.ops, identity, UserIdTokenAuthenticationData(mt, uit), Some(uit), Some(mt))
            == Success(uit.user.value)
    ensures !f.AuthenticateStored(identity, UserIdTokenAuthenticationData(mt, uit), Some(uit)).Success?
  {
  }

  /**
   * The stored pair is accepted: data carrying exactly the stored tokens,
   * decrypted for this entity, authenticates its user when no user ID token
   * is supplied, provided the two `equals` relations hold of a token and itself.
   */
  lemma StoredPairAccepted(f: MockUserIdTokenAuthenticationFactory, identity: string,
                           mt: MasterToken, uit: UserIdToken)
    requires f.masterToken == Some(mt) && f.userIdToken == Some(uit)
    requires f.ops.masterTokenEquals(mt, Some(mt)) && f.ops.userIdTokenEquals(uit, Some(uit))
    requires mt.identity == Some(identity) && identity != "" && uit.user.Some?
    ensures f.AuthenticateStored(identity, UserIdTokenAuthenticationData(mt, uit), None) == Success(uit.user.value)
    ensures f.AuthenticateStored(identity, UserIdTokenAuthenticationData(mt, uit), Some(uit)) == Success(uit.user.value)
  {
  }

  /** While no master token is stored, the variant that compares with the stored pair accepts nothing. */
  lemma NothingAcceptedByDefault(f: MockUserIdTokenAuthenticationFactory, identity: string,
                                 data: UserAuthenticationData, userIdToken: Option<UserIdToken>)
    requires f.masterToken == None
    requires data.UserIdTokenAuthenticationData? ==> !f.ops.masterTokenEquals(data.masterToken, None)
    ensures !f.AuthenticateStored(identity, data, userIdToken).Success?
  {
  }

  /**
   * The two agree whenever the outer master token is the stored one and the
   * argument is the stored user ID token: the fix changes only what is compared.
   */
  lemma {:induction false} StoredAgreesWithAsWritten(f: MockUserIdTokenAuthenticationFactory, identity: string,
                                                     data: UserAuthenticationData,
                                                     userIdToken: Option<UserIdToken>)
    requires f.userIdToken == userIdToken
    ensures f.AuthenticateStored(identity, data, userIdToken)
            == Authenticate(f.ops, identity, data, userIdToken, f.masterToken)
  {
    match data
    case OtherUserAuthenticationData(_) =>
    case UserIdTokenAuthenticationData(mt, uit) =>
      AuthenticateIsFirstFailure(f.ops, identity, mt, uit, userIdToken, f.masterToken);
  }
}
