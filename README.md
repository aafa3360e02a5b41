# Unauthenticated entity authentication data and the user ID token test factory

This project models two small pieces of the Message Security Layer (MSL):

- **Unauthenticated entity authentication data**, the entity authentication
  data of the `NONE` scheme. It is an immutable value that holds one entity
  identity. It is built either from the identity or from its JSON form
  `{ "identity": string }`, where `identity` is mandatory. It serialises back
  to that form. Two values are equal when their schemes and identities are
  equal, and the hash agrees with that equality. Module
  `UnauthenticatedAuthentication`, with JSON values in `Json`.
- **The user ID token user authentication test factory**, module
  `MockUserIdTokenAuthentication`. It is an object that stores a
  (master token, user ID token) pair. `SetTokens` stores a pair only when the
  user ID token is bound to the master token. The factory's comments say the
  stored pair is the one it accepts and that by default nothing is accepted.
  The code does not keep that promise: `authenticate` never reads the stored
  pair (see "## Findings"). `AuthenticateStored` is the corrected variant,
  which compares with the stored pair.
  `Authenticate` is an ordered chain of checks over user ID token
  authentication data. Each failing check has its own error code, and when
  every check passes it returns the data's user. Besides its own contract,
  `Authenticate` is proved equal to a generic "first failing guard" reading of
  the same chain (`FirstFailure` over `AuthenticationGuards`).

Modelling decisions:

- The bodies of `MasterToken.equals`, `UserIdToken.equals` and
  `UserIdToken.isBoundTo` are not part of this model. They are the three
  arbitrary relations of a `Tokens.TokenOps` record. The factory receives one
  record when it is constructed. `Authenticate` takes one as an argument. So
  every property proved here holds for any definition of those methods.
- In `authenticate`, the master token that the data's master token is
  compared with (MockUserIdTokenAuthenticationFactory.js line 79) is written
  as the bare name `masterToken`. That name is not a parameter, a local or a
  `this.` field, so it resolves to whatever binding encloses the factory
  definition. The user ID token it is compared with (line 80) is the
  `userIdToken` argument, not the stored field. `Authenticate` therefore
  takes both comparison targets as explicit inputs and never reads the
  factory's stored pair.
- JavaScript truthiness is modelled as the code uses it. `!uitadIdentity`
  holds for a missing identity and also for the empty string (`IsFalsy`).
  `!user` holds only for a missing user.
- Java `null`s and JavaScript `null`/`undefined` are `Option.None`. A thrown
  exception is the `Failure`/`Fail` variant of a result, carrying the
  exception class and its `MslError` code (`MslErrors.MslException`).
- `JSONObject.getString` is modelled strictly. It fails when the key is
  absent and also when the value is not a string (`Json.GetString`).
- `super.equals` of `EntityAuthenticationData` is not part of this model.
  Its effect is taken to be scheme equality (`SchemeEquals`).

## Model

| member | source | states |
|---|---|---|
| `UnauthenticatedAuthentication.FromIdentity` | src/main/java/com/netflix/msl/entityauth/UnauthenticatedAuthenticationData.java:51-54 | the scheme is `NONE` and the identity read back is exactly the identity given |
| `UnauthenticatedAuthentication.FromJson` | src/main/java/com/netflix/msl/entityauth/UnauthenticatedAuthenticationData.java:64-71 | parsing succeeds iff the object holds a string under `identity`; on success the scheme is `NONE` and the identity is that string; otherwise the error is an encoding exception with `JSON_PARSE_ERROR` and no value is produced |
| `Json.GetString` | src/main/java/com/netflix/msl/entityauth/UnauthenticatedAuthenticationData.java:67 | `getString` yields a value iff the key is present with a string value, and the value is that string |
| `UnauthenticatedAuthentication.GetIdentity` | src/main/java/com/netflix/msl/entityauth/UnauthenticatedAuthenticationData.java:77-79 | the identity read back determines the whole value: a constructed value is the `NONE` data with exactly that identity |
| `UnauthenticatedAuthentication.GetAuthData` | src/main/java/com/netflix/msl/entityauth/UnauthenticatedAuthenticationData.java:85-89 | the serialised object has `identity` as its only key, mapped to the stored identity |
| `UnauthenticatedAuthentication.AuthDataRoundTrip` | src/main/java/com/netflix/msl/entityauth/UnauthenticatedAuthenticationData.java:64-89 | parsing the serialised form of any constructed value succeeds with that same value, which `equals` the original |
| `UnauthenticatedAuthentication.ParseThenSerialise` | src/main/java/com/netflix/msl/entityauth/UnauthenticatedAuthenticationData.java:64-89 | serialising a parsed value gives the input's `identity` entry and nothing else; re-parsing it gives the same result, so extra keys are ignored |
| `UnauthenticatedAuthentication.ConstructorsAgree` | src/main/java/com/netflix/msl/entityauth/UnauthenticatedAuthenticationData.java:51-71 | parsing `{ "identity": id }` gives the same value as constructing from `id` |
| `UnauthenticatedAuthentication.SchemeEquals` | src/main/java/com/netflix/msl/entityauth/UnauthenticatedAuthenticationData.java:106 | the superclass comparison holds between any two constructed values, and values it relates are either both `NONE` data or neither |
| `UnauthenticatedAuthentication.Equals` | src/main/java/com/netflix/msl/entityauth/UnauthenticatedAuthenticationData.java:102-107 | `equals` holds exactly when the argument is an instance of this class with the same scheme and identity, that is, the same value |
| `UnauthenticatedAuthentication.EqualsCharacterisation` | src/main/java/com/netflix/msl/entityauth/UnauthenticatedAuthenticationData.java:102-107 | `equals` holds iff the argument is unauthenticated data with an equal scheme and an equal identity; on such arguments it coincides with value equality |
| `UnauthenticatedAuthentication.EqualsIsEquivalence` | src/main/java/com/netflix/msl/entityauth/UnauthenticatedAuthenticationData.java:102-107 | `equals` is reflexive, symmetric and transitive |
| `UnauthenticatedAuthentication.HashCode` | src/main/java/com/netflix/msl/entityauth/UnauthenticatedAuthenticationData.java:113-115 | the hash code combines the scheme hash and the identity's string hash by 32-bit xor: removing either one from it leaves exactly the other, so it depends on the scheme and the identity only |
| `UnauthenticatedAuthentication.HashCodeConsistentWithEquals` | src/main/java/com/netflix/msl/entityauth/UnauthenticatedAuthenticationData.java:113-115 | equal values have equal hash codes for every choice of scheme hash and string hash |
| `MockUserIdTokenAuthentication.MockUserIdTokenAuthenticationFactory.constructor` | src/test/javascript/userauth/MockUserIdTokenAuthenticationFactory.js:27-35 | a new factory has scheme `USER_ID_TOKEN` and stores neither a master token nor a user ID token |
| `MockUserIdTokenAuthentication.MockUserIdTokenAuthenticationFactory.SetTokens` | src/test/javascript/userauth/MockUserIdTokenAuthenticationFactory.js:45-50 | it succeeds iff the user ID token is bound to the master token; on failure it raises an internal exception and both stored fields are unchanged; on success the stored pair is exactly the arguments; either way the stored user ID token stays bound to the stored master token |
| `MockUserIdTokenAuthentication.Authenticate` | src/test/javascript/userauth/MockUserIdTokenAuthenticationFactory.js:58-94 | data of the wrong type gives an internal error first; then a falsy master-token identity gives `USERAUTH_MASTERTOKEN_NOT_DECRYPTED`, a different entity identity `USERAUTH_ENTITY_MISMATCH`, a missing user `USERAUTH_USERIDTOKEN_NOT_DECRYPTED`, a token unequal to its comparison target `USERAUTH_ENTITYUSER_INCORRECT_DATA`, and a supplied user ID token with another user `USERIDTOKEN_USERAUTH_DATA_MISMATCH`, each only when the earlier checks pass; when all pass the result is the data's user; on success the result is the data's user, the identity matches, both tokens equal their targets and a supplied user ID token names the same user |
| `MockUserIdTokenAuthentication.FirstFailure` | src/test/javascript/userauth/MockUserIdTokenAuthenticationFactory.js:64-93 | running a chain of checks in order yields nothing iff no check fails, and otherwise the error of the first check that fails |
| `MockUserIdTokenAuthentication.AuthenticateIsFirstFailure` | src/test/javascript/userauth/MockUserIdTokenAuthenticationFactory.js:64-93 | on user ID token data, `authenticate` fails with exactly the error of the first failing check of its five, and when none fails it returns the data's user |
| `MockUserIdTokenAuthentication.AuthenticationGuards` | src/test/javascript/userauth/MockUserIdTokenAuthenticationFactory.js:64-90 | the five checks, each failing with a user authentication error; passing the first means a non-empty identity, passing the third a decrypted user, passing the fourth that both tokens equal their comparison targets |
| `MockUserIdTokenAuthentication.MockUserIdTokenAuthenticationFactory.AuthenticateStored` | src/test/javascript/userauth/MockUserIdTokenAuthenticationFactory.js:38-49 | the documented behaviour: wrong-type data is an internal error; it succeeds with the data's user exactly when the identity is non-empty and matches, the user is decrypted, both data tokens equal the stored pair, and a supplied user ID token names the same user |
| `MockUserIdTokenAuthentication.StoredPairAccepted` | src/test/javascript/userauth/MockUserIdTokenAuthenticationFactory.js:38-49 | with a pair stored, data carrying exactly that pair, decrypted for the entity, is accepted with its user, whether no user ID token or the stored one is supplied, given reflexive `equals` |
| `MockUserIdTokenAuthentication.AsWrittenIgnoresStoredPair` | src/test/javascript/userauth/MockUserIdTokenAuthenticationFactory.js:79-80 | with no pair stored, `authenticate` as written still accepts data whose tokens equal the outer master token and the argument, while the stored-pair variant rejects the same call |
| `MockUserIdTokenAuthentication.NothingAcceptedByDefault` | src/test/javascript/userauth/MockUserIdTokenAuthenticationFactory.js:23-35 | while no master token is stored and a token never equals `null`, the stored-pair variant accepts nothing |
| `MockUserIdTokenAuthentication.StoredAgreesWithAsWritten` | src/test/javascript/userauth/MockUserIdTokenAuthenticationFactory.js:79-90 | the stored-pair variant and `authenticate` as written give the same result on every input whenever the outer master token and the argument are the stored pair |
| `MockUserIdTokenAuthentication.AcceptsItsOwnPair` | src/test/javascript/userauth/MockUserIdTokenAuthenticationFactory.js:79-93 | when the data's tokens are presented as the comparison targets, both `equals` hold of a token and itself, and the tokens are decrypted for this entity, `authenticate` returns the data's user |

## Findings

| source | as written | input that shows it | evidently intended | confidence | as-written member | corrected member |
|---|---|---|---|---|---|---|
| src/test/javascript/userauth/MockUserIdTokenAuthenticationFactory.js:79-80 | the data's master token is compared with the free name `masterToken` and its user ID token with the `userIdToken` argument, so the pair stored by `setTokens` (lines 48-49) is never read | a fresh factory with no pair stored; decrypted data tokens `mt`, `uit` for the entity; outer `masterToken` bound to `mt`; argument `userIdToken` = `uit`; `equals` reflexive on both tokens and false against `null`: authentication succeeds | compare with `this.masterToken` and `this.userIdToken`, so that only the stored pair is accepted and nothing is accepted by default (lines 24-25, 39) | medium, not executed | `MockUserIdTokenAuthentication.AsWrittenIgnoresStoredPair` | `MockUserIdTokenAuthentication.MockUserIdTokenAuthenticationFactory.AuthenticateStored` |

## Left out

- `createData` (MockUserIdTokenAuthenticationFactory.js lines 53-55) only forwards to a user ID token authentication data parser through an asynchronous callback. That parser is not part of this model.
- The bodies of `MasterToken.equals`, `UserIdToken.equals`, `UserIdToken.isBoundTo`, `MslUser.equals` and `EntityAuthenticationData.equals`/`hashCode` are not part of this model. The token relations are arbitrary parameters, user equality is value equality, and the superclass equality is scheme equality.
- `UnauthenticatedAuthentication.HashCode`: the exact Java `String.hashCode` and enum hash values are not modelled. Both hashes are parameters, and only their combination by 32-bit xor is modelled.
- `UnauthenticatedAuthentication.GetAuthData`: the `JSON_ENCODE_ERROR` branch is not modelled, although the code `MslErrors.JSON_ENCODE_ERROR` is declared. `JSONObject.put` with a fixed non-null key and a string value does not throw, so that branch is unreachable.
- `MockUserIdTokenAuthentication.MockUserIdTokenAuthenticationFactory.SetTokens`: a `null` user ID token argument, which makes JavaScript raise a `TypeError` before the check, is not modelled. Both arguments are non-null tokens.
- `MockUserIdTokenAuthentication.Authenticate`: user ID token data whose master token or user ID token is missing is not modelled. A `null` data argument is not an instance of user ID token data, so it is the wrong-type case (`OtherUserAuthenticationData`).
- `MockUserIdTokenAuthentication.Authenticate`: the entity identity is a string, so a `null` or `undefined` identity is not modelled. With one, line 69 would report `USERAUTH_ENTITY_MISMATCH` whenever the master token's identity is non-empty.
- `MockUserIdTokenAuthentication.Authenticate`: the model assumes that an outer binding of `masterToken` exists. Without one, line 79 throws a JavaScript `ReferenceError`, not an `MslException`, once the user check has passed. That case is not modelled.
- `MockUserIdTokenAuthentication.Authenticate`: it does not state the documented promises that by default no tokens are accepted (lines 24-25) and that the stored pair is the one accepted (line 39), because the code does not keep them. The corrected variant `AuthenticateStored` keeps them: `StoredPairAccepted` and `NothingAcceptedByDefault` prove them of it.
- Exception detail strings, causes and the `setUser` decoration of user authentication exceptions are not modelled. Only the exception class and its error code are.
- A Java `null` identity, which would make `equals` and `hashCode` throw, is not modelled. Identities are strings.
- JSON numbers are integers. Floating point and key order in `org.json` are not modelled.
- `MslEncodingException.js` (lines 32-40) only names the exception class. It is the `MslEncodingException` variant of `MslErrors.MslException`.
- `MasterTokenTests.java` is an integration test that drives a remote server over HTTP. Its master-token validation, renewal and sequence-number logic runs in classes that are not part of this model.
