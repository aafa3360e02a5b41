/**
 * The error codes and exception kinds that the modelled code raises. Only the
 * codes are modelled; the detail strings, causes and the user decoration
 * attached by `setUser` are not.
 */
module MslErrors {

  /** The `MslError` codes used by the modelled code. */
  datatype MslError =
    | JSON_PARSE_ERROR
    | JSON_ENCODE_ERROR
    | USERAUTH_MASTERTOKEN_NOT_DECRYPTED
    | USERAUTH_ENTITY_MISMATCH
    | USERAUTH_USERIDTOKEN_NOT_DECRYPTED
    | USERAUTH_ENTITYUSER_INCORRECT_DATA
    | USERIDTOKEN_USERAUTH_DATA_MISMATCH

  /** The exception classes thrown by the modelled code, each with the code it carries. */
  datatype MslException =
    | MslEncodingException(error: MslError)
    | MslUserAuthException(error: MslError)
    | MslInternalException
}
