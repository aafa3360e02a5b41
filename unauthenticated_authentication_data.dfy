/**
 * Unauthenticated entity authentication data: the entity authentication
 * data of the `NONE` scheme, used by entities that cannot authenticate
 * themselves. It carries only the entity identity, and its JSON form is
 * `{ "identity" : string }` with `identity` mandatory.
 */
module UnauthenticatedAuthentication {
  import opened Wrappers
  import opened MslErrors
  import opened Json

  /** The entity authentication scheme tag; schemes other than `NONE` are named only. */
  datatype EntityAuthenticationScheme = NONE | OtherEntityScheme(name: string)

  /** JSON key of the entity identity. */
  const KEY_IDENTITY: string := "identity"

  /**
   * An instance: the scheme field inherited from `EntityAuthenticationData`
   * and the final `identity` field. Both constructors set the scheme to `NONE`.
   */
  datatype UnauthenticatedAuthenticationData =
    UnauthenticatedAuthenticationData(scheme: EntityAuthenticationScheme, identity: string)

  /** What every constructed instance satisfies. */
  predicate Valid(d: UnauthenticatedAuthenticationData) {
    d.scheme == NONE
  }

  /** Any Java object that `equals` may be handed. */
  datatype AnyObject =
    | UnauthenticatedObject(data: UnauthenticatedAuthenticationData)
    | OtherObject  // null, or an object of any other class

  /** The constructor from an entity identity. */
  function FromIdentity(identity: string): (d: UnauthenticatedAuthenticationData)
    ensures Valid(d) && GetIdentity(d) == identity
  {
    UnauthenticatedAuthenticationData(NONE, identity)
  }

  /**
   * The constructor from a JSON object: it fails with an encoding error
   * carrying `JSON_PARSE_ERROR` when the object has no string under
   * `identity`; other keys are ignored.
   */
  function FromJson(jo: JsonObject): (r: Result<UnauthenticatedAuthenticationData, MslException>)
    ensures r.Success? <==> KEY_IDENTITY in jo && jo[KEY_IDENTITY].JString?
    ensures r.Success? ==> Valid(r.value) && jo[KEY_IDENTITY] == JString(GetIdentity(r.value))
    ensures r.Failure? ==> r.error == MslEncodingException(JSON_PARSE_ERROR)
  {
    match GetString(jo, KEY_IDENTITY)
    case Some(identity) => Success(UnauthenticatedAuthenticationData(NONE, identity))
    case None => Failure(MslEncodingException(JSON_PARSE_ERROR))
  }

  /** The entity identity. */
  function GetIdentity(d: UnauthenticatedAuthenticationData): (identity: string)
    ensures Valid(d) ==> d == UnauthenticatedAuthenticationData(NONE, identity)
  {
    d.identity
  }

  /** The scheme-specific JSON form: a fresh object whose only entry is the identity. */
  function GetAuthData(d: UnauthenticatedAuthenticationData): (jo: JsonObject)
    ensures jo.Keys == {KEY_IDENTITY}
    ensures jo[KEY_IDENTITY] == JString(GetIdentity(d))
  {
    map[KEY_IDENTITY := JString(d.identity)]
  }

  /**
   * `EntityAuthenticationData.equals`, which this class calls as
   * `super.equals`: the schemes agree.
   */
  predicate SchemeEquals(d: UnauthenticatedAuthenticationData, e: UnauthenticatedAuthenticationData)
    ensures SchemeEquals(d, e) ==> (Valid(d) <==> Valid(e))
    ensures Valid(d) && Valid(e) ==> SchemeEquals(d, e)
  {
    d.scheme == e.scheme
  }

  /** `equals`: same object, or an instance of this class with equal scheme and identity. */
  predicate Equals(d: UnauthenticatedAuthenticationData, obj: AnyObject)
    ensures Equals(d, obj) <==> obj == UnauthenticatedObject(d)
  {
    match obj
    case OtherObject => false
    case UnauthenticatedObject(that) =>
      that == d || (SchemeEquals(d, that) && d.identity == that.identity)
  }

  /**
   * `hashCode`: the superclass hash (a function of the scheme) xor the hash
   * of the identity string. Both hash functions are parameters, since their
   * exact values are not part of the model.
   */
  function HashCode(d: UnauthenticatedAuthenticationData,
                    schemeHash: EntityAuthenticationScheme -> bv32,
                    stringHash: string -> bv32): (h: bv32)
    ensures h ^ stringHash(d.identity) == schemeHash(d.scheme)
    ensures h ^ schemeHash(d.scheme) == stringHash(d.identity)
  {
    schemeHash(d.scheme) ^ stringHash(d.identity)
  }

  /** Round trip: parsing the serialised form gives back an equal value. */
  lemma AuthDataRoundTrip(d: UnauthenticatedAuthenticationData)
    requires Valid(d)
    ensures FromJson(GetAuthData(d)) == Success(d)
    ensures Equals(d, UnauthenticatedObject(FromJson(GetAuthData(d)).value))
  {
  }

  /**
   * The other direction: serialising a parsed value reproduces the input's
   * `identity` entry and nothing else, so parsing depends on that entry alone.
   */
  lemma ParseThenSerialise(jo: JsonObject)
    requires FromJson(jo).Success?
    ensures GetAuthData(FromJson(jo).value) == map k | k in jo && k == KEY_IDENTITY :: jo[k]
    ensures FromJson(jo) == FromJson(GetAuthData(FromJson(jo).value))
  {
  }

  /** `equals` holds exactly for an instance of this class with equal scheme and identity. */
  lemma EqualsCharacterisation(d: UnauthenticatedAuthenticationData, obj: AnyObject)
    ensures Equals(d, obj) <==>
      obj.UnauthenticatedObject? && obj.data.scheme == d.scheme && obj.data.identity == d.identity
    ensures obj.UnauthenticatedObject? ==> (Equals(d, obj) <==> obj.data == d)
  {
  }

  /** `equals` is an equivalence on instances of this class. */
  lemma EqualsIsEquivalence(a: UnauthenticatedAuthenticationData,
                            b: UnauthenticatedAuthenticationData,
                            c: UnauthenticatedAuthenticationData)
    ensures Equals(a, UnauthenticatedObject(a))
    ensures Equals(a, UnauthenticatedObject(b)) ==> Equals(b, UnauthenticatedObject(a))
    ensures Equals(a, UnauthenticatedObject(b)) && Equals(b, UnauthenticatedObject(c))
            ==> Equals(a, UnauthenticatedObject(c))
  {
  }

  /** Equal values have equal hashes, whatever the two underlying hash functions are. */
  lemma HashCodeConsistentWithEquals(a: UnauthenticatedAuthenticationData,
                                     b: UnauthenticatedAuthenticationData,
                                     schemeHash: EntityAuthenticationScheme -> bv32,
                                     stringHash: string -> bv32)
    requires Equals(a, UnauthenticatedObject(b))
    ensures HashCode(a, schemeHash, stringHash) == HashCode(b, schemeHash, stringHash)
  {
  }

  /** Both constructors agree: parsing `{ "identity": id }` is constructing from `id`. */
  lemma ConstructorsAgree(identity: string)
    ensures FromJson(map[KEY_IDENTITY := JString(identity)]) == Success(FromIdentity(identity))
  {
  }
}
