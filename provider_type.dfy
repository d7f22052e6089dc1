/** `AuthProviderType`: the closed tag naming the protocol an upstream provider
    speaks, with its string encoding as stored in the `typ` column. */
module ProviderTypes {
  import opened Common

  /** Only standard OpenID Connect providers exist so far. */
  datatype AuthProviderType = OIDC

  /** `as_str`: the stored name of the tag. */
  function AsStr(t: AuthProviderType): (s: string)
    ensures s != []
  {
    match t
    case OIDC => "oidc"
  }

  /** `try_from(&str)`: the tag a stored name denotes; anything else is a
      BadRequest. */
  function TryFrom(value: string): (r: Result<AuthProviderType>)
    ensures r.Ok? <==> value == "oidc"
    ensures r.Ok? ==> AsStr(r.value) == value
    ensures r.Err? ==> r.error == ErrorResponse(BadRequest, "Invalid AuthProviderType")
  {
    if value == "oidc" then Ok(OIDC)
    else Err(ErrorResponse(BadRequest, "Invalid AuthProviderType"))
  }

  /** `From<String>`: like `try_from`, but an unknown name falls back to OIDC. */
  function FromString(value: string): (t: AuthProviderType)
    ensures TryFrom(value).Ok? ==> t == TryFrom(value).value
    ensures TryFrom(value).Err? ==> t == OIDC
  {
    match TryFrom(value)
    case Ok(t) => t
    case Err(_) => OIDC
  }

  /** The encoding round-trips: decoding the stored name of a tag gives the tag. */
  lemma TryFromAsStr(t: AuthProviderType)
    ensures TryFrom(AsStr(t)) == Ok(t)
    ensures FromString(AsStr(t)) == t
  {
  }
}
