/** `AuthProviderIdClaims::validate_update_user`: turning the claims of an
    upstream ID token into a local user. The local account is found by email,
    or else by the upstream subject; an account that is not linked to this
    provider and subject is refused (and its failure counters bumped), a linked
    one is refreshed from the claims, and an unknown identity becomes a new
    federated account. Profile values carried by the token are merged into the
    stored ones afterwards. */
module IdentityReconciler {
  import opened Common
  import opened Strings

  datatype AddressClaims = AddressClaims(
    formatted: Option<string>,
    streetAddress: Option<string>,
    locality: Option<string>,
    postalCode: Option<int>,
    country: Option<string>)

  /** The claims read from the ID token. `email` is optional here only so that
      its absence can be reported with a precise message. */
  datatype IdClaims = IdClaims(
    iss: string,
    sub: string,
    aud: Option<string>,
    azp: Option<string>,
    amr: Option<seq<string>>,
    email: Option<string>,
    emailVerified: Option<bool>,
    givenName: Option<string>,
    familyName: Option<string>,
    address: Option<AddressClaims>,
    birthdate: Option<string>,
    locale: Option<string>,
    phone: Option<string>)

  /** The columns of a local user that an upstream login reads or writes;
      times are unix seconds. */
  datatype User = User(
    id: string,
    email: string,
    givenName: string,
    familyName: string,
    enabled: bool,
    emailVerified: bool,
    lastLogin: Option<int>,
    lastFailedLogin: Option<int>,
    failedLoginAttempts: Option<int>,
    language: string,
    authProviderId: Option<string>,
    federationUid: Option<string>)

  /** The optional profile values stored beside a user. */
  datatype UserValues = UserValues(
    birthdate: Option<string>,
    phone: Option<string>,
    street: Option<string>,
    zip: Option<int>,
    city: Option<string>,
    country: Option<string>)

  const NoValues := UserValues(None, None, None, None, None, None)

  const UnsignedMessage := "ID token was unsigned"
  const NoEmailMessage := "No `email` in ID token claims. This is a mandatory claim"
  const MismatchMessage := "non-federated user or ID mismatch"
  const WrongProviderMessage := "invalid login from wrong auth provider"

  // ---------------------------------------------------------------------
  // Reading the token
  // ---------------------------------------------------------------------

  /** The claims segment of a compact JWT: the text between the first and the
      second '.'. A token without any '.' is unsigned. (`split` always yields
      a first piece, so the header can never be missing.) */
  function ClaimsSegment(token: string): (r: Result<string>)
    ensures r.Err? <==> '.' !in token
    ensures r.Err? ==> r.error == ErrorResponse(BadRequest, UnsignedMessage)
    ensures r.Ok? ==> '.' !in r.value && SecondSegment(token, r.value)
  {
    var parts := Split(token, '.');
    SplitHasSecondPiece(token, '.');
    if |parts| < 2 then Err(ErrorResponse(BadRequest, UnsignedMessage))
    else
      SegmentAfterFirstDot(token);
      Ok(parts[1])
  }

  /** `m` is what follows the first '.' of `token`, up to the next '.' or the end. */
  ghost predicate SecondSegment(token: string, m: string) {
    exists n | 0 <= n < |token| ::
      && '.' !in token[..n] && token[n] == '.'
      && StartsWith(token[n + 1..], m)
      && (|token| == n + 1 + |m| || token[n + 1 + |m|] == '.')
  }

  lemma SegmentAfterFirstDot(token: string)
    requires |Split(token, '.')| >= 2
    ensures '.' !in Split(token, '.')[1] && SecondSegment(token, Split(token, '.')[1])
  {
    SplitFirstPieceIsPrefix(token, '.');
    var h := Split(token, '.')[0];
    var rest := token[|h| + 1..];
    SplitFirstPieceIsPrefix(rest, '.');
    var m := Split(token, '.')[1];
    assert m == Split(rest, '.')[0];
    assert token[..|h|] == h;
    assert |token| == |h| + 1 + |m| || token[|h| + 1 + |m|] == rest[|m|];
  }

  /** The token's claims: base64 and JSON decoding are a parameter, whose
      error is passed on unchanged. */
  function TokenClaims(token: string, decode: string -> Result<IdClaims>): (r: Result<IdClaims>)
    ensures '.' !in token ==> r == Err(ErrorResponse(BadRequest, UnsignedMessage))
    ensures '.' in token ==> r == decode(ClaimsSegment(token).value)
  {
    var segment :- ClaimsSegment(token);
    decode(segment)
  }

  // ---------------------------------------------------------------------
  // The account-takeover guard and what a login does to a user
  // ---------------------------------------------------------------------

  /** A local account may be entered through this upstream login only if it is
      linked to exactly this provider and this upstream subject. */
  predicate MayFederate(user: User, sub: string, providerId: string) {
    user.federationUid == Some(sub) && user.authProviderId == Some(providerId)
  }

  /** Why an upstream login into `user` is refused, if it is. The provider
      check runs last, so its message wins when both checks fail. */
  function ForbiddenError(user: User, sub: string, providerId: string): (err: Option<string>)
    ensures err.None? <==> MayFederate(user, sub, providerId)
    ensures user.authProviderId != Some(providerId) ==> err == Some(WrongProviderMessage)
    ensures user.authProviderId == Some(providerId) && user.federationUid != Some(sub) ==>
              err == Some(MismatchMessage)
  {
    if user.authProviderId != Some(providerId) then Some(WrongProviderMessage)
    else if user.federationUid != Some(sub) then Some(MismatchMessage)
    else None
  }

  /** A refused login: the failure time is recorded and the failure counter
      goes up by one; nothing else changes. */
  function FailedLogin(user: User, now: int): (u: User)
    ensures u.lastFailedLogin == Some(now)
    ensures u.failedLoginAttempts == Some(user.failedLoginAttempts.GetOr(0) + 1)
    ensures u == user.(lastFailedLogin := u.lastFailedLogin, failedLoginAttempts := u.failedLoginAttempts)
  {
    user.(lastFailedLogin := Some(now), failedLoginAttempts := Some(user.failedLoginAttempts.GetOr(0) + 1))
  }

  /** An accepted login into an existing account: the email follows the token,
      a name follows its claim when the claim is present, the login time is
      recorded and the failure counters are cleared. Nothing else changes, in
      particular not the link to the provider. */
  function UpstreamLogin(user: User, claims: IdClaims, now: int): (u: User)
    requires claims.email.Some?
    ensures u.email == claims.email.value
    ensures u.givenName == claims.givenName.GetOr(user.givenName)
    ensures u.familyName == claims.familyName.GetOr(user.familyName)
    ensures u.lastLogin == Some(now) && u.lastFailedLogin.None? && u.failedLoginAttempts.None?
    ensures u == user.(email := u.email, givenName := u.givenName, familyName := u.familyName,
                       lastLogin := u.lastLogin, lastFailedLogin := None, failedLoginAttempts := None)
  {
    user.(email := claims.email.value,
          givenName := claims.givenName.GetOr(user.givenName),
          familyName := claims.familyName.GetOr(user.familyName),
          lastLogin := Some(now), lastFailedLogin := None, failedLoginAttempts := None)
  }

  /** The previous address recorded when a login changes a user's email. */
  function OldEmail(user: User, claims: IdClaims): (previous: Option<string>)
    requires claims.email.Some?
    ensures previous.Some? <==> user.email != claims.email.value
    ensures previous.Some? ==> previous.value == user.email
  {
    if Some(user.email) != claims.email then Some(user.email) else None
  }

  /** The language of a new account: the token's locale, or the default. */
  function LanguageOf(claims: IdClaims, languageOf: string -> string, defaultLanguage: string): (language: string)
    ensures claims.locale.Some? ==> language == languageOf(claims.locale.value)
    ensures claims.locale.None? ==> language == defaultLanguage
  {
    if claims.locale.Some? then languageOf(claims.locale.value) else defaultLanguage
  }

  /** A new federated account, linked to this provider and subject, enabled,
      logged in now, with "N/A" for each name the token does not give. */
  function NewFederatedUser(id: string, claims: IdClaims, providerId: string, now: int,
                            languageOf: string -> string, defaultLanguage: string): (u: User)
    requires claims.email.Some?
    ensures MayFederate(u, claims.sub, providerId)
    ensures u.id == id && u.email == claims.email.value && u.enabled
    ensures u.emailVerified == claims.emailVerified.GetOr(false)
    ensures u.givenName == claims.givenName.GetOr("N/A") && u.familyName == claims.familyName.GetOr("N/A")
    ensures u.lastLogin == Some(now) && u.lastFailedLogin.None? && u.failedLoginAttempts.None?
    ensures u.language == LanguageOf(claims, languageOf, defaultLanguage)
  {
    User(id, claims.email.value, claims.givenName.GetOr("N/A"), claims.familyName.GetOr("N/A"),
         true, claims.emailVerified.GetOr(false), Some(now), None, None,
         LanguageOf(claims, languageOf, defaultLanguage), Some(providerId), Some(claims.sub))
  }

  // ---------------------------------------------------------------------
  // Profile values
  // ---------------------------------------------------------------------

  /** The token carries profile values: a birthdate, a phone number or an
      address (even one whose parts are all absent). */
  predicate HasProfileClaims(claims: IdClaims) {
    claims.birthdate.Some? || claims.phone.Some? || claims.address.Some?
  }

  function Overlay<T>(claim: Option<T>, stored: Option<T>): Option<T> {
    if claim.Some? then claim else stored
  }

  /** The stored values with each value the token gives written over them.
      From an address only the street, the postal code and the country are
      taken: the locality never reaches `city`, and `formatted` is ignored. */
  function MergedValues(stored: UserValues, claims: IdClaims): (merged: UserValues)
    ensures merged.birthdate == (if claims.birthdate.Some? then claims.birthdate else stored.birthdate)
    ensures merged.phone == (if claims.phone.Some? then claims.phone else stored.phone)
    ensures merged.city == stored.city
    ensures claims.address.None? ==> merged.(birthdate := stored.birthdate, phone := stored.phone) == stored
    ensures claims.address.Some? ==>
              && merged.street == (if claims.address.value.streetAddress.Some? then claims.address.value.streetAddress else stored.street)
              && merged.zip == (if claims.address.value.postalCode.Some? then claims.address.value.postalCode else stored.zip)
              && merged.country == (if claims.address.value.country.Some? then claims.address.value.country else stored.country)
    ensures !HasProfileClaims(claims) ==> merged == stored
  {
    var withBirthdate := stored.(birthdate := Overlay(claims.birthdate, stored.birthdate));
    var withPhone := withBirthdate.(phone := Overlay(claims.phone, stored.phone));
    match claims.address
    case None => withPhone
    case Some(addr) =>
      withPhone.(street := Overlay(addr.streetAddress, stored.street),
                 country := Overlay(addr.country, stored.country),
                 zip := Overlay(addr.postalCode, stored.zip))
  }

  /** The values stored for `id`, or all-absent values when there are none. */
  function StoredValues(values: map<string, UserValues>, id: string): (v: UserValues)
    ensures id in values ==> v == values[id]
    ensures id !in values ==> v.birthdate.None? && v.phone.None? && v.street.None?
                              && v.zip.None? && v.city.None? && v.country.None?
  {
    if id in values then values[id] else NoValues
  }

  /** What the login does to the profile values of the user `id`. */
  ghost predicate ValuesUpdated(values0: map<string, UserValues>, values1: map<string, UserValues>,
                                id: string, claims: IdClaims) {
    if HasProfileClaims(claims) then values1 == values0[id := MergedValues(StoredValues(values0, id), claims)]
    else values1 == values0
  }

  // ---------------------------------------------------------------------
  // Properties of the pieces
  // ---------------------------------------------------------------------

  /** A local account that was never federated can never be entered through
      an upstream login, whatever subject and provider the token names. */
  lemma LocalAccountIsNeverTakenOver(user: User, sub: string, providerId: string)
    requires user.federationUid.None?
    ensures ForbiddenError(user, sub, providerId).Some?
  {
  }

  /** A newly created federated account passes the guard on its next login
      through the same provider and subject, and only then. */
  lemma NewFederatedUserLogsInAgain(id: string, claims: IdClaims, providerId: string, now: int,
                                    languageOf: string -> string, defaultLanguage: string,
                                    sub: string, otherProvider: string)
    requires claims.email.Some?
    ensures (ForbiddenError(NewFederatedUser(id, claims, providerId, now, languageOf, defaultLanguage), sub, otherProvider).None?
             <==> sub == claims.sub && otherProvider == providerId)
  {
  }

  /** An accepted login keeps the account linked, so it passes the guard again. */
  lemma UpstreamLoginKeepsLink(user: User, claims: IdClaims, now: int, providerId: string)
    requires claims.email.Some? && MayFederate(user, claims.sub, providerId)
    ensures MayFederate(UpstreamLogin(user, claims, now), claims.sub, providerId)
  {
  }

  /** Refused logins one after the other, at the given times. */
  function FailedLogins(user: User, times: seq<int>): User
    decreases |times|
  {
    if times == [] then user else FailedLogins(FailedLogin(user, times[0]), times[1..])
  }

  /** Each refused login adds exactly one to the failure counter and the last
      one's time is the recorded failure time; an accepted login afterwards
      clears both. */
  lemma {:induction false} FailedLoginsCount(user: User, times: seq<int>)
    requires times != []
    decreases |times|
    ensures FailedLogins(user, times).failedLoginAttempts == Some(user.failedLoginAttempts.GetOr(0) + |times|)
    ensures FailedLogins(user, times).lastFailedLogin == Some(times[|times| - 1])
    ensures FailedLogins(user, times).(lastFailedLogin := None, failedLoginAttempts := None)
            == user.(lastFailedLogin := None, failedLoginAttempts := None)
  {
    var next := FailedLogin(user, times[0]);
    if |times| > 1 {
      FailedLoginsCount(next, times[1..]);
      assert times[1..][|times[1..]| - 1] == times[|times| - 1];
    } else {
      assert FailedLogins(next, times[1..]) == next;
    }
  }

  /** Merging the same claims twice changes nothing more than merging once. */
  lemma MergedValuesIdempotent(stored: UserValues, claims: IdClaims)
    ensures MergedValues(MergedValues(stored, claims), claims) == MergedValues(stored, claims)
  {
  }

  // ---------------------------------------------------------------------
  // The user store and the whole operation
  // ---------------------------------------------------------------------

  /** Which existing account a login with `email` and upstream subject `sub`
      is matched to: the account with that email if there is one, else some
      account linked to that subject, else none. */
  ghost predicate Matched(users: map<string, User>, email: string, sub: string, existing: Option<User>) {
    if exists id | id in users :: users[id].email == email then
      existing.Some? && existing.value.id in users && users[existing.value.id] == existing.value
      && existing.value.email == email
    else if exists id | id in users :: users[id].federationUid == Some(sub) then
      existing.Some? && existing.value.id in users && users[existing.value.id] == existing.value
      && existing.value.federationUid == Some(sub)
    else existing.None?
  }

  /** The outcome of a login into the existing account `u`: refused (failure
      recorded, nothing else written) or accepted (account refreshed, profile
      values merged). */
  ghost predicate LoggedInExisting(users0: map<string, User>, values0: map<string, UserValues>,
                                   users1: map<string, User>, values1: map<string, UserValues>,
                                   claims: IdClaims, providerId: string, now: int,
                                   u: User, r: Result<User>, oldEmail: Option<string>)
    requires claims.email.Some?
  {
    if ForbiddenError(u, claims.sub, providerId).Some? then
      && r == Err(ErrorResponse(Forbidden, ForbiddenError(u, claims.sub, providerId).value))
      && users1 == users0[u.id := FailedLogin(u, now)]
      && values1 == values0
      && oldEmail.None?
    else
      && r == Ok(UpstreamLogin(u, claims, now))
      && users1 == users0[u.id := r.value]
      && oldEmail == OldEmail(u, claims)
      && ValuesUpdated(values0, values1, u.id, claims)
  }

  /** The outcome of a login that matched no account: a new federated account
      under `newId`, profile values merged. */
  ghost predicate CreatedNew(users0: map<string, User>, values0: map<string, UserValues>,
                             users1: map<string, User>, values1: map<string, UserValues>,
                             claims: IdClaims, providerId: string, now: int,
                             languageOf: string -> string, defaultLanguage: string, newId: string,
                             r: Result<User>)
    requires claims.email.Some?
  {
    && r == Ok(NewFederatedUser(newId, claims, providerId, now, languageOf, defaultLanguage))
    && users1 == users0[newId := r.value]
    && ValuesUpdated(values0, values1, newId, claims)
  }

  /** The outcome of a login whose claims carry an email, once the matching
      account (if any) is known. */
  ghost predicate Reconciled(users0: map<string, User>, values0: map<string, UserValues>,
                             users1: map<string, User>, values1: map<string, UserValues>,
                             claims: IdClaims, providerId: string, now: int,
                             languageOf: string -> string, defaultLanguage: string, newId: string,
                             existing: Option<User>, r: Result<User>, oldEmail: Option<string>)
    requires claims.email.Some?
  {
    match existing
    case Some(u) => LoggedInExisting(users0, values0, users1, values1, claims, providerId, now, u, r, oldEmail)
    case None =>
      && CreatedNew(users0, values0, users1, values1, claims, providerId, now,
                    languageOf, defaultLanguage, newId, r)
      && oldEmail.None?
  }

  /** The whole of `validate_update_user` on the tables: an unreadable token
      or one without an email writes nothing; otherwise the login is matched
      and reconciled. */
  ghost predicate UpdatedFromToken(users0: map<string, User>, values0: map<string, UserValues>,
                                   users1: map<string, User>, values1: map<string, UserValues>,
                                   token: string, providerId: string, now: int,
                                   decode: string -> Result<IdClaims>,
                                   languageOf: string -> string, defaultLanguage: string, newId: string,
                                   existing: Option<User>, r: Result<User>, oldEmail: Option<string>)
  {
    match TokenClaims(token, decode)
    case Err(e) => r == Err(e) && users1 == users0 && values1 == values0
    case Ok(claims) =>
      if claims.email.None? then
        r == Err(ErrorResponse(BadRequest, NoEmailMessage)) && users1 == users0 && values1 == values0
      else
        && Matched(users0, claims.email.value, claims.sub, existing)
        && Reconciled(users0, values0, users1, values1, claims, providerId, now,
                      languageOf, defaultLanguage, newId, existing, r, oldEmail)
  }

  /** The `users` and `user_values` tables. */
  class UserStore {
    var users: map<string, User>
    var values: map<string, UserValues>

    /** Rows are keyed by their id and no two users share an email. */
    ghost predicate Valid()
      reads this
    {
      && (forall id | id in users :: users[id].id == id)
      && (forall a, b | a in users && b in users && users[a].email == users[b].email :: a == b)
    }

    constructor()
      ensures Valid() && users == map[] && values == map[]
    {
      users := map[];
      values := map[];
    }

    /** `User::find_by_email`. */
    method FindByEmail(email: string) returns (found: Option<User>)
      requires Valid()
      ensures found.Some? <==> exists id | id in users :: users[id].email == email
      ensures found.Some? ==>
                found.value.id in users && users[found.value.id] == found.value && found.value.email == email
    {
      if exists id | id in users :: users[id].email == email {
        var id :| id in users && users[id].email == email;
        found := Some(users[id]);
      } else {
        found := None;
      }
    }

    /** `User::find_by_federation_uid`. */
    method FindByFederationUid(sub: string) returns (found: Option<User>)
      requires Valid()
      ensures found.Some? <==> exists id | id in users :: users[id].federationUid == Some(sub)
      ensures found.Some? ==>
                found.value.id in users && users[found.value.id] == found.value && found.value.federationUid == Some(sub)
    {
      if exists id | id in users :: users[id].federationUid == Some(sub) {
        var id :| id in users && users[id].federationUid == Some(sub);
        found := Some(users[id]);
      } else {
        found := None;
      }
    }

    /** `User::save`: overwrite an existing row. */
    method SaveUser(user: User)
      requires Valid() && user.id in users
      requires forall id | id in users && id != user.id :: users[id].email != user.email
      modifies this
      ensures Valid()
      ensures users == old(users)[user.id := user] && values == old(values)
    {
      users := users[user.id := user];
    }

    /** `User::create_federated`: insert a new row. */
    method CreateFederated(user: User)
      requires Valid() && user.id !in users
      requires forall id | id in users :: users[id].email != user.email
      modifies this
      ensures Valid()
      ensures users == old(users)[user.id := user] && values == old(values)
    {
      users := users[user.id := user];
    }

    /** `UserValues::upsert`. */
    method UpsertValues(id: string, v: UserValues)
      modifies this
      ensures users == old(users) && values == old(values)[id := v]
    {
      values := values[id := v];
    }

    /** The part of `validate_update_user` after the claims are read: match,
        guard, update or create, then merge the profile values. */
    method Reconcile(claims: IdClaims, providerId: string, now: int,
                     languageOf: string -> string, defaultLanguage: string, newId: string)
      returns (r: Result<User>, oldEmail: Option<string>, ghost existing: Option<User>)
      requires Valid() && newId !in users && claims.email.Some?
      modifies this
      ensures Valid()
      ensures Matched(old(users), claims.email.value, claims.sub, existing)
      ensures Reconciled(old(users), old(values), users, values, claims, providerId, now,
                         languageOf, defaultLanguage, newId, existing, r, oldEmail)
    {
      var email := claims.email.value;
      var found := FindByEmail(email);
      if found.None? {
        found := FindByFederationUid(claims.sub);
      }
      existing := found;
      match found
      case Some(u) =>
        r, oldEmail := LoginExisting(u, claims, providerId, now);
      case None =>
        r := CreateNew(claims, providerId, now, languageOf, defaultLanguage, newId);
        oldEmail := None;
    }

    /** An upstream login into the existing account `u`. The `oldEmail` output
        stands for the `old_email` argument `validate_update_user` hands to
        `User::save`, which `SaveUser` does not model. */
    method LoginExisting(u: User, claims: IdClaims, providerId: string, now: int)
      returns (r: Result<User>, oldEmail: Option<string>)
      requires Valid() && claims.email.Some?
      requires u.id in users && users[u.id] == u
      requires forall id | id in users && id != u.id :: users[id].email != claims.email.value
      modifies this
      ensures Valid()
      ensures LoggedInExisting(old(users), old(values), users, values, claims, providerId, now,
                               u, r, oldEmail)
    {
      var user := u;
      oldEmail := None;
      var forbiddenError: Option<string> := None;
      if user.federationUid.None? || user.federationUid != Some(claims.sub) {
        forbiddenError := Some(MismatchMessage);
      }
      if user.authProviderId != Some(providerId) {
        forbiddenError := Some(WrongProviderMessage);
      }
      assert forbiddenError == ForbiddenError(u, claims.sub, providerId);

      if forbiddenError.Some? {
        user := user.(lastFailedLogin := Some(now));
        user := user.(failedLoginAttempts := Some(user.failedLoginAttempts.GetOr(0) + 1));
        assert user == FailedLogin(u, now);
        SaveUser(user);
        r := Err(ErrorResponse(Forbidden, forbiddenError.value));
        return;
      }

      if Some(user.email) != claims.email {
        oldEmail := Some(user.email);
        user := user.(email := claims.email.value);
      }
      if claims.givenName.Some? && user.givenName != claims.givenName.value {
        user := user.(givenName := claims.givenName.value);
      }
      if claims.familyName.Some? && user.familyName != claims.familyName.value {
        user := user.(familyName := claims.familyName.value);
      }
      user := user.(lastLogin := Some(now));
      user := user.(lastFailedLogin := None);
      user := user.(failedLoginAttempts := None);
      assert user == UpstreamLogin(u, claims, now);
      SaveUser(user);
      MergeValues(user.id, claims);
      r := Ok(user);
    }

    /** An upstream login with no matching account: create one. */
    method CreateNew(claims: IdClaims, providerId: string, now: int,
                     languageOf: string -> string, defaultLanguage: string, newId: string)
      returns (r: Result<User>)
      requires Valid() && newId !in users && claims.email.Some?
      requires forall id | id in users :: users[id].email != claims.email.value
      modifies this
      ensures Valid()
      ensures CreatedNew(old(users), old(values), users, values, claims, providerId, now,
                         languageOf, defaultLanguage, newId, r)
    {
      var user := NewFederatedUser(newId, claims, providerId, now, languageOf, defaultLanguage);
      CreateFederated(user);
      MergeValues(user.id, claims);
      r := Ok(user);
    }

    /** The profile-values step: upsert only when the token carries any. */
    method MergeValues(id: string, claims: IdClaims)
      modifies this
      ensures users == old(users)
      ensures ValuesUpdated(old(values), values, id, claims)
    {
      var foundValues := false;
      var userValues := StoredValues(values, id);
      ghost var stored := userValues;
      if claims.birthdate.Some? {
        userValues := userValues.(birthdate := claims.birthdate);
        foundValues := true;
      }
      if claims.phone.Some? {
        userValues := userValues.(phone := claims.phone);
        foundValues := true;
      }
      if claims.address.Some? {
        var addr := claims.address.value;
        if addr.streetAddress.Some? {
          userValues := userValues.(street := addr.streetAddress);
        }
        if addr.country.Some? {
          userValues := userValues.(country := addr.country);
        }
        if addr.postalCode.Some? {
          userValues := userValues.(zip := addr.postalCode);
        }
        foundValues := true;
      }
      assert userValues == MergedValues(stored, claims);
      if foundValues {
        UpsertValues(id, userValues);
      }
    }

    /** `validate_update_user`. `decode` stands for base64 and JSON decoding of
        the claims segment, `now` for the clock and `newId` for the id a new
        user receives. */
    method ValidateUpdateUser(token: string, providerId: string, now: int,
                              decode: string -> Result<IdClaims>,
                              languageOf: string -> string, defaultLanguage: string,
                              newId: string)
      returns (r: Result<User>, oldEmail: Option<string>, ghost existing: Option<User>)
      requires Valid() && newId !in users
      modifies this
      ensures Valid()
      ensures '.' !in token ==> r == Err(ErrorResponse(BadRequest, UnsignedMessage))
      ensures UpdatedFromToken(old(users), old(values), users, values, token, providerId, now,
                               decode, languageOf, defaultLanguage, newId, existing, r, oldEmail)
    {
      oldEmail := None;
      existing := None;
      var decoded := TokenClaims(token, decode);
      if decoded.Err? {
        r := Err(decoded.error);
        return;
      }
      var claims := decoded.value;
      if claims.email.None? {
        r := Err(ErrorResponse(BadRequest, NoEmailMessage));
        return;
      }
      r, oldEmail, existing := Reconcile(claims, providerId, now, languageOf, defaultLanguage, newId);
    }
  }
}
