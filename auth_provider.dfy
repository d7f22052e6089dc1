/** The provider registry of `AuthProvider`: the durable rows (the
    `auth_providers` table) and the cache-aside layer in front of them. A
    single provider is cached under `cache_idx(id)`, the list of all providers
    under `cache_idx("all")` and the rendered login template under its own
    key; every write clears the last two. */
module AuthProviders {
  import opened Common
  import opened ProviderTypes
  import opened Scope

  /** One configured upstream provider (a row of `auth_providers`). */
  datatype AuthProvider = AuthProvider(
    id: string,
    name: string,
    typ: AuthProviderType,
    issuer: string,
    authorizationEndpoint: string,
    tokenEndpoint: string,
    userinfoEndpoint: string,
    clientId: string,
    secret: Option<seq<byte>>,
    scope: string,
    allowInsecureRequests: bool,
    usePkce: bool,
    rootPem: Option<string>,
    logo: Option<seq<byte>>,
    logoType: Option<string>)

  /** `ProviderRequest`: the admin payload a provider is created or updated from. */
  datatype ProviderRequest = ProviderRequest(
    name: string,
    issuer: string,
    authorizationEndpoint: string,
    tokenEndpoint: string,
    userinfoEndpoint: string,
    clientId: string,
    clientSecret: Option<string>,
    scope: string,
    dangerAllowInsecure: Option<bool>,
    usePkce: bool,
    rootPem: Option<string>)

  /** The process-wide symmetric cipher (`EncValue`), injected: `encrypt` may
      fail, `decrypt` fails on bytes it did not produce. */
  datatype Cipher = Cipher(encrypt: string -> Option<seq<byte>>, decrypt: seq<byte> -> Option<string>)

  /** Whatever the cipher encrypts, it decrypts back. */
  ghost predicate RoundTrips(c: Cipher) {
    forall plain :: c.encrypt(plain).Some? ==> c.decrypt(c.encrypt(plain).value) == Some(plain)
  }

  /** `secret_encrypted`: an absent secret stays absent, a present one is
      encrypted or the whole operation fails. */
  function SecretEncrypted(secret: Option<string>, cipher: Cipher): (r: Result<Option<seq<byte>>>)
    ensures r.Err? <==> secret.Some? && cipher.encrypt(secret.value).None?
    ensures r.Ok? ==> (r.value.Some? <==> secret.Some?)
  {
    match secret
    case None => Ok(None)
    case Some(plain) =>
      match cipher.encrypt(plain)
      case None => Err(ErrorResponse(Internal, "secret encryption failed"))
      case Some(bytes) => Ok(Some(bytes))
  }

  /** `get_secret_cleartext`: a failed decryption is an error, never an empty secret. */
  function SecretCleartext(secret: Option<seq<byte>>, cipher: Cipher): (r: Result<Option<string>>)
    ensures r.Err? <==> secret.Some? && cipher.decrypt(secret.value).None?
    ensures r.Ok? ==> (r.value.Some? <==> secret.Some?)
  {
    match secret
    case None => Ok(None)
    case Some(bytes) =>
      match cipher.decrypt(bytes)
      case None => Err(ErrorResponse(Internal, "secret decryption failed"))
      case Some(plain) => Ok(Some(plain))
  }

  /** A stored secret reads back as the plaintext it was created from. */
  lemma SecretRoundTrip(secret: Option<string>, cipher: Cipher)
    requires RoundTrips(cipher)
    requires SecretEncrypted(secret, cipher).Ok?
    ensures SecretCleartext(SecretEncrypted(secret, cipher).value, cipher) == Ok(secret)
  {
    if secret.Some? {
      assert cipher.decrypt(cipher.encrypt(secret.value).value) == Some(secret.value);
    }
  }

  /** `try_from_id_req`: the full record for `id`, with the scope normalised
      and the secret encrypted; the type is always OIDC and no logo is set. */
  function TryFromIdReq(id: string, req: ProviderRequest, cipher: Cipher): (r: Result<AuthProvider>)
    ensures r.Err? <==> SecretEncrypted(req.clientSecret, cipher).Err?
    ensures r.Ok? ==>
      && r.value.id == id
      && r.value.scope == CleanupScope(req.scope)
      && r.value.secret == SecretEncrypted(req.clientSecret, cipher).value
      && r.value.allowInsecureRequests == (req.dangerAllowInsecure == Some(true))
      && r.value.typ == OIDC && r.value.logo.None? && r.value.logoType.None?
    ensures r.Ok? ==>
      && r.value.name == req.name && r.value.issuer == req.issuer
      && r.value.authorizationEndpoint == req.authorizationEndpoint
      && r.value.tokenEndpoint == req.tokenEndpoint
      && r.value.userinfoEndpoint == req.userinfoEndpoint
      && r.value.clientId == req.clientId
      && r.value.usePkce == req.usePkce && r.value.rootPem == req.rootPem
  {
    var secret :- SecretEncrypted(req.clientSecret, cipher);
    Ok(AuthProvider(
      id, req.name, OIDC, req.issuer, req.authorizationEndpoint, req.tokenEndpoint,
      req.userinfoEndpoint, req.clientId, secret, CleanupScope(req.scope),
      req.dangerAllowInsecure.GetOr(false), req.usePkce, req.rootPem, None, None))
  }

  /** Cache keys: `cache_idx(suffix)` for a provider id (or "all"), and the
      login-template key. */
  datatype CacheKey = ProviderIdx(suffix: string) | TemplateIdx

  /** `cache_idx`. */
  function CacheIdx(id: string): (k: CacheKey)
    ensures k != TemplateIdx && k.suffix == id
  {
    ProviderIdx(id)
  }

  /** Distinct ids have distinct cache keys, and none is the template's. */
  lemma CacheIdxInjective(a: string, b: string)
    ensures CacheIdx(a) == CacheIdx(b) <==> a == b
  {
  }

  /** The key of the list of all providers, `cache_idx("all")`. */
  const AllKey: CacheKey := ProviderIdx("all")

  datatype CacheValue = Single(provider: AuthProvider) | All(providers: seq<AuthProvider>)

  /** `ps` lists every row of `db` exactly once. */
  ghost predicate ListsExactly(ps: seq<AuthProvider>, db: map<string, AuthProvider>) {
    (forall p :: p in ps <==> p in db.Values) && |ps| == |db|
  }

  /** Cache-aside coherence: a per-id entry is the db row of that id, and the
      "all" entry, when present, lists exactly the db rows. */
  ghost predicate CoherentMaps(db: map<string, AuthProvider>, cache: map<CacheKey, CacheValue>) {
    && (forall id | ProviderIdx(id) in cache && id != "all" ::
          id in db && cache[ProviderIdx(id)] == Single(db[id]))
    && (AllKey in cache ==> cache[AllKey].All? && ListsExactly(cache[AllKey].providers, db))
  }

  /** The provider `find` answers with: the cached entry for the id if there
      is one (nothing if it is not a single provider), else the row. */
  function Served(db: map<string, AuthProvider>, cache: map<CacheKey, CacheValue>, id: string)
    : (p: Option<AuthProvider>)
    ensures CacheIdx(id) !in cache ==> (p.Some? <==> id in db) && (p.Some? ==> p.value == db[id])
    ensures CacheIdx(id) in cache ==> (p.Some? <==> cache[CacheIdx(id)].Single?)
  {
    if CacheIdx(id) in cache then
      match cache[CacheIdx(id)]
      case Single(provider) => Some(provider)
      case _ => None
    else if id in db then Some(db[id])
    else None
  }

  /** With a coherent cache, whatever `find` serves is exactly the db row,
      whether it came from the cache or not. */
  lemma CoherentServesRow(db: map<string, AuthProvider>, cache: map<CacheKey, CacheValue>, id: string)
    requires CoherentMaps(db, cache) && "all" !in db
    ensures Served(db, cache, id) == (if id in db then Some(db[id]) else None)
  {
    if CacheIdx(id) in cache && id != "all" {
      assert ProviderIdx(id) in cache;
    }
  }

  class ProviderRegistry {
    /** The `auth_providers` table, by id. */
    var db: map<string, AuthProvider>
    /** The 12-hour configuration cache. */
    var cache: map<CacheKey, CacheValue>

    /** Rows are stored under their own id, and no id collides with the
        "all" key (store ids are random alphanumeric strings). */
    ghost predicate Valid()
      reads this
    {
      (forall id | id in db :: db[id].id == id) && "all" !in db
    }

    /** Cache-aside coherence: a per-id entry is the db row of that id, and the
        "all" entry, when present, lists exactly the db rows. */
    ghost predicate Coherent()
      reads this
    {
      CoherentMaps(db, cache)
    }

    constructor ()
      ensures Valid() && Coherent()
      ensures db == map[] && cache == map[]
    {
      db := map[];
      cache := map[];
    }

    /** `invalidate_cache_all`: drop the "all" list and the login template. */
    method InvalidateCacheAll()
      requires Valid()
      modifies this
      ensures Valid()
      ensures db == old(db) && cache == old(cache) - {AllKey, TemplateIdx}
      ensures old(Coherent()) ==> Coherent()
    {
      cache := cache - {AllKey, TemplateIdx};
    }

    /** `create`: insert the new row, cache it, invalidate the aggregates. An
        id already in the table is a database error. */
    method Create(payload: ProviderRequest, newId: string, cipher: Cipher) returns (r: Result<AuthProvider>)
      requires Valid() && newId != "all"
      modifies this
      ensures Valid()
      ensures old(Coherent()) ==> Coherent()
      ensures TryFromIdReq(newId, payload, cipher).Err? ==>
                r == TryFromIdReq(newId, payload, cipher) && unchanged(this)
      ensures TryFromIdReq(newId, payload, cipher).Ok? && newId in old(db) ==>
                r.Err? && r.error.kind == Database && unchanged(this)
      ensures TryFromIdReq(newId, payload, cipher).Ok? && newId !in old(db) ==> r.Ok?
      ensures r.Ok? ==>
                && r == TryFromIdReq(newId, payload, cipher)
                && db == old(db)[newId := r.value]
                && cache == old(cache)[CacheIdx(newId) := Single(r.value)] - {AllKey, TemplateIdx}
    {
      r := TryFromIdReq(newId, payload, cipher);
      if r.Err? {
        return;
      }
      if newId in db {
        return Err(ErrorResponse(Database, "duplicate key value violates unique constraint"));
      }
      var provider := r.value;
      db := db[newId := provider];
      cache := cache[CacheIdx(newId) := Single(provider)];
      InvalidateCacheAll();
    }

    /** `find`: cache first, then the table (repopulating the cache). Under
        coherence the answer is exactly the db row, whatever the cache held. */
    method Find(id: string) returns (r: Result<AuthProvider>)
      requires Valid()
      modifies this
      ensures Valid() && db == old(db)
      ensures old(Coherent()) ==> Coherent()
      ensures r.Ok? <==> Served(old(db), old(cache), id).Some?
      ensures r.Ok? ==> r.value == Served(old(db), old(cache), id).value
      ensures old(Coherent()) ==> (r.Ok? <==> id in db) && (r.Ok? ==> r.value == db[id])
      ensures CacheIdx(id) in old(cache) && old(cache)[CacheIdx(id)].Single? ==>
                r == Ok(old(cache)[CacheIdx(id)].provider)
      ensures r.Err? && CacheIdx(id) !in old(cache) ==> r.error.kind == NotFound
      ensures r.Err? && CacheIdx(id) in old(cache) ==> r.error.kind == Internal
      ensures CacheIdx(id) in old(cache) || id !in db ==> cache == old(cache)
      ensures CacheIdx(id) !in old(cache) && id in db ==> cache == old(cache)[CacheIdx(id) := Single(db[id])]
    {
      if CacheIdx(id) in cache {
        match cache[CacheIdx(id)]
        case Single(p) => return Ok(p);
        case _ => return Err(ErrorResponse(Internal, "cached value has an unexpected type"));
      }
      if id !in db {
        return Err(ErrorResponse(NotFound, "no rows returned by a query that expected to return at least one row"));
      }
      var row := db[id];
      cache := cache[CacheIdx(id) := Single(row)];
      r := Ok(row);
    }

    /** `find_all`: the cached list, or every row of the table (in whatever
        order the query returns them), which is then cached. */
    method FindAll() returns (r: Result<seq<AuthProvider>>)
      requires Valid()
      modifies this
      ensures Valid() && db == old(db)
      ensures old(Coherent()) ==> Coherent() && r.Ok? && ListsExactly(r.value, db)
      ensures AllKey !in old(cache) ==> r.Ok? && ListsExactly(r.value, db) && cache == old(cache)[AllKey := All(r.value)]
      ensures AllKey in old(cache) ==> cache == old(cache)
      ensures AllKey in old(cache) && old(cache)[AllKey].All? ==> r == Ok(old(cache)[AllKey].providers)
      ensures AllKey in old(cache) && !old(cache)[AllKey].All? ==> r.Err? && r.error.kind == Internal
    {
      if AllKey in cache {
        match cache[AllKey]
        case All(ps) => return Ok(ps);
        case _ => return Err(ErrorResponse(Internal, "cached value has an unexpected type"));
      }
      var rows: seq<AuthProvider> := [];
      var remaining := db.Keys;
      while remaining != {}
        invariant remaining <= db.Keys
        invariant |rows| + |remaining| == |db.Keys|
        invariant forall k | 0 <= k < |rows| :: rows[k].id in db.Keys - remaining && db[rows[k].id] == rows[k]
        invariant forall id | id in db.Keys - remaining :: db[id] in rows
        decreases remaining
      {
        var id :| id in remaining;
        rows := rows + [db[id]];
        remaining := remaining - {id};
      }
      assert ListsExactly(rows, db) by {
        assert |db.Keys| == |db|;
        forall p | p in db.Values ensures p in rows {
          var id :| id in db && db[id] == p;
        }
      }
      cache := cache[AllKey := All(rows)];
      r := Ok(rows);
    }

    /** `delete`: remove the row, invalidate the aggregates and the id's entry. */
    method Delete(id: string)
      requires Valid()
      modifies this
      ensures Valid()
      ensures old(Coherent()) ==> Coherent()
      ensures db == old(db) - {id}
      ensures cache == old(cache) - {AllKey, TemplateIdx, CacheIdx(id)}
      ensures CacheIdx(id) !in cache && id !in db
    {
      db := db - {id};
      InvalidateCacheAll();
      cache := cache - {CacheIdx(id)};
    }

    /** `save`: an UPDATE of the row with the same id (a no-op when there is
        none), then invalidation and a fresh per-id cache entry. Coherence
        survives only when the row exists: otherwise the cache now holds a
        provider the table does not have. */
    method Save(p: AuthProvider)
      requires Valid()
      modifies this
      ensures Valid()
      ensures db == if p.id in old(db) then old(db)[p.id := p] else old(db)
      ensures cache == (old(cache) - {AllKey, TemplateIdx})[CacheIdx(p.id) := Single(p)]
      ensures old(Coherent()) && p.id in old(db) ==> Coherent()
    {
      if p.id in db {
        db := db[p.id := p];
      }
      InvalidateCacheAll();
      cache := cache[CacheIdx(p.id) := Single(p)];
    }

    /** `update`: rebuild the whole record from the request and save it. */
    method Update(id: string, payload: ProviderRequest, cipher: Cipher) returns (r: Result<()>)
      requires Valid()
      modifies this
      ensures Valid()
      ensures r.Err? <==> TryFromIdReq(id, payload, cipher).Err?
      ensures r.Err? ==> unchanged(this)
      ensures r.Ok? ==>
        var p := TryFromIdReq(id, payload, cipher).value;
        && db == (if id in old(db) then old(db)[id := p] else old(db))
        && cache == (old(cache) - {AllKey, TemplateIdx})[CacheIdx(id) := Single(p)]
      ensures r.Ok? && old(Coherent()) && id in old(db) ==> Coherent()
    {
      var provider := TryFromIdReq(id, payload, cipher);
      if provider.Err? {
        return Err(provider.error);
      }
      Save(provider.value);
      r := Ok(());
    }
  }

  /** An update of an id the table does not have still caches the record, so
      a following `find` returns a provider that has no row. */
  method UpdateOfMissingIdIsFoundInCache(p: AuthProvider) returns (found: Result<AuthProvider>)
    requires p.id != "all"
    ensures found == Ok(p)
  {
    var registry := new ProviderRegistry();
    registry.Save(p);
    assert p.id !in registry.db;
    found := registry.Find(p.id);
  }
}
