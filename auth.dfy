/**
 * The authentication middleware that runs before every handler, and the
 * inclusive-or permission rule the generation handlers apply afterwards.
 */
module Auth {
  import opened Wrappers
  import opened Text

  /** The allow-lists a valid API key carries into the handlers. */
  datatype Permissions = Permissions(allowedProviders: seq<string>, allowedModels: seq<string>)

  /** A row of the `api_keys` table (its JSON list columns already decoded). */
  datatype ApiKeyRecord = ApiKeyRecord(
    keyHash: string,
    keyPrefix: string,
    fullKey: Option<string>,
    allowedProviders: seq<string>,
    allowedModels: seq<string>,
    isActive: bool)

  /** The key table, indexed by `key_hash` (a unique column). */
  type KeyStore = map<string, ApiKeyRecord>

  /** What the middleware reads of a request. */
  datatype HttpRequest = HttpRequest(httpMethod: string, path: string, authorization: Option<string>)

  /** Hand the request on (with the permissions attached, if any), or answer it with an error. */
  datatype AuthDecision = Continue(permissions: Option<Permissions>) | Reject(status: int, message: string)

  const BearerPrefix: string := "Bearer "

  /** The bearer token of an `Authorization` header: everything after a leading, case-sensitive `Bearer `. */
  function BearerToken(header: Option<string>): (t: Option<string>)
    ensures t.Some? <==> header.Some? && StartsWith(header.value, BearerPrefix)
    ensures t.Some? ==> header.value == BearerPrefix + t.value
  {
    if header.Some? && header.value != "" && StartsWith(header.value, BearerPrefix) then
      assert header.value == header.value[..7] + header.value[7..];
      Some(header.value[7..])
    else None
  }

  /** Extracting the token from `Bearer <key>` gives the key back, whatever it is. */
  lemma BearerTokenRoundTrip(key: string)
    ensures BearerToken(Some(BearerPrefix + key)) == Some(key)
  {
    assert (BearerPrefix + key)[..7] == BearerPrefix;
  }

  /** The key lookup: only an active record with this hash matches. */
  function ActiveRecord(store: KeyStore, keyHash: string): (r: Option<ApiKeyRecord>)
    ensures r.Some? <==> keyHash in store && store[keyHash].isActive
    ensures r.Some? ==> r.value == store[keyHash]
  {
    if keyHash in store && store[keyHash].isActive then Some(store[keyHash]) else None
  }

  predicate IsAdminPath(path: string) {
    StartsWith(path, "/v2/admin/")
  }

  predicate IsGeneratePath(path: string) {
    StartsWith(path, "/v2/generate") || StartsWith(path, "/v1/completions")
  }

  lemma AdminPathIsNotGeneratePath(path: string)
    ensures IsAdminPath(path) ==> !IsGeneratePath(path)
  {
    if IsAdminPath(path) {
      assert path[..10] == "/v2/admin/";
      assert path[2] == '2' && path[4] == 'a';
      assert |path| >= 12 ==> path[..12][4] == 'a';
      assert |path| >= 15 ==> path[..15][2] == '2';
    }
  }

  /**
   * The middleware's decision tree. `digest` stands for the SHA-256 hex digest
   * of the token's UTF-8 bytes.
   */
  function Decide(req: HttpRequest, adminKey: string, store: KeyStore, digest: string -> string): (d: AuthDecision)
    // OPTIONS is never checked.
    ensures req.httpMethod == "OPTIONS" ==> d == Continue(None)
    // Admin paths: 401 without a bearer header, 403 for a wrong token, pass for the admin key.
    ensures req.httpMethod != "OPTIONS" && IsAdminPath(req.path) ==>
              && (d == Reject(401, "Missing or invalid authorization header") <==> BearerToken(req.authorization).None?)
              && (d == Reject(403, "Invalid admin key") <==>
                    BearerToken(req.authorization).Some? && BearerToken(req.authorization).value != adminKey)
              && (d == Continue(None) <==> BearerToken(req.authorization) == Some(adminKey))
    // Generation paths: 401 without a bearer header, otherwise accepted exactly when an active record matches.
    ensures req.httpMethod != "OPTIONS" && IsGeneratePath(req.path) ==>
              && (d == Reject(401, "Missing or invalid API key") <==> BearerToken(req.authorization).None?)
              && (d.Continue? <==>
                    BearerToken(req.authorization).Some? && ActiveRecord(store, digest(BearerToken(req.authorization).value)).Some?)
              && (d.Continue? ==>
                    var rec := store[digest(BearerToken(req.authorization).value)];
                    d.permissions == Some(Permissions(rec.allowedProviders, rec.allowedModels)))
              && (d.Reject? && d.status == 403 <==>
                    BearerToken(req.authorization).Some? && ActiveRecord(store, digest(BearerToken(req.authorization).value)).None?)
    // Everything else passes with nothing attached.
    ensures !IsAdminPath(req.path) && !IsGeneratePath(req.path) ==> d == Continue(None)
    // Permissions are attached only on generation paths.
    ensures d.Continue? && d.permissions.Some? ==> req.httpMethod != "OPTIONS" && IsGeneratePath(req.path)
  {
    AdminPathIsNotGeneratePath(req.path);
    if req.httpMethod == "OPTIONS" then Continue(None)
    else if IsAdminPath(req.path) && BearerToken(req.authorization).None? then
      Reject(401, "Missing or invalid authorization header")
    else if IsAdminPath(req.path) && BearerToken(req.authorization).value != adminKey then
      Reject(403, "Invalid admin key")
    else if IsGeneratePath(req.path) then
      match BearerToken(req.authorization)
      case None => Reject(401, "Missing or invalid API key")
      case Some(apiKey) =>
        match ActiveRecord(store, digest(apiKey))
        case None => Reject(403, "Invalid API key")
        case Some(rec) => Continue(Some(Permissions(rec.allowedProviders, rec.allowedModels)))
    else Continue(None)
  }

  /** A deactivated key is refused even though its hash is on record. */
  lemma InactiveKeyRefused(req: HttpRequest, adminKey: string, store: KeyStore, digest: string -> string, key: string)
    requires req.httpMethod != "OPTIONS" && IsGeneratePath(req.path)
    requires req.authorization == Some(BearerPrefix + key)
    requires digest(key) in store && !store[digest(key)].isActive
    ensures Decide(req, adminKey, store, digest) == Reject(403, "Invalid API key")
  {
    BearerTokenRoundTrip(key);
    AdminPathIsNotGeneratePath(req.path);
  }

  /** Prefix matching is case-sensitive: a lower-case `bearer` header is treated as missing. */
  lemma LowerCaseBearerRefused(req: HttpRequest, adminKey: string, store: KeyStore, digest: string -> string, key: string)
    requires req.httpMethod != "OPTIONS" && IsGeneratePath(req.path)
    requires req.authorization == Some("bearer " + key)
    ensures Decide(req, adminKey, store, digest) == Reject(401, "Missing or invalid API key")
  {
    assert BearerToken(req.authorization).None? by {
      assert ("bearer " + key)[0] != BearerPrefix[0];
    }
  }

  /** The per-request state the middleware writes into. */
  class RequestState {
    var apiKeyPermissions: Option<Permissions>

    /** A fresh request carries no permissions. */
    constructor ()
      ensures apiKeyPermissions == None
    {
      apiKeyPermissions := None;
    }
  }

  class AuthMiddleware {
    const adminKey: string

    constructor (adminKey: string)
      ensures this.adminKey == adminKey
    {
      this.adminKey := adminKey;
    }

    /**
     * `dispatch`: decides as `Decide` does and, when a key is accepted,
     * records its permissions on the request state; nothing else changes.
     */
    method Dispatch(req: HttpRequest, store: KeyStore, digest: string -> string, state: RequestState)
      returns (d: AuthDecision)
      modifies state
      ensures d == Decide(req, adminKey, store, digest)
      ensures d.Continue? && d.permissions.Some? ==> state.apiKeyPermissions == d.permissions
      ensures !(d.Continue? && d.permissions.Some?) ==> state.apiKeyPermissions == old(state.apiKeyPermissions)
    {
      if req.httpMethod == "OPTIONS" {
        return Continue(None);
      }
      if IsAdminPath(req.path) {
        var header := req.authorization;
        if header.None? || header.value == "" || !StartsWith(header.value, "Bearer ") {
          return Reject(401, "Missing or invalid authorization header");
        }
        var token := header.value[7..];
        if token != adminKey {
          return Reject(403, "Invalid admin key");
        }
      }
      if IsGeneratePath(req.path) {
        var header := req.authorization;
        if header.None? || header.value == "" || !StartsWith(header.value, "Bearer ") {
          return Reject(401, "Missing or invalid API key");
        }
        var apiKey := header.value[7..];
        var keyHash := digest(apiKey);
        var row := ActiveRecord(store, keyHash);
        if row.None? {
          return Reject(403, "Invalid API key");
        }
        var perms := Permissions(row.value.allowedProviders, row.value.allowedModels);
        state.apiKeyPermissions := Some(perms);
        return Continue(Some(perms));
      }
      return Continue(None);
    }
  }

  // ---------------------------------------------------------------------------
  // The permission rule of the generation handlers
  // ---------------------------------------------------------------------------

  datatype Denial = NoPermissions | NeitherAllowed(model: string, provider: string)

  /**
   * Access is granted when the model is allowed OR its provider is; it is
   * denied when no permissions were attached, or when neither is allowed.
   */
  function Authorize(perms: Option<Permissions>, model: string, provider: string): (r: Option<Denial>)
    ensures r == Some(NoPermissions) <==> perms.None?
    ensures perms.Some? ==>
              (r.None? <==> model in perms.value.allowedModels || provider in perms.value.allowedProviders)
    ensures r.Some? && r.value.NeitherAllowed? ==> r.value == NeitherAllowed(model, provider)
  {
    match perms
    case None => Some(NoPermissions)
    case Some(p) =>
      var modelAllowed := model in p.allowedModels;
      var providerAllowed := provider in p.allowedProviders;
      if !modelAllowed && !providerAllowed then Some(NeitherAllowed(model, provider)) else None
  }

  /** A key allowed only provider `p1` may use that provider's models and no other provider's. */
  lemma ProviderOnlyKey(model: string)
    ensures Authorize(Some(Permissions(["p1"], [])), model, "p1") == None
    ensures Authorize(Some(Permissions(["p1"], [])), model, "p2") == Some(NeitherAllowed(model, "p2"))
  {
    assert "p2" != "p1" by { assert "p2"[1] != "p1"[1]; }
  }
}
