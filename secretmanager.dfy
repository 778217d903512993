/**
 * The secret cache of aws/secretmanager.go: secrets fetched from AWS Secrets
 * Manager are kept in a package-wide map for fifteen minutes, and a package-wide
 * default client is created on first use. The remote fetch, the JSON parse of
 * the secret string and the clock are parameters.
 */
module SecretManager {
  import opened Wrappers

  /** `time.Minute * 15`, in nanoseconds like a Go `time.Duration`. */
  const CacheTtl: int := 15 * 60 * 1_000_000_000

  /**
   * `secretManagerCache`: the fetched secret (its `SecretString`) and the
   * instant, in nanoseconds, at which the entry stops being used.
   */
  datatype CacheEntry = CacheEntry(secretString: string, expireTime: int)

  const GetSecretPrefix := "SecretManager.GetSecret: "
  const NonCachePrefix := "SecretManager.GetSecretNonCache: "

  /** The two ways `GetSecret` fails, with the text of the wrapped Go error. */
  datatype SecretError = FetchError(cause: string) | ParseError(cause: string)
  {
    /**
     * `fmt.Errorf` wrapping: every message starts with the prefix of
     * `GetSecret` and ends with the cause's text; only a fetch failure carries
     * the prefix of the uncached fetch in between.
     */
    function Message(): (m: string)
      ensures |m| >= |GetSecretPrefix| + |cause|
      ensures m[..|GetSecretPrefix|] == GetSecretPrefix && m[|m| - |cause|..] == cause
      ensures FetchError? <==> |m| == |GetSecretPrefix| + |NonCachePrefix| + |cause|
      ensures FetchError? ==> m[|GetSecretPrefix|..|GetSecretPrefix| + |NonCachePrefix|] == NonCachePrefix
      ensures ParseError? ==> m == GetSecretPrefix + cause
    {
      match this
      case FetchError(c) => GetSecretPrefix + NonCachePrefix + c
      case ParseError(c) => GetSecretPrefix + c
    }
  }

  /** The cache answers for arn at now: an entry exists and now is strictly before its expiry. */
  predicate Hit(cache: map<string, CacheEntry>, arn: string, now: int)
  {
    arn in cache && now < cache[arn].expireTime
  }

  /** The cache after a lookup, and the secret string to parse or the fetch error. */
  datatype Lookup = Lookup(cache: map<string, CacheEntry>, outcome: Result<string, SecretError>)

  /**
   * The cache half of `GetSecret`: a hit uses the cached string; otherwise
   * `fetched` is the fetch's result, which on success is stored under arn
   * with an expiry fifteen minutes after `storedAt` (the second clock read).
   */
  function CacheLookup(
    cache: map<string, CacheEntry>, arn: string, now: int, storedAt: int, fetched: Result<string, string>): Lookup
  {
    if Hit(cache, arn, now) then Lookup(cache, Success(cache[arn].secretString))
    else match fetched
      case Failure(e) => Lookup(cache, Failure(FetchError(e)))
      case Success(s) => Lookup(cache[arn := CacheEntry(s, storedAt + CacheTtl)], Success(s))
  }

  /** The parse half of `GetSecret`, applied to the string the lookup produced. */
  function ParseSecret<D>(outcome: Result<string, SecretError>, parse: string -> Result<D, string>): Result<D, SecretError>
  {
    match outcome
    case Failure(e) => Failure(e)
    case Success(s) =>
      match parse(s)
      case Failure(e) => Failure(ParseError(e))
      case Success(d) => Success(d)
  }

  /** A hit needs no fetch: the result does not depend on what a fetch would return. */
  lemma HitIgnoresFetch(
    cache: map<string, CacheEntry>, arn: string, now: int, storedAt: int, f1: Result<string, string>, f2: Result<string, string>)
    requires Hit(cache, arn, now)
    ensures CacheLookup(cache, arn, now, storedAt, f1) == CacheLookup(cache, arn, now, storedAt, f2)
    ensures CacheLookup(cache, arn, now, storedAt, f1) == Lookup(cache, Success(cache[arn].secretString))
  {
  }

  /** A miss or an expired entry whose fetch fails leaves the cache unchanged and reports the fetch error. */
  lemma FailedFetchKeepsCache(
    cache: map<string, CacheEntry>, arn: string, now: int, storedAt: int, e: string)
    requires !Hit(cache, arn, now)
    ensures CacheLookup(cache, arn, now, storedAt, Failure(e)) == Lookup(cache, Failure(FetchError(e)))
  {
  }

  /**
   * A miss or an expired entry whose fetch succeeds replaces the entry; the
   * new entry answers every lookup from storedAt until fifteen minutes later
   * and none after.
   */
  lemma FetchRefreshesEntry(
    cache: map<string, CacheEntry>, arn: string, now: int, storedAt: int, s: string, t: int)
    requires !Hit(cache, arn, now)
    ensures var l := CacheLookup(cache, arn, now, storedAt, Success(s));
      && l.outcome == Success(s)
      && arn in l.cache && l.cache[arn] == CacheEntry(s, storedAt + CacheTtl)
      && (Hit(l.cache, arn, t) <==> t < storedAt + CacheTtl)
  {
  }

  /** Only the entry for arn is ever written. */
  lemma OtherEntriesUnchanged(
    cache: map<string, CacheEntry>, arn: string, now: int, storedAt: int, fetched: Result<string, string>, k: string)
    requires k != arn
    ensures var c := CacheLookup(cache, arn, now, storedAt, fetched).cache;
      (k in c <==> k in cache) && (k in cache ==> c[k] == cache[k])
  {
  }

  /**
   * The entry is stored before the parse: a fetched string that does not
   * parse is still cached while the call reports the parse error.
   */
  lemma StoredBeforeParse<D>(
    cache: map<string, CacheEntry>, arn: string, now: int, storedAt: int, s: string,
    parse: string -> Result<D, string>)
    requires !Hit(cache, arn, now) && parse(s).Failure?
    ensures var l := CacheLookup(cache, arn, now, storedAt, Success(s));
      && arn in l.cache && l.cache[arn].secretString == s
      && ParseSecret(l.outcome, parse) == Failure(ParseError(parse(s).error))
  {
  }

  /** A successful result is the parse of the entry the cache now holds for arn. */
  lemma SuccessIsParseOfCachedEntry<D>(
    cache: map<string, CacheEntry>, arn: string, now: int, storedAt: int, fetched: Result<string, string>,
    parse: string -> Result<D, string>)
    requires ParseSecret(CacheLookup(cache, arn, now, storedAt, fetched).outcome, parse).Success?
    ensures var l := CacheLookup(cache, arn, now, storedAt, fetched);
      && arn in l.cache
      && parse(l.cache[arn].secretString).Success?
      && ParseSecret(l.outcome, parse) == Success(parse(l.cache[arn].secretString).value)
  {
  }

  /** A handle on the AWS SDK client; the SDK itself is not part of this model. */
  class SecretsManagerClient {
    constructor ()
    {
    }
  }

  /** The package-level state: the map `secretCache` and `defaultSecretManagerClient`. */
  class SecretsPackage {
    var secretCache: map<string, CacheEntry>
    var defaultClient: SecretsManagerClient?

    /** The state at program start: an empty cache and no default client. */
    constructor ()
      ensures secretCache == map[] && defaultClient == null
    {
      secretCache := map[];
      defaultClient := null;
    }

    /**
     * `GetDefaultSecretManagerClient`: the default client is created on the
     * first call and the same client is wrapped on every later call.
     */
    method GetDefaultSecretManagerClient() returns (m: SecretManager)
      modifies this
      ensures old(defaultClient) == null ==> fresh(m.client)
      ensures old(defaultClient) != null ==> m.client == old(defaultClient)
      ensures defaultClient == m.client && m.pkg == this && fresh(m)
      ensures secretCache == old(secretCache)
    {
      if defaultClient == null {
        defaultClient := new SecretsManagerClient();
      }
      m := new SecretManager(this, defaultClient);
    }
  }

  /** Two calls of `GetDefaultSecretManagerClient` share one client. */
  method DefaultClientIsShared(pkg: SecretsPackage) returns (m1: SecretManager, m2: SecretManager)
    modifies pkg
    ensures m1.client == m2.client == pkg.defaultClient
    ensures m1 != m2
  {
    m1 := pkg.GetDefaultSecretManagerClient();
    m2 := pkg.GetDefaultSecretManagerClient();
  }

  /**
   * `SecretManager`: a client together with the package state it shares
   * with every other manager. `fetchLog` records the secrets it fetched.
   */
  class SecretManager {
    const pkg: SecretsPackage
    const client: SecretsManagerClient
    ghost var fetchLog: seq<string>

    /** `NewSecretManagerClient` (the logger is not modelled). */
    constructor (pkg: SecretsPackage, client: SecretsManagerClient)
      ensures this.pkg == pkg && this.client == client && fetchLog == []
    {
      this.pkg := pkg;
      this.client := client;
      fetchLog := [];
    }

    /**
     * `GetSecret`: look up arn in the shared cache at instant now; on a miss
     * or an expired entry call `fetch` and, on success, store the result with
     * an expiry fifteen minutes after storedAt; then parse the secret string.
     */
    method GetSecret<D>(
      arn: string, now: int, storedAt: int,
      fetch: string -> Result<string, string>, parse: string -> Result<D, string>)
      returns (r: Result<D, SecretError>)
      modifies pkg, this`fetchLog
      ensures var l := CacheLookup(old(pkg.secretCache), arn, now, storedAt, fetch(arn));
        pkg.secretCache == l.cache && r == ParseSecret(l.outcome, parse)
      ensures fetchLog == old(fetchLog) + (if Hit(old(pkg.secretCache), arn, now) then [] else [arn])
      ensures pkg.defaultClient == old(pkg.defaultClient)
    {
      var entry: CacheEntry;
      if arn in pkg.secretCache && now < pkg.secretCache[arn].expireTime {
        entry := pkg.secretCache[arn];
      } else {
        fetchLog := fetchLog + [arn];
        var res := fetch(arn);
        if res.Failure? {
          return Failure(FetchError(res.error));
        }
        entry := CacheEntry(res.value, storedAt + CacheTtl);
        pkg.secretCache := pkg.secretCache[arn := entry];
      }
      var parsed := parse(entry.secretString);
      if parsed.Failure? {
        return Failure(ParseError(parsed.error));
      }
      return Success(parsed.value);
    }
  }
}
