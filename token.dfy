/**
 * The offline token: its claims, with the expiry clamped to the configured TTL,
 * and the choice of signing key. The RS256 signature itself is not computed.
 */
module OfflineToken {
  import opened Wrappers
  import opened PyText
  import opened Settings

  const ALGORITHM := "RS256"

  /** The token payload; `aud` appears only when an audience is configured. */
  datatype Claims = Claims(machineKey: string, rc: int, iat: int, nbf: int, exp: int, aud: Option<string>)

  /** A token: its claims, the PEM they are signed with and the algorithm named in its header. */
  datatype SignedToken = SignedToken(claims: Claims, signingKey: string, algorithm: string)

  /** `parse_iso_maybe`: blank text is no timestamp; otherwise the clock's parser decides. */
  function ParseIsoMaybe(clock: Clock, iso: string): (r: Option<int>)
    ensures Strip(iso) == "" ==> r == None
    ensures Strip(iso) != "" ==> r == clock.parseIso(Strip(iso))
  {
    var t := Strip(iso);
    if t == "" then None else clock.parseIso(t)
  }

  /** Since the text is stripped first, whitespace around a stored timestamp does not change how it parses. */
  lemma ParseIsoIgnoresPadding(clock: Clock, iso: string)
    ensures ParseIsoMaybe(clock, Strip(iso)) == ParseIsoMaybe(clock, iso)
  {
    StripIdempotent(iso);
  }

  /** The latest expiry a token issued now may carry. */
  function TtlLimit(cfg: Config, clock: Clock): int {
    clock.now + cfg.tokenTtlDays * SECONDS_PER_DAY
  }

  /**
   * The payload of `build_offline_token`: issued and valid from now, expiring at the
   * earlier of the stored expiry and the TTL limit (the TTL limit when the stored
   * expiry does not parse).
   */
  function OfflineClaims(cfg: Config, clock: Clock, machineKey: string, runCount: int, dbExpiresIso: string): (c: Claims)
    ensures c.machineKey == machineKey && c.rc == runCount
    ensures c.iat == clock.now && c.nbf == clock.now
    ensures c.exp <= TtlLimit(cfg, clock)
    ensures ParseIsoMaybe(clock, dbExpiresIso).Some? ==> c.exp <= ParseIsoMaybe(clock, dbExpiresIso).value
    ensures c.exp == TtlLimit(cfg, clock) || ParseIsoMaybe(clock, dbExpiresIso) == Some(c.exp)
    ensures ParseIsoMaybe(clock, dbExpiresIso).None? ==> c.exp == TtlLimit(cfg, clock)
    ensures c.aud.Some? <==> cfg.audience != ""
    ensures c.aud.Some? ==> c.aud.value == cfg.audience
  {
    var ttlExp := TtlLimit(cfg, clock);
    var dbExp := ParseIsoMaybe(clock, dbExpiresIso).GetOr(ttlExp);
    var exp := if ttlExp < dbExp then ttlExp else dbExp;
    Claims(machineKey, runCount, clock.now, clock.now, exp,
           if cfg.audience != "" then Some(cfg.audience) else None)
  }

  /** `load_private_key`: the inline PEM wins, then the key file; with neither, a 500 error. */
  function LoadPrivateKey(cfg: Config): (r: Result<string, HttpError>)
    ensures cfg.privateKeyPem != "" ==> r == Success(cfg.privateKeyPem)
    ensures cfg.privateKeyPem == "" && cfg.privateKeyFile.Some? ==> r == Success(cfg.privateKeyFile.value)
    ensures r.Failure? <==> cfg.privateKeyPem == "" && cfg.privateKeyFile.None?
    ensures r.Failure? ==> r.error.status == 500
  {
    if cfg.privateKeyPem != "" then Success(cfg.privateKeyPem)
    else if cfg.privateKeyFile.Some? then Success(cfg.privateKeyFile.value)
    else Failure(HttpError(500, "PRIVATE_KEY_PEM/PRIVATE_KEY_FILE not set"))
  }

  /**
   * The signing key always comes from a configured source; an inline PEM makes the key
   * file irrelevant; and a key is found whenever either source is present.
   */
  lemma KeySourcePrecedence(cfg: Config, otherFile: Option<string>)
    ensures LoadPrivateKey(cfg).Success? ==>
              LoadPrivateKey(cfg).value == cfg.privateKeyPem || cfg.privateKeyFile == Some(LoadPrivateKey(cfg).value)
    ensures cfg.privateKeyPem != "" ==> LoadPrivateKey(cfg.(privateKeyFile := otherFile)) == LoadPrivateKey(cfg)
    ensures (cfg.privateKeyPem != "" || cfg.privateKeyFile.Some?) <==> LoadPrivateKey(cfg).Success?
  {
  }

  /** `build_offline_token`: the claims signed with RS256, or the key-loading error. */
  function BuildOfflineToken(cfg: Config, clock: Clock, machineKey: string, runCount: int, dbExpiresIso: string)
    : (r: Result<SignedToken, HttpError>)
    ensures r.Failure? <==> LoadPrivateKey(cfg).Failure?
    ensures r.Failure? ==> r.error.status == 500
    ensures r.Success? ==> r.value.claims == OfflineClaims(cfg, clock, machineKey, runCount, dbExpiresIso)
    ensures r.Success? ==> r.value.signingKey == LoadPrivateKey(cfg).value && r.value.algorithm == ALGORITHM
  {
    var claims := OfflineClaims(cfg, clock, machineKey, runCount, dbExpiresIso);
    match LoadPrivateKey(cfg)
    case Failure(e) => Failure(e)
    case Success(pem) => Success(SignedToken(claims, pem, ALGORITHM))
  }

  /**
   * The two cases of the clamp: a stored expiry before the TTL limit is kept, a later
   * one is cut to the limit.
   */
  lemma ExpiryClamp(cfg: Config, clock: Clock, machineKey: string, runCount: int, dbExpiresIso: string, t: int)
    requires ParseIsoMaybe(clock, dbExpiresIso) == Some(t)
    ensures t <= TtlLimit(cfg, clock) ==> OfflineClaims(cfg, clock, machineKey, runCount, dbExpiresIso).exp == t
    ensures t >= TtlLimit(cfg, clock) ==> OfflineClaims(cfg, clock, machineKey, runCount, dbExpiresIso).exp == TtlLimit(cfg, clock)
  {
  }
}
