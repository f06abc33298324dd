/**
 * What the server reads once at start-up, and the clock it reads per request.
 */
module Settings {
  import opened Wrappers

  const SECONDS_PER_DAY := 86400

  /** Validity of a newly created license row, in days (every creation path uses 7). */
  const DEFAULT_VALIDITY_DAYS := 7

  /** An HTTP error response: status code and detail message. */
  datatype HttpError = HttpError(status: int, detail: string)

  /**
   * The environment-sourced configuration, already stripped.
   * `privateKeyFile` is the text of PRIVATE_KEY_FILE when that path is set and exists.
   */
  datatype Config = Config(
    apiKey: string,
    privateKeyPem: string,
    privateKeyFile: Option<string>,
    audience: string,
    tokenTtlDays: int)

  /**
   * The current instant in whole seconds since the epoch, with the ISO-8601
   * formatting (in the configured local offset) and parsing the server uses.
   * `parseIso` is applied to a stripped, non-empty string; None means it was not a timestamp.
   */
  datatype Clock = Clock(now: int, formatIso: int -> string, parseIso: string -> Option<int>)

  /** The activated-at text a new or repaired row receives: the current instant, formatted. */
  function ActivatedNow(clock: Clock): string {
    clock.formatIso(clock.now)
  }

  /** The expires-at text a new or repaired row receives: seven days after the current instant, formatted. */
  function DefaultExpiry(clock: Clock): string {
    clock.formatIso(clock.now + DEFAULT_VALIDITY_DAYS * SECONDS_PER_DAY)
  }
}
