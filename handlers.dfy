/**
 * The three license endpoints and the API-key gate in front of them. Each handler is
 * given as a function from the table before the request to the table after it and the
 * reply, and as a method that runs the same steps on the worksheet in place.
 */
module Handlers {
  import opened Wrappers
  import opened PyText
  import opened Sheet
  import opened Settings
  import opened OfflineToken

  /** The body of the get-or-create and increment-run replies. */
  datatype LicenseResponse = LicenseResponse(
    machineKey: string,
    activatedAt: string,
    expiresAt: string,
    runCount: int,
    created: bool)

  /** The table a handler leaves behind, and what it replies. */
  datatype Served<T> = Served(rows: seq<Row>, reply: T)

  /** `verify_api_key`: with no key configured every request passes; otherwise a 401 unless the header is that key. */
  function VerifyApiKey(configured: string, header: Option<string>): (r: Result<(), HttpError>)
    ensures r.Success? <==> configured == "" || header == Some(configured)
    ensures r.Failure? ==> r.error.status == 401
  {
    if configured != "" && (header.None? || header.value == "" || header.value != configured) then
      Failure(HttpError(401, "Invalid or missing API key"))
    else
      Success(())
  }

  /** The run count stored for `machineKey` as the handlers read it; 0 when there is no row. */
  function StoredRunCount(rows: seq<Row>, machineKey: string): int {
    match FindRow(rows, machineKey)
    case None => 0
    case Some(i) => ParseRunCount(rows[i - 1].runCount)
  }

  /** The row a handler writes for `machineKey`: the one found, else the one after the last. */
  function TargetRow(rows: seq<Row>, machineKey: string): (row: nat)
    ensures 1 <= row <= |rows| + 1
  {
    match FindRow(rows, machineKey)
    case None => |rows| + 1
    case Some(i) => i
  }

  /** `license_get_or_create`: create the row, or repair an empty date cell of the row found. */
  function GetOrCreate(rows: seq<Row>, clock: Clock, machineKey: string): Served<LicenseResponse> {
    match FindRow(rows, machineKey)
    case None =>
      var activated, expires := ActivatedNow(clock), DefaultExpiry(clock);
      Served(Written(rows, |rows| + 1, Row(machineKey, activated, expires, FormatInt(0))),
             LicenseResponse(machineKey, activated, expires, 0, true))
    case Some(i) =>
      var cur := rows[i - 1];
      var runCount := ParseRunCount(cur.runCount);
      var activated := if cur.activated == "" then ActivatedNow(clock) else cur.activated;
      var expires := if cur.expires == "" then DefaultExpiry(clock) else cur.expires;
      var changed := cur.activated == "" || cur.expires == "";
      Served(if changed then Written(rows, i, Row(machineKey, activated, expires, FormatInt(runCount))) else rows,
             LicenseResponse(machineKey, activated, expires, runCount, false))
  }

  /** `license_increment_run`: as get-or-create, then one more run, always written back. */
  function IncrementRun(rows: seq<Row>, clock: Clock, machineKey: string): Served<LicenseResponse> {
    match FindRow(rows, machineKey)
    case None =>
      var activated, expires := ActivatedNow(clock), DefaultExpiry(clock);
      var row := |rows| + 1;
      var first := Written(rows, row, Row(machineKey, activated, expires, FormatInt(0)));
      Served(Written(first, row, Row(machineKey, activated, expires, FormatInt(1))),
             LicenseResponse(machineKey, activated, expires, 1, true))
    case Some(i) =>
      var cur := rows[i - 1];
      var activated := if cur.activated != "" then cur.activated else ActivatedNow(clock);
      var expires := if cur.expires != "" then cur.expires else DefaultExpiry(clock);
      var runCount := ParseRunCount(cur.runCount) + 1;
      Served(Written(rows, i, Row(machineKey, activated, expires, FormatInt(runCount))),
             LicenseResponse(machineKey, activated, expires, runCount, false))
  }

  /** `license_issue_token`: create the row if missing (repairs of a found row stay in memory), then sign. */
  function IssueToken(rows: seq<Row>, cfg: Config, clock: Clock, machineKey: string)
    : Served<Result<SignedToken, HttpError>>
  {
    match FindRow(rows, machineKey)
    case None =>
      var activated, expires := ActivatedNow(clock), DefaultExpiry(clock);
      Served(Written(rows, |rows| + 1, Row(machineKey, activated, expires, FormatInt(0))),
             BuildOfflineToken(cfg, clock, machineKey, 0, expires))
    case Some(i) =>
      var cur := rows[i - 1];
      var expires := if cur.expires != "" then cur.expires else DefaultExpiry(clock);
      Served(rows, BuildOfflineToken(cfg, clock, machineKey, ParseRunCount(cur.runCount), expires))
  }

  method LicenseGetOrCreate(ws: Worksheet, clock: Clock, machineKey: string) returns (resp: LicenseResponse)
    modifies ws
    ensures ws.rows == GetOrCreate(old(ws.rows), clock, machineKey).rows
    ensures resp == GetOrCreate(old(ws.rows), clock, machineKey).reply
  {
    ghost var before := ws.rows;
    var row := ws.FindRowByKey(machineKey);
    var created := false;
    var activated, expires, runCount;
    if row.None? {
      var keys := KeyColumn(ws.rows);
      var next := |keys| + 1;
      activated := ActivatedNow(clock);
      expires := DefaultExpiry(clock);
      runCount := 0;
      ws.EnsureRow(next, machineKey, activated, expires, runCount);
      created := true;
      assert ws.rows == GetOrCreate(before, clock, machineKey).rows;
    } else {
      var cur := ws.rows[row.value - 1];
      activated := cur.activated;
      expires := cur.expires;
      runCount := ParseRunCount(cur.runCount);
      var changed := false;
      if activated == "" {
        activated := ActivatedNow(clock);
        changed := true;
      }
      if expires == "" {
        expires := DefaultExpiry(clock);
        changed := true;
      }
      if changed {
        ws.EnsureRow(row.value, machineKey, activated, expires, runCount);
      }
      assert ws.rows == GetOrCreate(before, clock, machineKey).rows;
    }
    resp := LicenseResponse(machineKey, activated, expires, runCount, created);
  }

  method LicenseIncrementRun(ws: Worksheet, clock: Clock, machineKey: string) returns (resp: LicenseResponse)
    modifies ws
    ensures ws.rows == IncrementRun(old(ws.rows), clock, machineKey).rows
    ensures resp == IncrementRun(old(ws.rows), clock, machineKey).reply
  {
    var found := ws.FindRowByKey(machineKey);
    var created := false;
    var row: nat, activated, expires, runCount;
    if found.None? {
      var keys := KeyColumn(ws.rows);
      row := |keys| + 1;
      activated := ActivatedNow(clock);
      expires := DefaultExpiry(clock);
      runCount := 0;
      ws.EnsureRow(row, machineKey, activated, expires, runCount);
      created := true;
    } else {
      row := found.value;
      var cur := ws.rows[row - 1];
      activated := if cur.activated != "" then cur.activated else ActivatedNow(clock);
      expires := if cur.expires != "" then cur.expires else DefaultExpiry(clock);
      runCount := ParseRunCount(cur.runCount);
    }
    runCount := runCount + 1;
    ws.EnsureRow(row, machineKey, activated, expires, runCount);
    resp := LicenseResponse(machineKey, activated, expires, runCount, created);
  }

  method LicenseIssueToken(ws: Worksheet, cfg: Config, clock: Clock, machineKey: string)
    returns (r: Result<SignedToken, HttpError>)
    modifies ws
    ensures ws.rows == IssueToken(old(ws.rows), cfg, clock, machineKey).rows
    ensures r == IssueToken(old(ws.rows), cfg, clock, machineKey).reply
  {
    var row := ws.FindRowByKey(machineKey);
    var expires, runCount;
    if row.None? {
      var keys := KeyColumn(ws.rows);
      var next := |keys| + 1;
      var activated := ActivatedNow(clock);
      expires := DefaultExpiry(clock);
      runCount := 0;
      ws.EnsureRow(next, machineKey, activated, expires, runCount);
    } else {
      var cur := ws.rows[row.value - 1];
      expires := if cur.expires != "" then cur.expires else DefaultExpiry(clock);
      runCount := ParseRunCount(cur.runCount);
    }
    r := BuildOfflineToken(cfg, clock, machineKey, runCount, expires);
  }

  /** The three authenticated routes. */
  datatype Route = GetOrCreateRoute | IncrementRunRoute | IssueTokenRoute

  datatype Reply = LicenseReply(license: LicenseResponse) | TokenReply(token: SignedToken)

  /** A request to one route: the API-key dependency runs first and a rejected request never reaches the sheet. */
  method Handle(ws: Worksheet, cfg: Config, clock: Clock, route: Route, apiKeyHeader: Option<string>, machineKey: string)
    returns (r: Result<Reply, HttpError>)
    modifies ws
    ensures VerifyApiKey(cfg.apiKey, apiKeyHeader).Failure? ==>
              ws.rows == old(ws.rows) && r == Failure(VerifyApiKey(cfg.apiKey, apiKeyHeader).error)
    ensures VerifyApiKey(cfg.apiKey, apiKeyHeader).Success? ==>
              match route
              case GetOrCreateRoute =>
                var s := GetOrCreate(old(ws.rows), clock, machineKey);
                ws.rows == s.rows && r == Success(LicenseReply(s.reply))
              case IncrementRunRoute =>
                var s := IncrementRun(old(ws.rows), clock, machineKey);
                ws.rows == s.rows && r == Success(LicenseReply(s.reply))
              case IssueTokenRoute =>
                var s := IssueToken(old(ws.rows), cfg, clock, machineKey);
                ws.rows == s.rows &&
                r == match s.reply
                     case Success(t) => Success(TokenReply(t))
                     case Failure(e) => Failure(e)
  {
    var gate := VerifyApiKey(cfg.apiKey, apiKeyHeader);
    if gate.Failure? {
      return Failure(gate.error);
    }
    match route
    case GetOrCreateRoute =>
      var resp := LicenseGetOrCreate(ws, clock, machineKey);
      r := Success(LicenseReply(resp));
    case IncrementRunRoute =>
      var resp := LicenseIncrementRun(ws, clock, machineKey);
      r := Success(LicenseReply(resp));
    case IssueTokenRoute =>
      var tok := LicenseIssueToken(ws, cfg, clock, machineKey);
      r := match tok
           case Success(t) => Success(TokenReply(t))
           case Failure(e) => Failure(e);
  }
}
