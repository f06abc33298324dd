/**
 * What the handlers promise about the license table: how a first request creates a
 * row, which later requests write and which do not, how the run count moves, and
 * what an offline token carries.
 */
module LicenseProperties {
  import opened Wrappers
  import opened PyText
  import opened Sheet
  import opened Settings
  import opened OfflineToken
  import opened Handlers

  /** The clock's parser reads back what its formatter wrote for instant `t`. */
  predicate IsoRoundTrips(clock: Clock, t: int) {
    ParseIsoMaybe(clock, clock.formatIso(t)) == Some(t)
  }

  /** The timestamps a new or repaired row receives are not empty. */
  predicate DefaultsNonEmpty(clock: Clock) {
    ActivatedNow(clock) != "" && DefaultExpiry(clock) != ""
  }

  /** The row a handler appends for a key that is not in the table. */
  function NewRow(clock: Clock, machineKey: string, runCount: int): Row {
    Row(machineKey, ActivatedNow(clock), DefaultExpiry(clock), FormatInt(runCount))
  }

  lemma AppendIsWrite(rows: seq<Row>, r: Row)
    ensures Written(rows, |rows| + 1, r) == rows + [r]
  {
    assert Blanks(0) == [];
  }

  // ---------------------------------------------------------------- get-or-create

  /** An unseen key gets one new row after the last, run count 0, valid for 7 days. */
  lemma GetOrCreateNewKey(rows: seq<Row>, clock: Clock, machineKey: string)
    requires FindRow(rows, machineKey) == None
    ensures GetOrCreate(rows, clock, machineKey).rows == rows + [NewRow(clock, machineKey, 0)]
    ensures NewRow(clock, machineKey, 0).runCount == "0"
    ensures GetOrCreate(rows, clock, machineKey).reply
         == LicenseResponse(machineKey, ActivatedNow(clock), DefaultExpiry(clock), 0, true)
  {
    AppendIsWrite(rows, NewRow(clock, machineKey, 0));
    assert FormatInt(0) == "0";
  }

  /** Read back through the clock's parser, a new row expires exactly 7 days after its activation. */
  lemma NewKeyValidForSevenDays(rows: seq<Row>, clock: Clock, machineKey: string)
    requires FindRow(rows, machineKey) == None
    requires IsoRoundTrips(clock, clock.now)
    requires IsoRoundTrips(clock, clock.now + DEFAULT_VALIDITY_DAYS * SECONDS_PER_DAY)
    ensures var reply := GetOrCreate(rows, clock, machineKey).reply;
            ParseIsoMaybe(clock, reply.expiresAt).Some? && ParseIsoMaybe(clock, reply.activatedAt).Some? &&
            ParseIsoMaybe(clock, reply.expiresAt).value
              == ParseIsoMaybe(clock, reply.activatedAt).value + 7 * 86400
  {
  }

  /**
   * A key that is found is never reported as created; its run count is read from the
   * cell; a non-empty date is kept; the row is written only when a date cell is empty.
   */
  lemma GetOrCreateExistingKey(rows: seq<Row>, clock: Clock, machineKey: string, i: nat)
    requires FindRow(rows, machineKey) == Some(i)
    ensures var s := GetOrCreate(rows, clock, machineKey);
            var cur := rows[i - 1];
            !s.reply.created && s.reply.machineKey == machineKey &&
            s.reply.runCount == ParseRunCount(cur.runCount) &&
            (cur.activated != "" ==> s.reply.activatedAt == cur.activated) &&
            (cur.expires != "" ==> s.reply.expiresAt == cur.expires) &&
            (cur.activated != "" && cur.expires != "" ==> s.rows == rows) &&
            (cur.activated == "" || cur.expires == "" ==>
               s.rows == rows[i - 1 := Row(machineKey, s.reply.activatedAt, s.reply.expiresAt, FormatInt(s.reply.runCount))])
  {
  }

  /**
   * Get-or-create settles after one call: a second call, at any time, writes nothing
   * and replies the same, except that the row is no longer reported as created.
   */
  lemma GetOrCreateSettles(rows: seq<Row>, clock: Clock, later: Clock, machineKey: string)
    requires machineKey != "" && Unpadded(machineKey)
    requires DefaultsNonEmpty(clock)
    ensures var first := GetOrCreate(rows, clock, machineKey);
            var second := GetOrCreate(first.rows, later, machineKey);
            second.rows == first.rows && second.reply == first.reply.(created := false)
  {
    var first := GetOrCreate(rows, clock, machineKey);
    SettledRow(rows, clock, machineKey);
    GetOrCreateExistingKey(first.rows, later, machineKey, TargetRow(rows, machineKey));
  }

  /**
   * After one get-or-create the scan finds the key at the row the handler wrote, and that
   * row holds the reply's dates (both non-empty) and its run count.
   */
  lemma SettledRow(rows: seq<Row>, clock: Clock, machineKey: string)
    requires machineKey != "" && Unpadded(machineKey)
    requires DefaultsNonEmpty(clock)
    ensures var first := GetOrCreate(rows, clock, machineKey);
            var row := TargetRow(rows, machineKey);
            FindRow(first.rows, machineKey) == Some(row) &&
            first.rows[row - 1].activated == first.reply.activatedAt &&
            first.rows[row - 1].expires == first.reply.expiresAt &&
            first.reply.activatedAt != "" && first.reply.expiresAt != "" &&
            ParseRunCount(first.rows[row - 1].runCount) == first.reply.runCount &&
            first.reply.machineKey == machineKey
  {
    StripOfUnpadded(machineKey);
    if FindRow(rows, machineKey).None? {
      SettledNewRow(rows, clock, machineKey);
    } else {
      SettledFoundRow(rows, clock, machineKey, FindRow(rows, machineKey).value);
    }
  }

  lemma SettledNewRow(rows: seq<Row>, clock: Clock, machineKey: string)
    requires machineKey != "" && Matches(NewRow(clock, machineKey, 0), machineKey)
    requires FindRow(rows, machineKey) == None
    ensures FindRow(GetOrCreate(rows, clock, machineKey).rows, machineKey) == Some(|rows| + 1)
    ensures GetOrCreate(rows, clock, machineKey).rows[|rows|] == NewRow(clock, machineKey, 0)
  {
    FoundAfterWrite(rows, |rows| + 1, NewRow(clock, machineKey, 0), machineKey);
  }

  lemma SettledFoundRow(rows: seq<Row>, clock: Clock, machineKey: string, i: nat)
    requires machineKey != "" && Strip(machineKey) == machineKey
    requires FindRow(rows, machineKey) == Some(i)
    requires DefaultsNonEmpty(clock)
    ensures var first := GetOrCreate(rows, clock, machineKey);
            FindRow(first.rows, machineKey) == Some(i) &&
            first.rows[i - 1].activated == first.reply.activatedAt != "" &&
            first.rows[i - 1].expires == first.reply.expiresAt != "" &&
            ParseRunCount(first.rows[i - 1].runCount) == first.reply.runCount
  {
    var first := GetOrCreate(rows, clock, machineKey);
    var reply := first.reply;
    var cur := rows[i - 1];
    if cur.activated == "" || cur.expires == "" {
      var written := Row(machineKey, reply.activatedAt, reply.expiresAt, FormatInt(reply.runCount));
      RunCountRoundTrip(reply.runCount);
      FoundAfterWrite(rows, i, written, machineKey);
    }
  }

  /**
   * The empty machine key is where the table stops matching the sheet: creating it
   * leaves the last row with an empty key cell, which the sheet's key column omits.
   */
  lemma EmptyKeyLeavesTrailingBlankKey(rows: seq<Row>, clock: Clock)
    requires FindRow(rows, "") == None
    ensures var first := GetOrCreate(rows, clock, "");
            |first.rows| == |rows| + 1 && first.rows[|rows|].key == "" && first.reply.created
  {
  }

  /** A key with whitespace around it is never found, so every get-or-create appends another row. */
  lemma PaddedKeyAppendsEveryCall(rows: seq<Row>, clock: Clock, later: Clock, machineKey: string)
    requires !Unpadded(machineKey)
    ensures var first := GetOrCreate(rows, clock, machineKey);
            var second := GetOrCreate(first.rows, later, machineKey);
            first.rows == rows + [NewRow(clock, machineKey, 0)] && first.reply.created &&
            second.rows == first.rows + [NewRow(later, machineKey, 0)] && second.reply.created
  {
    PaddedKeyNeverFound(rows, machineKey);
    GetOrCreateNewKey(rows, clock, machineKey);
    var first := GetOrCreate(rows, clock, machineKey);
    PaddedKeyNeverFound(first.rows, machineKey);
    GetOrCreateNewKey(first.rows, later, machineKey);
  }

  // ---------------------------------------------------------------- increment-run

  /**
   * Increment-run writes one row, the found one or the one after the last, and its
   * stored run count becomes exactly the count read before the call plus one (0 plus
   * one for a new row). Everything else in the table stays as it was.
   */
  lemma IncrementRunAddsOne(rows: seq<Row>, clock: Clock, machineKey: string)
    ensures var s := IncrementRun(rows, clock, machineKey);
            var row := TargetRow(rows, machineKey);
            s.reply.runCount == StoredRunCount(rows, machineKey) + 1 &&
            (s.reply.created <==> FindRow(rows, machineKey) == None) &&
            s.rows == Written(rows, row, Row(machineKey, s.reply.activatedAt, s.reply.expiresAt, FormatInt(s.reply.runCount))) &&
            ParseRunCount(s.rows[row - 1].runCount) == StoredRunCount(rows, machineKey) + 1 &&
            (machineKey != "" && Unpadded(machineKey) ==> StoredRunCount(s.rows, machineKey) == StoredRunCount(rows, machineKey) + 1)
  {
    var s := IncrementRun(rows, clock, machineKey);
    var row := TargetRow(rows, machineKey);
    var written := Row(machineKey, s.reply.activatedAt, s.reply.expiresAt, FormatInt(s.reply.runCount));
    if FindRow(rows, machineKey) == None {
      NewKeyWrittenOnce(rows, clock, machineKey);
    }
    assert s.rows == Written(rows, row, written);
    RunCountRoundTrip(s.reply.runCount);
    if machineKey != "" && Unpadded(machineKey) {
      StripOfUnpadded(machineKey);
      FoundAfterWrite(rows, row, written, machineKey);
    }
  }

  /** Writing the new row with "0" and then again with "1" leaves the same table as writing it once with "1". */
  lemma NewKeyWrittenOnce(rows: seq<Row>, clock: Clock, machineKey: string)
    requires FindRow(rows, machineKey) == None
    ensures IncrementRun(rows, clock, machineKey).rows == Written(rows, |rows| + 1, NewRow(clock, machineKey, 1))
  {
    var first := Written(rows, |rows| + 1, NewRow(clock, machineKey, 0));
    AppendIsWrite(rows, NewRow(clock, machineKey, 0));
    AppendIsWrite(rows, NewRow(clock, machineKey, 1));
    assert first[..|rows|] == rows;
    assert Written(first, |rows| + 1, NewRow(clock, machineKey, 1)) == first[|rows| := NewRow(clock, machineKey, 1)];
  }

  /** On an unseen key increment-run appends a single row whose final run count is "1". */
  lemma IncrementRunNewKey(rows: seq<Row>, clock: Clock, machineKey: string)
    requires FindRow(rows, machineKey) == None
    ensures IncrementRun(rows, clock, machineKey).rows == rows + [NewRow(clock, machineKey, 1)]
    ensures NewRow(clock, machineKey, 1).runCount == "1"
    ensures IncrementRun(rows, clock, machineKey).reply
         == LicenseResponse(machineKey, ActivatedNow(clock), DefaultExpiry(clock), 1, true)
  {
    IncrementRunAddsOne(rows, clock, machineKey);
    AppendIsWrite(rows, NewRow(clock, machineKey, 1));
    assert FormatInt(1) == "1";
  }

  /** Increment-run keeps the non-empty dates of the row it finds. */
  lemma IncrementRunKeepsDates(rows: seq<Row>, clock: Clock, machineKey: string, i: nat)
    requires FindRow(rows, machineKey) == Some(i)
    ensures var reply := IncrementRun(rows, clock, machineKey).reply;
            !reply.created &&
            (rows[i - 1].activated != "" ==> reply.activatedAt == rows[i - 1].activated) &&
            (rows[i - 1].expires != "" ==> reply.expiresAt == rows[i - 1].expires)
  {
  }

  /**
   * A get-or-create followed by an increment-run (at any later time) reports one more
   * run, not created, and the same dates.
   */
  lemma GetOrCreateThenIncrementRun(rows: seq<Row>, clock: Clock, later: Clock, machineKey: string)
    requires machineKey != "" && Unpadded(machineKey)
    requires DefaultsNonEmpty(clock)
    ensures var first := GetOrCreate(rows, clock, machineKey);
            var second := IncrementRun(first.rows, later, machineKey);
            second.reply == first.reply.(runCount := first.reply.runCount + 1, created := false)
  {
    var first := GetOrCreate(rows, clock, machineKey);
    GetOrCreateSettles(rows, clock, later, machineKey);
    SettledRow(rows, clock, machineKey);
  }

  // ---------------------------------------------------------------- issue-token

  /** Issue-token writes only for an unseen key: a found row is left alone even when a date is empty. */
  lemma IssueTokenWritesOnlyNewRows(rows: seq<Row>, cfg: Config, clock: Clock, machineKey: string)
    ensures FindRow(rows, machineKey).Some? ==> IssueToken(rows, cfg, clock, machineKey).rows == rows
    ensures FindRow(rows, machineKey).None? ==>
              IssueToken(rows, cfg, clock, machineKey).rows == rows + [NewRow(clock, machineKey, 0)] &&
              NewRow(clock, machineKey, 0).runCount == "0"
  {
    AppendIsWrite(rows, NewRow(clock, machineKey, 0));
    assert FormatInt(0) == "0";
  }

  /**
   * The token carries the key, the stored run count (0 for a new row), iat = nbf = now,
   * and an expiry no later than the TTL limit; it fails only for want of a signing key.
   */
  lemma IssueTokenClaims(rows: seq<Row>, cfg: Config, clock: Clock, machineKey: string)
    ensures var r := IssueToken(rows, cfg, clock, machineKey).reply;
            (r.Failure? <==> cfg.privateKeyPem == "" && cfg.privateKeyFile.None?) &&
            (r.Success? ==>
               r.value.claims.machineKey == machineKey &&
               r.value.claims.rc == StoredRunCount(rows, machineKey) &&
               r.value.claims.iat == clock.now && r.value.claims.nbf == clock.now &&
               r.value.claims.exp <= TtlLimit(cfg, clock))
  {
  }

  /** For a found row with a parsable expiry the token expires at the earlier of that expiry and the TTL limit. */
  lemma FoundKeyTokenExpiry(rows: seq<Row>, cfg: Config, clock: Clock, machineKey: string, i: nat, t: int)
    requires FindRow(rows, machineKey) == Some(i)
    requires rows[i - 1].expires != ""
    requires ParseIsoMaybe(clock, rows[i - 1].expires) == Some(t)
    requires LoadPrivateKey(cfg).Success?
    ensures var r := IssueToken(rows, cfg, clock, machineKey).reply;
            r.Success? &&
            r.value.claims.exp == if TtlLimit(cfg, clock) < t then TtlLimit(cfg, clock) else t
  {
    ExpiryClamp(cfg, clock, machineKey, ParseRunCount(rows[i - 1].runCount), rows[i - 1].expires, t);
  }

  /** For an unseen key the token expires at the earlier of the new row's 7 days and the TTL. */
  lemma NewKeyTokenExpiry(rows: seq<Row>, cfg: Config, clock: Clock, machineKey: string)
    requires FindRow(rows, machineKey) == None
    requires IsoRoundTrips(clock, clock.now + DEFAULT_VALIDITY_DAYS * SECONDS_PER_DAY)
    requires LoadPrivateKey(cfg).Success?
    ensures var r := IssueToken(rows, cfg, clock, machineKey).reply;
            var week := clock.now + DEFAULT_VALIDITY_DAYS * SECONDS_PER_DAY;
            r.Success? &&
            r.value.claims.exp == if TtlLimit(cfg, clock) < week then TtlLimit(cfg, clock) else week
  {
    var week := clock.now + DEFAULT_VALIDITY_DAYS * SECONDS_PER_DAY;
    ExpiryClamp(cfg, clock, machineKey, 0, DefaultExpiry(clock), week);
  }
}
