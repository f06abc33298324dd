# License server: a Dafny model

The license server for Drive Uploader Pro keeps one row per machine in a spreadsheet.
Each row holds four cells: the machine key (column A), the activated-at timestamp (B),
the expires-at timestamp (C) and the run count as text (D). Three authenticated endpoints
read and write these rows:

- `get-or-create` returns the machine's license. It creates the row if it is missing and
  fills in an empty date cell of an existing row.
- `increment-run` does the same and also adds one to the run count, which it always writes back.
- `issue-token` creates the row if it is missing. It then returns an offline token whose
  claims carry the key and the run count. The token's expiry is the earlier of the row's
  expiry and a configured time-to-live. The token is signed with an inline PEM key, or
  else with a key file.

Every endpoint is guarded by a static API key. An empty API key disables the check.

The model has these modules:

- `Wrappers`: Option and Result.
- `PyText`: the Python string and integer behaviour the handlers rely on: `str.strip()`
  with Python's whitespace set, `int()` on a stripped string, and `str()` on an integer.
- `Sheet`: the row datatype and the key-column scan (`FindRow`).
  - `Written` is the table after one row is written.
  - `Worksheet` is a class whose `rows` field the handlers update in place.
- `Settings`: the configuration, the constants and the clock.
  - The clock is one fixed instant in seconds, plus the ISO formatter and parser, which stay abstract.
- `OfflineToken`: the token claims, the choice of key and the token value.
  - The token value is the claims, the key and the algorithm name; no signature is computed.
- `Handlers`: the API-key gate and the three endpoints.
  - Each endpoint is a function from the table before the request to the table after it and the reply.
  - Each endpoint is also a method of the `Handlers` module that takes the `Worksheet`, performs the same steps on it in place, and is proved to match that function.
- `LicenseProperties`: what the endpoints promise across calls.
  - A get-or-create, once done, settles.
  - increment-run adds exactly one.
  - issue-token writes only for a new key.
  - Whitespace around a key makes every call append a new row.
  - Token expiry is clamped.

All three creation paths in `main.py` (lines 141, 173 and 207) give a new row a validity of
7 days (`Settings.DEFAULT_VALIDITY_DAYS`). The 14 at `main.py:25` is the default of
`TOKEN_TTL_DAYS`, the token time-to-live, which is a separate setting.

Some members are definitions that the lemmas build on, and they have no row of their own below:

- `Sheet.KeyColumn` is column A.
- `Handlers.TargetRow` is the row a handler writes (the found row, or the one past the last).
- `OfflineToken.ParseIsoMaybe` strips the text, treats blank text as no timestamp and hands the rest to the clock's parser.
- `OfflineToken.LoadPrivateKey` picks the inline PEM, then the key file, and otherwise fails with HTTP 500.
- `OfflineToken.BuildOfflineToken` pairs `OfflineClaims` with that key and the RS256 algorithm name.
- `Handlers.GetOrCreate`, `Handlers.IncrementRun` and `Handlers.IssueToken` are the three endpoints as functions on the table.

## Model

| member | source | states |
|---|---|---|
| PyText.StripUnpadded | main.py:80 | a stripped string has no whitespace at either end |
| PyText.StripOfUnpadded | main.py:80 | stripping a string with no whitespace at either end returns it unchanged |
| PyText.StripAllSpace | main.py:149 | a string made only of whitespace strips to the empty string |
| PyText.StripSurrounding | main.py:80 | whitespace before and after a non-empty text with no whitespace at its ends is removed, and the text itself is kept |
| PyText.StripIdempotent | main.py:80 | stripping twice is the same as stripping once |
| PyText.ParseInt | main.py:149 | an integer is read only from a non-empty string with no whitespace at either end |
| PyText.ParseRunCount | main.py:148-150 | the run count is the integer that the stripped cell spells, and 0 when it spells none (an empty cell counts as "0") |
| PyText.BlankRunCount | main.py:148-150 | a blank or whitespace-only run-count cell reads as 0 |
| PyText.DigitsRoundTrip | main.py:75 | the decimal digits written for a natural number read back as that number |
| PyText.FormatIntRoundTrip | main.py:75 | reading an integer back from what `str()` wrote gives the same integer |
| PyText.FormatIntUnpadded | main.py:75 | what `str()` writes for an integer is non-empty and has no whitespace at either end |
| PyText.RunCountRoundTrip | main.py:75 | a run-count cell written for n reads back as n |
| Sheet.FindRow | main.py:77-82 | the result is the 1-based number of the first row whose stripped key equals the query, and None exactly when no row matches |
| Sheet.Written | main.py:74-75 | the target row holds the four new cells and every other existing row is unchanged; a row past the end extends the table with blank rows in between |
| Sheet.Worksheet.FindRowByKey | main.py:77-82 | the top-to-bottom loop returns what FindRow specifies |
| Sheet.Worksheet.EnsureRow | main.py:74-75 | the worksheet afterwards is Written of the old rows, with the run count stored as its decimal text |
| Sheet.FirstMatchIsFound | main.py:79-81 | a matching row with no match above it is the row the scan returns |
| Sheet.StoredPaddingIgnored | main.py:80 | a stored key with whitespace around it matches the bare query |
| Sheet.PaddedKeyNeverFound | main.py:80 | a query with whitespace at either end matches no row, because only the stored side is stripped |
| Sheet.FoundAfterWrite | main.py:74-82 | after the found row, or the row just past the end, is written with a matching non-empty key, the scan finds that row |
| OfflineToken.ParseIsoIgnoresPadding | main.py:86 | because the text is stripped first, whitespace around a stored timestamp does not change how it parses |
| OfflineToken.OfflineClaims | main.py:106-121 | the claims carry the key and the run count, iat = nbf = now, exp is at most both the TTL limit and the parsed stored expiry, and exp equals one of the two; an unparsable expiry gives the TTL limit; aud is present exactly when an audience is configured |
| OfflineToken.KeySourcePrecedence | main.py:99-104 | the signing key always comes from a configured source; with an inline PEM the key file does not matter; a key is found exactly when either source is present |
| OfflineToken.ExpiryClamp | main.py:109-111 | a stored expiry before the TTL limit is kept; a later one is cut to the limit |
| Handlers.VerifyApiKey | main.py:63-66 | a request passes exactly when no key is configured or the header equals the key; otherwise the result is an HTTP 401 |
| Handlers.LicenseGetOrCreate | main.py:132-162 | the in-place handler leaves the table and returns the reply that GetOrCreate specifies |
| Handlers.LicenseIncrementRun | main.py:164-192 | the in-place handler leaves the table and returns the reply that IncrementRun specifies |
| Handlers.LicenseIssueToken | main.py:198-218 | the in-place handler leaves the table and returns the token or error that IssueToken specifies |
| Handlers.Handle | main.py:63-66 | a rejected API key returns that 401 and leaves the table untouched; an accepted one runs the chosen endpoint |
| LicenseProperties.GetOrCreateNewKey | main.py:137-144 | an unseen key appends one row (key, now, now+7 days, "0") and the reply says created with run count 0 |
| LicenseProperties.NewKeyValidForSevenDays | main.py:140-141 | when the clock's parser reads back what its formatter wrote, a new license expires exactly 7×86400 seconds after its activation |
| LicenseProperties.GetOrCreateExistingKey | main.py:145-155 | for a found key: the reply is not created; the run count is read from the cell; non-empty dates are kept; the row is rewritten exactly when a date cell is empty |
| LicenseProperties.GetOrCreateSettles | main.py:132-162 | for a non-empty key with no surrounding whitespace, a second get-or-create at any later time writes nothing and replies the same as the first, except that created is false |
| LicenseProperties.SettledRow | main.py:137-155 | for a non-empty key with no surrounding whitespace, after one get-or-create the scan finds the written row, and that row holds the reply's non-empty dates and its run count |
| LicenseProperties.SettledNewRow | main.py:137-144 | after a non-empty new key is created, the scan finds it in the appended row |
| LicenseProperties.SettledFoundRow | main.py:145-155 | for a non-empty key with no surrounding whitespace, after a found row is left or repaired, the scan still finds it at that row, and the row holds the reply |
| LicenseProperties.EmptyKeyLeavesTrailingBlankKey | main.py:137-144 | creating the empty key appends a last row whose key cell is empty, the case the sheet's key column omits |
| LicenseProperties.PaddedKeyAppendsEveryCall | main.py:137-144 | a key with surrounding whitespace is never found, so each get-or-create appends another row and says created |
| LicenseProperties.IncrementRunAddsOne | main.py:164-192 | one row is written, the found one or the one after the last; the reply's run count is the stored count plus one (0 plus one for a new key); created holds exactly when the key was absent; a non-empty key with no surrounding whitespace then reads back the new count |
| LicenseProperties.NewKeyWrittenOnce | main.py:169-185 | writing a new row with "0" and then with "1" leaves a single row with "1" |
| LicenseProperties.IncrementRunNewKey | main.py:169-185 | an unseen key appends one row with run count "1" and the reply says created with run count 1 |
| LicenseProperties.IncrementRunKeepsDates | main.py:177-179 | for a found key, increment-run keeps the row's non-empty dates and says not created |
| LicenseProperties.GetOrCreateThenIncrementRun | main.py:132-192 | for a non-empty key with no surrounding whitespace, an increment-run after a get-or-create replies with the same key and dates, one more run, and created false |
| LicenseProperties.IssueTokenWritesOnlyNewRows | main.py:202-212 | issue-token leaves the table alone for a found key, even when its dates are empty, and appends a fresh row for an unseen key, even when signing later fails |
| LicenseProperties.IssueTokenClaims | main.py:198-218 | the token fails exactly when there is no key material; otherwise it carries the key, the stored run count (0 for a new key), iat = nbf = now, and an expiry no later than the TTL limit |
| LicenseProperties.FoundKeyTokenExpiry | main.py:210-217 | for a found row whose expiry parses, the token expires at the earlier of that expiry and the TTL limit |
| LicenseProperties.NewKeyTokenExpiry | main.py:206-217 | for an unseen key, the token expires at the earlier of now+7 days and the TTL limit |

## Left out

- Google Sheets access is not modelled: opening the sheet, service-account credentials, and the `SHEET_ID` runtime error. The worksheet is a sequence of rows held in memory.
- Each sheet read and write is modelled as atomic. Two concurrent requests for the same new key, which can both append a row, are not modelled.
- The key column is assumed to have one entry per row, so "one past the last key" is the next row. The sheet API drops trailing empty cells, so a table whose last rows have an empty key cell is not modelled. Writing the empty machine key `""` produces exactly such a table: on creation (`LicenseProperties.EmptyKeyLeavesTrailingBlankKey`), and also when a handler repairs or increments a found last row whose key cell holds only whitespace. In the source, every later call with `""` therefore fails to find that row and creates it again. The model's scan does find it. For that reason the settling and read-back lemmas (`GetOrCreateSettles`, `SettledRow`, `SettledNewRow`, `SettledFoundRow`, `GetOrCreateThenIncrementRun`, the read-back clause of `IncrementRunAddsOne`, and both the found and the append case of `Sheet.FoundAfterWrite`) require a non-empty key.
- `Sheet.Worksheet.EnsureRow` requires a row number of at least 1, because a range starting at row 0 does not exist. All callers pass at least 1.
- FastAPI routing, request validation by pydantic, JSON bodies and the `/health` endpoint are not modelled. `Handlers.Handle` takes the route, the API-key header and the machine key as parameters.
- The RS256 signature and the JWT encoding are not computed. A token is its claims, the PEM key and the algorithm name.
- Reading the key file is not modelled. `Config.privateKeyFile` holds the file's text when the path is set and exists.
- Reading the environment at start-up is not modelled, including the `int()` of `TOKEN_TTL_DAYS` and `TZ_OFFSET_HOURS` failing. `Config` holds the values after stripping.
- ISO-8601 formatting, parsing, time-zone offsets and the fallback parse without a suffix are not modelled. They are the clock's `formatIso` and `parseIso` functions. Instants are whole seconds, so the truncation by `int(...timestamp())` is not modelled.
- LicenseProperties.IssueTokenClaims: the limits on datetime range and UTC offset are not modelled. In the source, `now + TOKEN_TTL_DAYS` past year 9999 or a TTL beyond the timedelta range raises OverflowError, and `TZ_OFFSET_HOURS` of 24 or more in absolute value makes every local timestamp raise ValueError. Both end in an HTTP 500. The TTL overflow happens in issue-token after the new row has already been appended. The offset error happens at the first local timestamp, before any write, and a found row whose two dates are both set never reads the local time, so it still succeeds. The model always formats the timestamp and issues the token.
- LicenseProperties.IssueTokenClaims: its "fails exactly when there is no key material" does not model `jwt.encode` rejecting key text that is not a usable RSA private key (an empty key file, for one), which the source also turns into an error; `OfflineToken.BuildOfflineToken` likewise succeeds whenever a key text is loaded, because signing is not modelled.
- The source reads the clock several times per request: once for activated-at and again for expires-at, and once more for the token. The model reads one instant per request, so `LicenseProperties.NewKeyValidForSevenDays` and `LicenseProperties.NewKeyTokenExpiry` hold with exact equality; in the source a second that ticks between the reads can make the difference 7 days plus one second.
- PyText.ParseInt: accepts an optional sign followed by ASCII decimal digits only. Python's `int()` also accepts underscores between digits and non-ASCII decimal digits; cells holding those read here as 0.
- Sheet cells that are not text are not modelled. Every cell is a string, and a missing cell is the empty string.
