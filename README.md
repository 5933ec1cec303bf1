# Bonus scraper pipeline, modelled in Dafny

This project models the per-site pipeline of the bonus scraper:

- **Configuration check** (`get_config`): at start-up every required section and key must be present. The first one missing, in visiting order, stops the program.
- **Session discovery and login** (`get_auth`):
  - the landing page is fetched and the merchant id and name are found with one case-insensitive pattern;
  - the login form is posted to `<site>/api/v1/index.php`;
  - the reply becomes a credential, or fails to `None`.
  - Each attempt first records its time in a bounded window of request timestamps.
- **Fetch-result merging** (`get_bonuses`): the sync form is posted, the status is checked, and the bonus list and the promotions list are concatenated.
- **Bonus normaliser** (`process_bonuses`): every dict record becomes a typed `Bonus` row. Its claim-configuration tags are decoded into flags, a claim type and loss or top-up requirements.
- **Orchestrator** (`process_url`, `main`):
  - every site address is reduced to its scheme and host;
  - the site is logged into, paused for, fetched and normalised;
  - the rows are accumulated in site order;
  - only raised exceptions count as failures;
  - one progress line is reported per site, and a summary at the end.
- **Progress reporter** (`UIHandler`): the counter of processed sites, the status label and the progress line.
- **Web front end** (`app.py`):
  - the filter that turns an uploaded file into a site list;
  - the guards and initial status of a new run;
  - the css class of the status panel;
  - the unit a file size is shown in.

One Dafny module per source file:

| module | file | models |
|---|---|---|
| `Wrappers` | `wrappers.dfy` | `Option` and `Outcome` (a value returned, or an exception raised). |
| `Text` | `text.dfy` | The Python `str` operations used: `upper`, `lower`, `in`, `strip`, `split`, `join`, `replace`, `splitlines`. |
| `PyJson` | `json.dfy` | Decoded JSON values. The Python primitives left uninterpreted (`json.loads`, `float()` of a string, `str()` of a number or container) are fields of the value `Py`. |
| `Http` | `http.dfy` | Replies and transport failures. `Net` hands out replies as inputs, and a trace records every request and pause. |
| `Models` | `models.dfy` | `AuthData` and `Bonus`. |
| `Tracker` | `tracker.dfy` | The `deque(maxlen=200)` request window, as a class. |
| `Config` | `config.dfy` | `configparser` lookups and `get_config`. |
| `Processing` | `processing.dfy` | The normaliser. |
| `Auth` | `auth.dfy` | Discovery and login. |
| `ApiClient` | `api_client.dfy` | The fetch. |
| `Ui` | `ui.dfy` | The `UIHandler` class. |
| `Orchestrator` | `main.dfy` | `process_url` and the loop of `main`. |
| `WebApp` | `web_app.dfy` | The decision rules of the front end. |

Code that changes state step by step is written as methods. Each method is proved equal to a function that specifies it, and the properties are proved about those functions:

- the tag loop and the record loop of the normaliser;
- the nested check loops of `get_config`;
- the site loop of `main`;
- `UIHandler`, the request window and the status record of the front end (classes updated in place).

Where the repository's design description and its code differ, the model follows the code:

- Only an exception that escapes `process_url` counts as a failed site. A refused login or a failed fetch is returned normally and is not counted (main.py:62-64). The description counts every failed site.
- The credential in the code only has to hold strings for `data.id` and `data.token`. The description also asks for non-empty strings (src/acq/auth.py:57-63).
- There is exactly one random pause per site, between the login and the fetch (main.py:26-28). The description pauses before every request.

## Model

| member | source | states |
|---|---|---|
| Models.StoredFlag | src/proc/models.py:42-45 | A flag column is stored as True exactly when the flag was set in memory; unset flags default to False only at storage. |
| Processing.ParseFloat | src/proc/processing.py:9-13 | `None` and every value `float()` rejects give 0.0; any other value gives the number `float()` parses. |
| Processing.StrField | src/proc/processing.py:19-20 | An absent key gives `""`; a present key gives `str()` of its value, which is the string itself for a string. |
| Processing.NumField | src/proc/processing.py:21-27 | An absent key gives 0.0; a present key gives `_parse_float` of its value. |
| Processing.CreateAndMapBonusFields | src/proc/processing.py:15-37 | Each column of a fresh row is read from its own key with its default; the ratio is present exactly when `bonus_fixed` is non-zero, and is then the exact real quotient of `min_withdraw` by `bonus_fixed` (times `bonus_fixed` it gives `min_withdraw`); the raw claim config and condition are kept unparsed, defaulting to `""`; no claim field is set. |
| Processing.ReadFlags | src/proc/processing.py:48-53 | The flag and claim-type assignments of one tag give the row the tag rules specify. |
| Processing.ReadRequirements | src/proc/processing.py:54-64 | The loss and top-up assignments of one tag give the row the tag rules specify. |
| Processing.ParseClaimConfig | src/proc/processing.py:39-67 | The tag loop returns the row decoded tag by tag, in list order, or the row itself when the config is not a `[`-prefixed string decoding to a list. |
| Processing.ProcessBonuses | src/proc/processing.py:69-77 | The record loop returns the specified normalised list. |
| Processing.NormalizeIsMapOverObjects | src/proc/processing.py:69-77 | The result has one row per dict record, in input order; every non-dict entry is dropped. |
| Processing.NormalizeAppend | src/proc/processing.py:71-76 | Normalising a concatenation of record lists concatenates their normalised lists. |
| Processing.NormalizeKeepsSource | src/proc/processing.py:17-18 | Every row carries the url and merchant name it was normalised with. |
| Processing.DecodingOnlyRaisesFlags | src/proc/processing.py:46-64 | The tag loop touches only the claim fields, and each flag either keeps its value or becomes True. |
| Processing.SameRecordAfterTags | src/proc/processing.py:39-67 | Decoding a row's claim config changes only claim fields, and flags only become True. |
| Processing.MalformedConfigLeavesRow | src/proc/processing.py:42-66 | A raw config that is not a string, does not start with `[`, fails to decode, or decodes to a non-list leaves the row exactly as it was. |
| Processing.NonStringTagSkipped | src/proc/processing.py:47 | A tag that is not a string changes nothing. |
| Processing.ClaimTypeLastWins | src/proc/processing.py:51-53 | The claim type is that of the last tag naming a kind, with REBATE over RESCUE over DEPOSIT within a tag, or the previous value when none does. |
| Processing.KeywordsIgnoreCase | src/proc/processing.py:48-53 | Two tags equal once upper-cased set the same flags and claim type. |
| Processing.LossRule | src/proc/processing.py:54-60 | A LOSS tag sets its flag; with an `_`, the last segment becomes the percentage (without `%`) when it holds a `%` and the amount otherwise; without `_` only the flag is set; a tag without LOSS leaves the three fields alone. |
| Processing.TopupRule | src/proc/processing.py:61-64 | A TOPUP tag sets its flag, and with an `_` its last segment becomes the top-up amount; a tag without TOPUP leaves both fields alone. |
| Processing.StepAuto | src/proc/processing.py:49 | The tag `AUTO_CLAIM` sets only the auto-claim flag. |
| Processing.StepVip | src/proc/processing.py:50 | The tag `VIP` sets only the VIP flag. |
| Processing.StepLoss | src/proc/processing.py:54-60 | The tag `LOSS_20%` sets only the loss flag and a percentage of 20. |
| Processing.ExampleTopup | src/proc/processing.py:61-64 | The tag `TOPUP_500` sets only the top-up flag and an amount of 500. |
| Processing.ExampleAutoVipLoss | src/proc/processing.py:46-60 | The tags `AUTO_CLAIM`, `VIP`, `LOSS_20%` set both flags, the loss flag and a percentage of 20, nothing more. |
| Text.Upper | src/proc/processing.py:48 | Upper-casing keeps the length and maps every character. |
| Text.ContainsIff | src/proc/processing.py:49-64 | The keyword test holds exactly when the keyword occurs at some position. |
| Text.Split | src/proc/processing.py:56 | `split` gives at least one part, and no part holds the separator. |
| Text.JoinSplit | src/proc/processing.py:56 | Joining the parts of a split with the separator gives back the string. |
| Text.SplitHasManyParts | src/proc/processing.py:57 | A split has more than one part exactly when the separator occurs. |
| Text.SplitAtOnly | src/proc/processing.py:56 | A string with a single separator splits into its two sides. |
| Text.LastPartIsTail | src/proc/processing.py:58 | The last part is the text after the last separator, or the whole string without one. |
| Text.RemoveChar | src/proc/processing.py:58 | `replace(c, '')` keeps exactly the other characters and changes nothing when `c` is absent. |
| Text.RemoveCharCounts | src/proc/processing.py:58 | `replace(c, '')` keeps every other character as many times as it occurs and no `c`. |
| Text.RemoveCharAppend | src/proc/processing.py:58 | Removing `c` from a concatenation removes it from each part and keeps their order. |
| Text.Lower | main.py:18 | Lower-casing keeps the length and maps every character. |
| Text.LStrip | app.py:382 | Leading whitespace, and only that, is removed. |
| Text.RStrip | app.py:382 | Trailing whitespace, and only that, is removed. |
| Text.StripIsTrimmedSlice | app.py:382 | `strip` gives a slice of the line that neither starts nor ends with whitespace, and everything cut off is whitespace. |
| Text.StripIdempotent | app.py:382 | Stripping twice is stripping once. |
| Text.SplitLines | app.py:382 | `splitlines` gives lines without line breaks, and none exactly for the empty text. |
| Text.LineEndAt | app.py:382 | A line break ends a line after one character, or after two for `\r\n`. |
| Text.LineEnds | app.py:382 | Every line but an unterminated last one was ended by one line break or by `\r\n`. |
| Text.SplitLinesRejoin | app.py:382 | The lines of `splitlines`, each followed by the break that ended it, give back the text. |
| Text.SplitLinesAt | app.py:382 | The first line is the text before the first line break, and `\r\n` ends one line, not two. |
| Text.SplitLinesOne | app.py:382 | Non-empty text without a line break is a single line. |
| Tracker.Pushed | main.py:49 | One append keeps at most `capacity` stamps, ends with the new stamp, and evicts the oldest only when the window is full. |
| Tracker.PushedAll | main.py:49 | Any sequence of appends keeps the window within its capacity. |
| Tracker.WindowKeepsNewest | main.py:49 | From empty, the window holds the last `capacity` stamps appended, oldest first, or all of them while fewer. |
| Tracker.RequestWindow.constructor | main.py:49 | A new window is empty with the given capacity. |
| Tracker.RequestWindow.Append | src/acq/auth.py:19 | Appending updates the window as `Pushed` says and keeps it within capacity. |
| Config.Lookup | src/acq/auth.py:46 | `get` succeeds exactly when the option is the section's own or a default, and returns the section's own value first. |
| Config.GetFloat | main.py:26-27 | An absent setting gives the fallback; a present one raises exactly when `float()` rejects it, and otherwise gives the parsed value. |
| Config.FirstAbsent | src/core/config.py:27-34 | The first item not present: every earlier one is present, and none exists only when every item is present. |
| Config.GetConfig | src/core/config.py:7-36 | The start-up check gives the specified verdict: a missing file, the first missing item, or the configuration. |
| Config.CheckRequired | src/core/config.py:27-34 | The nested loops report the first missing section or key in visiting order, or nothing. |
| Config.CheckKeys | src/core/config.py:31-34 | The inner loop reports the first missing key of a section, which is the first absent item overall, or confirms all of them. |
| Config.FirstAbsentIs | src/core/config.py:27-34 | An absent item preceded only by present ones is where the check stops. |
| Config.NothingMissingIff | src/core/config.py:20-34 | Nothing is missing exactly when every listed section exists and has every listed key. |
| Config.AcceptedIff | src/core/config.py:12-36 | The configuration is returned unchanged exactly when the file exists and every required (section, key) pair is present. |
| Config.MissingFileFirst | src/core/config.py:12-14 | A missing file is fatal before any setting is looked at. |
| Config.ReportsFirstAbsent | src/core/config.py:27-34 | A reported error names an absent item all of whose predecessors in visiting order are present. |
| Auth.DigitRunIsRun | src/acq/auth.py:29 | The `\d+` run is maximal: all digits, followed by a non-digit or the end. |
| Auth.SpaceRunIsRun | src/acq/auth.py:29 | The `\s*` run is maximal: all whitespace, followed by a non-space or the end. |
| Auth.NameEndIsFirstClose | src/acq/auth.py:29 | The lazy name group ends at the first quote followed by `;`, and fails only when a newline comes before every such quote. |
| Auth.FirstWhere | src/acq/auth.py:29 | The leftmost position in range meeting the test, none earlier; none only when no position does. |
| Auth.SearchLeftmost | src/acq/auth.py:29 | `re.search` returns the leftmost match start, and finds one whenever one exists. |
| Auth.MatchAtSound | src/acq/auth.py:29 | What a match returns is laid out in the page as the pattern demands: prefix, digits, `;`, whitespace, prefix, quote, name, quote, `;`. |
| Auth.MatchAtComplete | src/acq/auth.py:29 | Every such layout at a position is matched there, with its id and name. |
| Auth.DiscoverLeftmost | src/acq/auth.py:29-33 | Discovery succeeds exactly when the pattern matches somewhere, and then returns the leftmost match. |
| Auth.DiscoverPage | src/acq/auth.py:29-33 | A page declaring a digit id and a plain name gives back exactly that id and name. |
| Auth.GetAuth | src/acq/auth.py:14-78 | One stamp is appended to the window, then the two steps run as specified. |
| Auth.LoginAttemptedIff | src/acq/auth.py:21-49 | The page is fetched first; the login is posted exactly when the page is non-empty, declares a merchant and both `[auth]` settings exist. |
| Auth.LoginRequest | src/acq/auth.py:45-46 | The login goes to `url + "/api/v1/index.php"` with exactly the module, the configured user name and password, and the discovered id. |
| Auth.LoginReplyCredential | src/acq/auth.py:53-65 | A credential comes exactly from a successful reply whose `data.id` and `data.token` are strings, and holds the discovered merchant, those two and the endpoint. |
| Auth.LoginReplyRaisesIff | src/acq/auth.py:48-78 | The login step escapes only for an unexpected client error, a non-object reply, or a successful reply whose `data` is not an object; timeouts, status and connection errors give `None`. |
| Auth.AuthenticateRaisesIff | src/acq/auth.py:14-78 | The whole credential step escapes only for an unexpected page error, a missing `[auth]` setting after discovery, or an escaping login reply. |
| Auth.CredentialFromPage | src/acq/auth.py:57-63 | A credential names the merchant the page declared and the endpoint posted to, and comes only after both requests. |
| Auth.AuthenticateNeverPauses | src/acq/auth.py:14-78 | The credential step makes requests and never pauses. |
| ApiClient.GetBonuses | api_client.py:22-23 | The fetch makes exactly one post of the sync form to the credential's endpoint. |
| ApiClient.FetchFormFields | api_client.py:13-20 | The sync form carries exactly the six fields, with the credential's merchant id, access id and token. |
| ApiClient.FetchSucceedsIff | api_client.py:22-40 | The fetch never escapes, and yields records exactly for a successful object reply whose `data` is an object. |
| ApiClient.FetchRecordsAreBoth | api_client.py:32-36 | The records are the bonus list followed by the promotions list, each whole and in order; missing lists count as empty. |
| Ui.StatusLabel | src/ui/ui.py:17 | The label is SUCCESS exactly for a successful site with bonuses, and FAIL otherwise. |
| Ui.Decimal | src/ui/ui.py:18-21 | A count is printed as a non-empty run of decimal digits. |
| Ui.DecimalRoundTrip | src/ui/ui.py:18-21 | The printed digits of a count read back as the count. |
| Ui.NoLeadingZero | src/ui/ui.py:18-21 | A printed count starts with 0 only when it is zero. |
| Ui.PadRight | src/ui/ui.py:21 | `{s:<w}` keeps `s` at the front and pads with spaces to width `w`, never truncating. |
| Ui.StatusColumnWidth | src/ui/ui.py:21 | The status column is always eight characters wide. |
| Ui.RenderedProgress | src/ui/ui.py:18-21 | A progress line opens with `[`, the processed count that reads back as itself, and `/`, and it ends with the address. |
| Ui.UIHandler.constructor | src/ui/ui.py:7-9 | A new handler has zero total and zero processed. |
| Ui.UIHandler.SetTotalUrls | src/ui/ui.py:11-13 | Sets the total and leaves the processed count unchanged. |
| Ui.UIHandler.UpdateSiteProgress | src/ui/ui.py:15-21 | Increases the processed count by exactly one and keeps the total. The line carries the new count, the total, the label, the bonus count and the address. |
| Ui.UIHandler.PrintFinalSummary | src/ui/ui.py:23-29 | The summary reports the bonuses and failures as given, and successful sites as processed minus failed. |
| Orchestrator.LStripC0 | main.py:18 | `urlsplit` strips every leading C0 control and space, and nothing after the first other character. |
| Orchestrator.NetlocEnd | main.py:18 | The network location ends at the first `/`, `?` or `#`, or at the end. |
| Orchestrator.SchemeHostParts | main.py:18 | An address `scheme://host…` needs no preparation and parses into the lower-cased scheme and the host. |
| Orchestrator.CleanKeepsSchemeAndHost | main.py:16-20 | An address `scheme://host` with any path, query or fragment cleans to the lower-cased scheme and the host. |
| Orchestrator.CleanedParts | main.py:18 | What parsing keeps is a lower-case scheme or none, and a location without tabs, line breaks, `/`, `?` or `#`. |
| Orchestrator.UnsplitIsClean | main.py:18 | Such a scheme and location, reassembled, parse back into themselves, so the reassembled address cleans to itself. |
| Orchestrator.CleanedIsUnsplit | main.py:17-18 | When parsing does not raise, the cleaned address is the reassembled scheme and location. |
| Orchestrator.CleanedIsRaw | main.py:19-20 | When parsing raises, the address is used exactly as it came. |
| Orchestrator.CleanIsIdempotent | main.py:16-20 | For every address, cleaning the cleaned address changes nothing, including when parsing raised and the raw address was kept. |
| Orchestrator.UnbalancedBracketKeepsUrl | main.py:17-20 | A host with `[` and no `]` makes parsing raise, and the raw address is used. |
| Orchestrator.BareAddressCleansToEmpty | main.py:18 | An address with no scheme and no `//` cleans to the empty string. |
| Orchestrator.ProcessUrl | main.py:15-38 | `process_url` appends one stamp and returns `Process`: the cleaned address's login followed by `AfterLogin`, whose three outcomes are stated by RefusedLoginStops, FailedFetchReports and FetchedRowsReport. |
| Orchestrator.RefusedLoginStops | main.py:22-24 | A refused login gives `([], cleaned, False, 0)`, with no pause and no fetch. |
| Orchestrator.FailedFetchReports | main.py:31-33 | A fetch that fails after a successful login gives `([], cleaned, True, 0)`. |
| Orchestrator.FetchedRowsReport | main.py:35-38 | A successful fetch gives the normalised records, the cleaned address, `True` and the number of records. |
| Orchestrator.PauseThenFetch | main.py:26-33 | After a successful login there is one pause with the configured bounds, then one fetch with the credential's form, and the site succeeds. |
| Orchestrator.NoPauseWithoutCredential | main.py:22-28 | Without a credential there is no pause. |
| Orchestrator.DefaultDelays | main.py:26-27 | Unset delay settings give bounds 1.0 and 3.0. |
| Orchestrator.ReportCountsRows | main.py:31-38 | A returned report counts exactly its rows and carries the cleaned address; rows come only with success, each tagged with the cleaned address and the merchant name. |
| Orchestrator.RunFold | main.py:54-67 | The loop makes one progress line per site and counts at most one failure per site. |
| Orchestrator.RunFoldAppend | main.py:54-64 | Rows, failure counts and effects accumulate site by site, in site order. |
| Orchestrator.RunFoldOne | main.py:58-64 | A site contributes its rows, or none when it raised, and counts one failure exactly when it raised. |
| Orchestrator.NoFailureIff | main.py:62-64 | The failure count is zero exactly when no site raised; refused logins and failed fetches do not count. |
| Orchestrator.OneLinePerSite | main.py:54-67 | The k-th progress line reports the k-th site as number k+1, with failure and no rows when processing it raised. |
| Orchestrator.Record | main.py:55-67 | The bookkeeping of one pass gathers rows, counts a raised failure and reports one progress line. |
| Orchestrator.AttemptSite | main.py:59 | The site is processed with its stripped address, and the window gains that login's stamp. |
| Orchestrator.RecordSite | main.py:60-67 | Recording a site extends the run state by that site. |
| Orchestrator.Visit | main.py:54-67 | One pass extends the run state, the progress counter and the window by one site. |
| Orchestrator.Run | main.py:46-77 | The run state is the specified loop over all sites; the summary gives total rows, sites minus failures and failures; the window holds the last 200 login stamps. |
| WebApp.FilterLinesAppend | app.py:382 | Filtering a concatenation of line lists concatenates their filtered lists. |
| WebApp.FilterOneLine | app.py:382 | A line contributes its stripped form exactly when that is non-empty and does not start with `#`. |
| WebApp.FilterLinesMembers | app.py:382 | Every kept entry is stripped, non-empty and not a comment; every qualifying line is kept; the list never grows. |
| WebApp.SavedListReadsBack | app.py:395 | The list saved with `'\n'.join` splits back into the same list. |
| WebApp.UploadedListReadsBack | app.py:382-395 | The saved site list of any upload reads back unchanged. |
| WebApp.CssClass | app.py:353-359 | The class is running when a run is going, else error for a message starting with Error, else completed for Completed, else idle. |
| WebApp.FormatFileSize | app.py:337-346 | The unit is bytes below 1024, KB below 1024², MB below 1024³, and GB otherwise; the amount times the unit is the size; it is at least one of any unit above bytes and below 1024 of any unit below GB. |
| WebApp.StartsIff | app.py:368-405 | A run starts exactly when none is going, a named file decodes, it lists a site and the list is saved; it starts with exactly those sites. |
| WebApp.Flash | app.py:370-454 | Every ending but a started run is flashed as an error. |
| WebApp.StartedFlashCount | app.py:448 | The success message carries, between its fixed texts, decimal digits that read back as the number of sites started. |
| WebApp.ScraperStatus.constructor | app.py:20-27 | A new status is Idle, zero progress and total, not running, with no times and no css class. |
| WebApp.ScraperStatus.Index | app.py:350-361 | The index page records the panel's class and changes nothing else. |
| WebApp.ScraperStatus.RunScraperRoute | app.py:368-456 | The route decides as specified. A started run is Starting..., progress 0, total = number of sites, running, both times now. A failed start records the error message, is not running and updates the time. A rejection leaves the status untouched. |

## Left out

- Network I/O (the aiohttp session, `raise_for_status`, timeouts, headers, `ssl=False`): replies and failures are inputs through `Net`. Every failure is one of four kinds: timeout, HTTP status, connection, other.
- Real time and randomness: the login stamp is the parameter `now`, and in `Run` the function `clock`. The random pause is recorded as a `Pause` effect with its two bounds; no duration is drawn.
- asyncio, the background run thread and its simulated progress (app.py:407-445), Flask routing, templates, login, downloads and `get_output_files`: these are plumbing around the rules modelled here.
- Logging and console output. The progress lines and the summary are returned as values; the start banner of `set_total_urls` is not modelled.
- The unused `request_tracker` argument of `update_site_progress`.
- The url list loading, the CSV and database output stage of `main` (main.py:40-45, 69-75) and `logger_config.setup_logger`: they live in modules that are not part of this model.
- `os.makedirs` and the file write in `run_scraper_route`: whether saving raised is the input `writeError`. The decoded upload either is text or carries the decoding error.
- Flash categories beyond the error/success split, and the `redirect` responses.
- The `datetime.now()` formatting: the time is the string parameter `now`.
- `configparser` file parsing, inline comments and interpolation, and `sys.exit`: the parsed file is an `Ini` value and the fatal exit is a `Fatal` result.
- pydantic and SQLAlchemy internals: column types, `db_id`, `created_at` and `__tablename__`. `AuthData` validation is reduced to the string test that decides it here.
- The general regex engine and JSON parser: only the one discovery pattern is modelled. `json.loads` is the uninterpreted field `Py.loads`.
- urllib details: it strips the front (C0 controls and space), deletes tabs and line breaks, splits the scheme, the location and the `[`/`]` check, then reassembles. `_checknetloc`, port validation and the scheme cache are not modelled, and neither is `_check_bracketed_host` (Python 3.11.4 and later): it raises ValueError for a bracketed host that is not a valid IP address, such as `http://[abc]/`, and the model then uses the cleaned address where Python uses the raw one.
- Processing.ParseFloat: `_parse_float` catches only ValueError and TypeError, so the OverflowError that `float()` raises for a JSON integer beyond the float range escapes `process_url` and counts the site as failed; the model always returns a number. `float()` of a string is the uninterpreted `Py.floatOf`. Its edge cases (inf, nan, exponents, underscores, surrounding whitespace) are not modelled, and Python's int/float distinction is not kept.
- Text.Upper: only ASCII letters change case. Python's full Unicode case mapping is not modelled, so `Text.Lower`, the case-insensitive pattern and the scheme lower-casing are ASCII-only as well.
- Auth.DigitRunIsRun: `\d` is taken as the ASCII digits. Python's `re` also accepts other Unicode decimal digits.
- Processing.CreateAndMapBonusFields: Python floats are modelled as exact reals. The ratio `min_withdraw / bonus_fixed` is the exact quotient, so its rounding to a double is not modelled: for `min_withdraw = 1.0` and `bonus_fixed = 49.0` the double ratio times 49.0 is 0.9999999999999999, not 1.0. Overflow of the quotient to `inf` is not modelled either.
- WebApp.FormatFileSize: the amount is the exact quotient; the `.1f` rounding and the text around it are not modelled.
