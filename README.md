# Google search scraper: a verified model of its core

`google_scrapping.py` drives a Google search through an anti-detect browser
profile: for each query it gets a proxy, starts a quick profile with that proxy,
opens Google, types the query like a person, checks for a reCAPTCHA, and either
starts the same query again or saves the result titles and URLs to
`google_search.csv`. Most of the script is HTTP and Selenium glue. This project
models the deterministic logic between those calls and proves what it promises:

- **`Proxy`** (`proxy.dfy`) covers `build_proxy_payload`. Python's `str.split(':')`
  is `Split`, and `Join` is its inverse. `int()` of the port is `ParseNat`.
  The descriptor is built from the first four fields, and every failure path gives
  `None`.
- **`Profile`** (`profile.dfy`) covers `buid_qbp_payload`. It builds the
  quick-profile payload, including the seventeen fingerprint flags and their
  settings.
- **`Typing`** (`typing.dfy`) covers `human_typing`.
  - The search box is a class `SearchBox`. Its list of received keys grows
    through `SendKeys`.
  - The random draws are an oracle with one entry per character.
  - `Replay` computes the text a box holds after a stream of keys, where
    BACKSPACE erases the last character.
- **`Challenge`** (`challenge.dfy`) covers `check_recaptcha`. It is a decision
  over what its three waits observed. It returns a verdict and the frame
  switches and refresh it performs.
- **`Results`** (`results.dfy`) covers `find_elements`, given the result anchors
  of the page in order.
- **`Csv`** (`csv.dfy`) covers `save_to_csv`. The output file is a class
  `CsvFile` that holds an existence flag and its rows.
- **`Workflow`** (`workflow.dfy`) covers `main`.
  - The outside world's part in one pass of the loop body is an `Attempt`. An
    attempt records what the proxy service returned, whether validation
    accepted it, the profile id, whether navigation succeeded, the typing
    draws, the challenge observations, the page, and the formatted date and
    time.
  - `RunQueries` is the loop. Like the source, it calls itself at the same
    index when a challenge is unresolved.
  - `RunQueries` is proved equal to the function `Loop`, which takes the loop
    body as a parameter.
  - The ghost predicate `Realizes` pins that body to `PassSpec`. `PassSpec` is
    one pass written as a function.
- **`WorkflowProps`** (`workflow_props.dfy`) proves what every run promises:
  - queries are saved once each and in order, and a restart stays on its query;
  - each step comes from its own attempt;
  - each step types its query and then presses ENTER;
  - only the first save into a new file writes the header.

  Each property is proved once for the control flow `Loop`, assuming a small
  per-pass fact about the body. It is then instantiated for the scraper's own
  body.

External inputs are parameters or `Attempt` fields. These are the configuration
(`PROTOCOL`, `BROWSER_TYPE`, `OPERATIONAL_SYSTEM`), the proxy string, the proxy
validator's answer, the profile id, Selenium's observations, whether the CSV file
exists, and the clock.

Three behaviours of the code are worth knowing:

- A proxy string with more than four fields is accepted, and the fields after the
  fourth are ignored (`RenderParse` covers extra fields).
- A navigation timeout in `browser_to_google` or `find_google_search` is not
  caught. It ends the run with that query's profile still running
  (`NavigationCrash`).
- When `check_proxy` returns `None`, `buid_qbp_payload(None)` raises before any
  profile is started. The run ends there (`ProxyCrash`); there is no retry.

## Model

| member | source | states |
|---|---|---|
| Proxy.Split | google_scrapping.py:216 | `str.split` on one separator always yields at least one field |
| Proxy.SplitCount | google_scrapping.py:216-218 | the number of fields is one more than the number of `:` |
| Proxy.SplitFieldsFree | google_scrapping.py:216 | no field contains the separator |
| Proxy.JoinSplit | google_scrapping.py:216 | joining the fields with `:` gives back the original string |
| Proxy.SplitJoin | google_scrapping.py:216 | splitting a `:`-join of separator-free fields gives back those fields |
| Proxy.ParseNat | google_scrapping.py:225 | `int(parts[1])` succeeds exactly on a non-empty string of decimal digits, at most 4300 of them (CPython's default `sys.int_max_str_digits`, leading zeros included) |
| Proxy.ParseShow | google_scrapping.py:225 | parsing a port's decimal rendering of at most 4300 digits gives back the port |
| Proxy.BuildProxyPayload | google_scrapping.py:208-235 | a payload exists iff the string is present and non-empty, the protocol is non-empty, there are at least four fields and the port parses; on success type = protocol, host = field 0, port = int(field 1), username = field 2, password = field 3 |
| Proxy.FewerThanFourFields | google_scrapping.py:216-220 | a string with fewer than three `:` (fewer than four fields) yields `None` |
| Proxy.RenderParse | google_scrapping.py:216-231 | round trip: rendering a descriptor as `host:port:user:pass`, with any extra fields after it, parses back to that descriptor, for any port of at most 4300 digits |
| Proxy.PayloadFieldsFromString | google_scrapping.py:216-228 | a parsed host, username and password contain no `:`, and the string starts with `host:` |
| Proxy.ExampleDescriptor | google_scrapping.py:196-231 | `"1.2.3.4:8080:user1:pass1"` with protocol `http` parses to host 1.2.3.4, port 8080, user1, pass1 |
| Profile.FlagSetting | google_scrapping.py:320-338 | defines the value of each of the seventeen fingerprint flags |
| Profile.BuildQbpPayload | google_scrapping.py:302-340 | browser and OS are copied; not headless; selenium automation; the proxy's host, port, username and password are copied unchanged and its type is the protocol; one start URL; empty fingerprint; the fixed flag settings |
| Profile.ProfileCarriesParsedProxy | google_scrapping.py:308-314 | the profile built from a parsed proxy string carries exactly the parsed descriptor, whose fields are the string's first four fields |
| Challenge.Restart | google_scrapping.py:484-498 | defines check_recaptcha's return value: True only on the path that still finds the checkbox after the grace wait |
| Challenge.CheckRecaptcha | google_scrapping.py:470-501 | restart iff the iframe and checkbox are found and the checkbox is still there after the grace wait; the page is refreshed iff restarting; the frame is switched iff the iframe is found; the last action is always a switch to default content, so every path ends in the default frame; the verdict is Failed exactly when a non-timeout exception ended the check |
| Challenge.TimeoutsAreNotErrors | google_scrapping.py:488-494 | when every wait either finds its element or times out, the verdict is never Failed |
| Results.Kept | google_scrapping.py:526-534 | defines the pairs find_elements keeps: each anchor in page order whose title and href are both non-empty |
| Results.FindElements | google_scrapping.py:518-543 | returns parallel lists of equal length, holding the titles and URLs of the anchors whose title and href are both non-empty, in page order; a page whose results cannot be located gives two empty lists |
| Results.KeptConcat | google_scrapping.py:526-534 | filtering keeps page order: two consecutive stretches of the page filter to consecutive pairs |
| Results.KeptMembership | google_scrapping.py:532-534 | a pair is kept iff some anchor carries it with a non-empty title and URL |
| Results.KeptCount | google_scrapping.py:526-534 | never more pairs than anchors, and exactly as many when every anchor is complete |
| Csv.Zip | google_scrapping.py:608 | defines Python's `zip` of the titles and URLs |
| Csv.DataRows | google_scrapping.py:608-609 | defines the rows `[date, time, query, title, url]` written for the zipped pairs, in order |
| Csv.SavedRows | google_scrapping.py:595-609 | defines what save_to_csv appends: the header when the file was new, then the data rows |
| Csv.ZipUnzip | google_scrapping.py:608 | zipping the titles and URLs of a list of pairs gives the pairs back |
| Csv.ZipShape | google_scrapping.py:608 | `zip` has the length of the shorter list and pairs equal positions |
| Csv.DataRowsShape | google_scrapping.py:608-609 | one row `[date, time, query, title, url]` per pair, in order |
| Csv.SavedRowsShape | google_scrapping.py:595-609 | the header is written iff the file did not exist, followed by exactly min(len(titles), len(urls)) data rows with the query in column 3 |
| Csv.CsvFile.constructor | google_scrapping.py:594-595 | a file with the given existence flag and rows; a file that does not exist holds no rows |
| Csv.CsvFile.OpenForAppend | google_scrapping.py:598 | opening for append makes the file exist and keeps its rows |
| Csv.CsvFile.WriteRow | google_scrapping.py:609 | a row is appended at the end, and nothing else changes |
| Csv.SaveToCsv | google_scrapping.py:594-616 | afterwards the file exists and has gained the header if it was new, then one row per zipped pair |
| Typing.IsAlnum | google_scrapping.py:558 | defines `char.isalnum()` (ASCII letters and digits) |
| Typing.KeysFor | google_scrapping.py:558-566 | defines the keys of one loop turn: typo letter and BACKSPACE when the draw asks for a typo and the character is alphanumeric, then the character |
| Typing.TypedKeys | google_scrapping.py:557-566 | defines the whole key stream: the keys of each character in turn |
| Typing.SearchBox.constructor | google_scrapping.py:672 | a fresh search box has received no keys |
| Typing.SearchBox.SendKeys | google_scrapping.py:561 | `send_keys` appends one key event |
| Typing.TypeChar | google_scrapping.py:558-566 | one loop turn sends a typo letter and BACKSPACE when the draw asks for a typo and the character is alphanumeric, and then the character |
| Typing.HumanTyping | google_scrapping.py:557-566 | the box receives exactly the key stream `TypedKeys(query, draws)`, after what it already had |
| Typing.ReplayKeysFor | google_scrapping.py:558-566 | the keys of one loop turn add exactly that character to the text in the box |
| Typing.ReplayTyped | google_scrapping.py:557-566 | whatever the draws, replaying the typed stream adds exactly the query to the box's text: each character is typed once, in order, and every typo is erased |
| Typing.TypoShape | google_scrapping.py:558-564 | every BACKSPACE directly follows a lowercase letter and directly precedes an alphanumeric query character |
| Typing.NoEnterTyped | google_scrapping.py:557-566 | the typed stream never contains ENTER: the search is only submitted afterwards |
| Typing.NoTyposTypesQuery | google_scrapping.py:566 | with no typo draws, the key stream is the query's characters one by one |
| Workflow.CheckProxy | google_scrapping.py:251-287 | defines check_proxy as the validator's verdict: the payload when present and accepted (200 or 401), otherwise None |
| Workflow.PassSpec | google_scrapping.py:652-703 | defines one pass of the loop body: proxy failure, navigation failure, restart on an unresolved challenge, or a completed save |
| Workflow.Loop | google_scrapping.py:649-703 | defines main's control flow: a restart runs the same index again, a completed pass moves to the next, a crash ends the run |
| Workflow.BodyOf | google_scrapping.py:652-703 | one pass of the loop body as a function value, which `Realizes` accepts |
| Workflow.AllRowsAppend | google_scrapping.py:701 | the rows appended by two runs of steps are those of the first followed by those of the second |
| Workflow.TypeQuery | google_scrapping.py:674-681 | the search box receives the typed query and then ENTER |
| Workflow.Collect | google_scrapping.py:695-701 | find_elements then save_to_csv: the header flag is "file was new", and the rows appended are the saved rows of the page's kept pairs |
| Workflow.Visit | google_scrapping.py:652-703 | one pass gives the loop body's result; a restart has an unresolved verdict and writes nothing, a completed pass has any other verdict; the file exists afterwards iff it existed or the pass completed, and it gains exactly the completed pass's rows |
| Workflow.LoopAfterPass | google_scrapping.py:684-703 | a proxy or navigation failure ends the run; a restart continues at the same index with the file state unchanged; a completed pass continues at the next index with the file existing |
| Workflow.RunQueries | google_scrapping.py:649-707 | the steps and outcome are exactly those of `Loop` from the start index; the file has gained all the steps' rows, in order; it exists afterwards iff it existed before or some step saved its results |
| WorkflowProps.LoopProgress | google_scrapping.py:651-689 | each step works on the query after those already saved; the saved queries are start, start+1, ... in order; an early stop is at the next unsaved query; a finished run saved every query from the start |
| WorkflowProps.LoopFollowsAttempts | google_scrapping.py:654-684 | step k comes from attempt k: its proxy is the checked one, and its profile and verdict are the attempt's; a crash comes from the attempt right after the last step |
| WorkflowProps.LoopTypesQueries | google_scrapping.py:678-681 | every step leaves exactly its own query in the search box, and presses ENTER exactly once, as its last key |
| WorkflowProps.LoopHeaderOnce | google_scrapping.py:684-701 | restarted steps write nothing; a saving step appends exactly save_to_csv's rows for its own query and its attempt's page, date and time; those rows begin with the header only for the first saving step into a new file |
| WorkflowProps.PassKeepsPromises | google_scrapping.py:652-703 | one pass records its index and restarts iff its challenge is unresolved; it fails on the proxy iff no checked proxy exists; its step comes from its attempt, types its query and presses ENTER once, last; it writes nothing on a restart and otherwise exactly save_to_csv's rows for its query and page, with the header iff the file was new |
| WorkflowProps.BodyKeepsPromises | google_scrapping.py:652-703 | every loop body that realizes the scraper's pass satisfies the per-pass hypotheses of the Loop lemmas |
| WorkflowProps.RunKeepsPromises | google_scrapping.py:649-707 | every run of main, whatever the outside world does, keeps all four run properties: progress, following its attempts, typing its queries and submitting each once, and writing exactly each saving step's rows with the header only on the first save into a new file |

## Left out

- The HTTP side of `signin`, `get_proxy`, `check_proxy`, `start_qbp` and `stop_profile` is network I/O. The proxy string, the validator's verdict and the profile id are `Attempt` fields, so `check_proxy` is only "payload if accepted". Also left out:
  - `check_proxy`'s recursive retry after a `RequestException`, which then reads an unbound `r`;
  - its call to `get_proxy` after a rejection;
  - `start_qbp`'s failure paths;
  - whether `stop_profile` succeeds. A step's profile counts as stopped at the end of its pass.
- Selenium navigation (`browser_to_google`, `find_google_search`, `maximize_window`, `driver.title`, `click`) is a foreign library. Its only effect in the model is the `navigated` flag.
- `driver.refresh()` or `switch_to.frame` raising inside `check_recaptcha` is not modelled separately. A found iframe means it was located and switched into. A refresh is assumed to succeed.
- Exceptions while reading a single result in `find_elements` are not modelled. An anchor that raises is an anchor with no heading, and it is skipped the same way.
- All sleeps and `random.uniform` pauses are wall-clock delays with no effect on keys, rows or control flow. This includes the `i % random.randint(7, 15)` pause in `human_typing`.
- Logging, the timezone formatter, `.env` and `config.json` loading are configuration glue. The configuration values are the `Config` parameters.
- File I/O errors in `save_to_csv` (its `except Exception`) are not modelled: writes always succeed. `os.path.exists` is `CsvFile.present`, and `datetime.now()` is the date and time strings of an `Attempt`.
- `handling_args` and `sys.exit` are the command-line surface.
- Proxy.ParseNat: models `int()` only on non-empty ASCII decimal digits, at most 4300 of them. A sign, surrounding whitespace, `_` separators and non-ASCII decimal digits, which Python's `int()` accepts, are rejected.
- Typing.IsAlnum: `str.isalnum` is restricted to ASCII letters and digits. Other Unicode letters and digits never draw a typo in the model.
- Typing.Replay: a query character in Selenium's key range U+E000-U+E05D (BACKSPACE U+E003, ENTER U+E007, the arrow keys and the other key codes) is typed as an ordinary character. `send_keys` turns such a code point into a key press, so for such a query `Replay` and `TypesQueries` do not describe what the box holds.
- Workflow.RunQueries: the code has no explicit attempt cap. Each restart is a recursive call of `main`; CPython keeps every caller's frame, so the nesting is bounded only by the interpreter's recursion limit, whose `RecursionError` the model does not represent. The model consumes one `Attempt` per pass and stops with `OutOfAttempts` when the finite oracle runs out.
- Workflow.Step: records the proxy descriptor the profile was given, not the whole profile payload. `Profile.BuildQbpPayload` states the rest of that payload.
