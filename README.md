# smartwifi: a verified model of the analyzer's core

smartwifi analyses Huawei home gateways. A FastAPI backend asks the gateway
management API (NCE) for eight categories of telemetry about one gateway,
keyed by its MAC address. It keeps the answers as a snapshot, flattens the
snapshot into text for a language model, and serves reports and a chat over
it. A Next.js frontend keeps the signed-in user in a small store.

This project models the parts of that system that hold logic, in Dafny:

- `wrappers.dfy` (`Wrappers`): `Option`, `Result` and the HTTP error a route raises.
- `strings.dfy` (`Strings`): the Python string operations the code relies on:
  - `strip` and `split`;
  - removing a character;
  - `upper` (ASCII letters plus the one non-ASCII character whose upper case is all hex, U+FB00);
  - decimal rendering of a number;
  - string order.
- `config.py` → `config.dfy` (`Config`): the settings defaults and the CORS origin list.
- `models.py` → `models.dfy` (`Models`):
  - MAC validation and canonicalisation, as written (where `$` lets a final newline through) and as intended;
  - the field constraints of the request bodies.
- `gateway_analyzer.py` → two modules:
  - `gateway.dfy` (`Gateway`): the analyzer as a class. It holds a lazily created HTTP session and a log of the requests it sent. It covers:
    - the text `_api_call` makes of every outcome of a call;
    - the eight category builders;
    - the two dual-band loops;
    - `analyze_gateway`.
  - `prompts.dfy` (`Prompts`):
    - flattening a snapshot into `contenido`;
    - the chat-history tail;
    - the report-template fallback;
    - the chat template and the `{name}` substitution the prompt library applies to it.
- `main.py` → `endpoints.dfy` (`Endpoints`): the logic inside the routes:
  - the login response;
  - the chat history lines and the query that feeds them;
  - the partial user update;
  - the self-delete guard;
  - the global statistics counters;
  - the listing range.
- `store.ts` → `authstore.dfy` (`AuthStore`): the frontend auth store as a class with its four fields and `login`/`logout`.

Some collaborators are parameters of the model rather than modelled:
- the gateway transport: a function from request to reply;
- `json.dumps`;
- the clock and its formatting;
- password hashing;
- the rows a database query returns.

## Model

| member | source | states |
|---|---|---|
| Strings.Strip | backend/app/config.py:72 | `str.strip()`: the result is the input minus its leading and trailing whitespace, and it neither starts nor ends with whitespace |
| Strings.LeadingSpaces | backend/app/config.py:72 | the whitespace run at the head of a string: every char before it is space, the one after is not |
| Strings.ContentEnd | backend/app/config.py:72 | the whitespace run at the tail of a string, characterised the same way |
| Strings.StripNoSpace | backend/app/config.py:72 | stripping a string without whitespace changes nothing |
| Strings.Join | backend/app/gateway_analyzer.py:297-301 | `sep.join(parts)`: no parts give the empty string; otherwise the text starts with the first part |
| Strings.JoinEndsWithLast | backend/app/gateway_analyzer.py:297-301 | a join of some parts ends with the last part |
| Strings.Split | backend/app/config.py:72 | `str.split(sep)`: one piece per separator plus one, and no piece contains the separator |
| Strings.SplitWithoutSeparator | backend/app/config.py:72 | a string without the separator splits into itself |
| Strings.SplitConcat | backend/app/config.py:72 | splitting `a + sep + b` gives the pieces of `a` followed by those of `b` |
| Strings.SplitJoin | backend/app/config.py:72 | joining the pieces with the separator gives back the input (the inverse of split) |
| Strings.RemoveChar | backend/app/models.py:90 | `replace(c, '')`: the result lacks `c`, is no longer, and holds only chars of the input |
| Strings.RemoveAbsent | backend/app/models.py:90 | removing an absent char changes nothing |
| Strings.RemoveAppend | backend/app/models.py:90 | removal distributes over concatenation |
| Strings.UpperChar | backend/app/models.py:90 | `upper()` of one char: ASCII lower case letters move by 32, other chars (but U+FB00) stay |
| Strings.Upper | backend/app/models.py:90 | `upper()`: the result is at least as long as the input and at most twice; without U+FB00 it keeps the length |
| Strings.UpperKeeps | backend/app/models.py:90 | every char of the input but U+FB00 leaves its upper case in the result |
| Strings.UpperFixed | backend/app/models.py:90 | a string without lower-case letters is its own upper case |
| Strings.UpperPointwise | backend/app/models.py:90 | without U+FB00, upper case keeps the length and works char by char |
| Strings.DigitChar | backend/app/gateway_analyzer.py:140 | the char of a decimal digit has that value |
| Strings.Decimal | backend/app/gateway_analyzer.py:140 | the decimal text of a number is non-empty, all digits, and has no leading zero |
| Strings.DecimalRoundTrip | backend/app/gateway_analyzer.py:140 | reading the decimal text back gives the number |
| Strings.PrefixIsAtMost | backend/app/main.py:539-543 | a string is at least every prefix of it in Python's string order |
| Strings.LexAtLeastTransitive | backend/app/main.py:539-543 | Python's `>=` on strings is transitive |
| Config.WithDefaults | backend/app/config.py:31-59 | unset settings take `ALLOWED_ORIGINS = "*"`, `MAX_CHAT_HISTORY = 20`, `JWT_EXPIRATION_HOURS = 24`; the gateway settings are the given ones |
| Config.AllowedOriginsList | backend/app/config.py:67-72 | `"*"` gives exactly `["*"]`; otherwise one entry per comma plus one, none containing a comma, none starting or ending with whitespace |
| Config.StripInside | backend/app/config.py:72 | stripping a piece keeps it free of the separator |
| Config.OriginsArePieces | backend/app/config.py:72 | entry `i` is piece `i` of the comma split, stripped, in the original order |
| Config.SplitPieceHasNoSpace | backend/app/config.py:72 | pieces of a whitespace-free string are whitespace-free |
| Config.OriginsListRoundTrip | backend/app/config.py:72 | for a whitespace-free setting, joining the list with commas gives the setting back |
| Config.DefaultOriginsAreWildcard | backend/app/config.py:70-71 | the default setting allows every origin |
| Config.EmptyPiecesAreKept | backend/app/config.py:72 | `"x,,y"` yields three entries, the middle one empty |
| Config.TwoOrigins | backend/app/config.py:72 | `"x,y"` yields the two stripped halves |
| Models.StripSeparators | backend/app/models.py:90 | removing `:`, `-` and `.` leaves none of them and adds nothing |
| Models.Normalised | backend/app/models.py:90 | the input after removing the separators and upper-casing: every char that is not a separator (and not U+FB00) leaves its upper case in it |
| Models.ValidateMac | backend/app/models.py:86-94 | the intended `validate_mac`, with `$` read as the end of the input: it accepts exactly when the stripped, upper-cased input is twelve hex digits; the output is the canonical `XX:XX:XX:XX:XX:XX` form whose digits are that input; a rejection carries "MAC address inválida" |
| Models.GroupPairs | backend/app/models.py:94 | joining six pairs with `:` gives 17 chars, a `:` at every third place and the digits in order elsewhere |
| Models.UngroupPairs | backend/app/models.py:94 | the grouped form is canonical, and removing its colons gives the digits back |
| Models.GroupPairsCanonical | backend/app/models.py:94 | grouping twelve hex digits gives a canonical MAC |
| Models.Digits | backend/app/models.py:94 | every canonical MAC is the grouping of a string of twelve hex digits |
| Models.Unseparate | backend/app/models.py:90 | removing a separator that a MAC was written with gives its digits back |
| Models.SeparatedLacks | backend/app/models.py:90 | writing a MAC with a separator adds no other char |
| Models.RemoveBefore | backend/app/models.py:90 | removal of a separator skips a prefix without it |
| Models.CanonicalIsFixedPoint | backend/app/models.py:86-94 | a canonical MAC validates to itself |
| Models.ValidateMacIdempotent | backend/app/models.py:86-94 | validating an accepted output returns it unchanged |
| Models.SeparatorAndCaseIgnored | backend/app/models.py:86-94 | twelve hex digits in any case, written with `:`, `-` or `.`, validate to the upper-case canonical form (e.g. `aa-bb-cc-dd-ee-ff` gives `AA:BB:CC:DD:EE:FF`) |
| Models.StripSeparated | backend/app/models.py:90 | stripping separators from a separated MAC gives its digits |
| Models.UpperHexAnyCase | backend/app/models.py:90 | upper-casing hex digits of any case gives upper-case hex digits |
| Models.TenDigitsRejected | backend/app/models.py:82-92 | a ten-digit string fails both the length bound and the validator |
| Models.ForeignCharacterRejected | backend/app/models.py:91-92 | any char that is not a hex digit of either case, not a separator and not U+FB00 (a space, a `g`, a `Z`) makes validation fail |
| Models.ContainsKeptByStrip | backend/app/models.py:90 | a char that is not a separator survives the stripping |
| Models.RemoveKeeps | backend/app/models.py:90 | removing one char keeps every other char |
| Models.ValidateMacAsWritten | backend/app/models.py:91-94 | the validator as written, with Python's `$`: accepts exactly when the pattern matches; its output is canonical and its digits are the first twelve chars of the stripped, upper-cased input |
| Models.AsWrittenDiffersOnlyOnTrailingNewline | backend/app/models.py:91 | the written validator agrees with the intended one on every input except twelve digits followed by a newline |
| Models.TrailingNewlineAccepted | backend/app/models.py:82-94 | twelve hex digits plus `"\n"` pass the length bound and the written validator, so the `mac_address` field accepts them, and the intended validator rejects them |
| Models.CheckLength | backend/app/models.py:35-187 | a `min_length`/`max_length` constraint passes exactly when the length is within the bounds |
| Models.CheckMacAddress | backend/app/models.py:82-94 | the `mac_address` field is accepted exactly when its length is 12..17 and the validator as written accepts it (so a final newline gets through); it then holds the canonical form of the first twelve digits |
| Models.ParseModo | backend/app/models.py:83 | `modo` matches `^(single|bulk)$` exactly when it is one of the two words |
| Models.ParseGatewayRequest | backend/app/models.py:81-94 | the request body parses exactly when the MAC (checked as written) and `modo` are valid; it then holds the canonical MAC, the mode (default single) and `incluir_eventos` (default true); otherwise there are one or two errors, the MAC's first when the MAC is wrong |
| Models.CheckPassword | backend/app/models.py:35-41 | a password is accepted exactly when it has at least 8 chars, and kept as given |
| Models.CheckPregunta | backend/app/models.py:121 | a question is accepted exactly when it has 1 to 1000 chars |
| Models.CheckPromptTemplate | backend/app/models.py:187 | a prompt template is accepted exactly when it has at least 100 chars |
| Models.CheckBulkList | backend/app/models.py:97 | a bulk request is accepted exactly when it lists 1 to 50 MACs |
| Gateway.RequestFor | backend/app/gateway_analyzer.py:114-132 | a call sends the URL, the credentials, the YANG JSON headers and the timeout; a GET carries the params and no body, a POST carries the body and no params |
| Gateway.CallTextShape | backend/app/gateway_analyzer.py:114-144 | whatever the outcome, the text starts with a newline; an HTTP error gives the `[i]` text and any other failure the `[!]` text |
| Gateway.CallText | backend/app/gateway_analyzer.py:114-144 | `_api_call` always returns a text, and it starts with a newline |
| Gateway.CallKindReadable | backend/app/gateway_analyzer.py:135-144 | the text tells which way the call ended: data, unavailable or failed |
| Gateway.StatusReadBack | backend/app/gateway_analyzer.py:140 | after an HTTP error with a decodable body, the status code can be read back from the text after the `[i]` prefix |
| Gateway.SingleRequest | backend/app/gateway_analyzer.py:146-228 | a single-call category sends its own verb with its own timeout (15 s, 20 s for performance) |
| Gateway.BandRequest | backend/app/gateway_analyzer.py:184-188 | a band call is a GET with the MAC and the radio type as params |
| Gateway.CategoryText | backend/app/gateway_analyzer.py:146-228 | every category text starts with its banner (80 `=`, title, 80 `=`) whatever the calls return, and has more after it |
| Gateway.DualBandLayout | backend/app/gateway_analyzer.py:181-219 | a dual-band category makes exactly two calls, 2.4G then 5G; its text is the banner, the 2.4G heading and text, then the 5G heading and text |
| Gateway.TwoBandRequests | backend/app/gateway_analyzer.py:186-188 | over two bands, the calls are the first band's call followed by the second's |
| Gateway.TwoBandTexts | backend/app/gateway_analyzer.py:186-190 | over two bands, the text is the first band's heading and call text followed by the second's |
| Gateway.BandStep | backend/app/gateway_analyzer.py:186-188 | one more band adds its heading and call text to the text and its request to the calls |
| Gateway.MacIsSent | backend/app/gateway_analyzer.py:146-228 | every request of a category carries the MAC: as a query param of a GET or in the body of a POST |
| Gateway.PerformanceWindow | backend/app/gateway_analyzer.py:163-175 | the performance query covers the hour that ends at the time of the call |
| Gateway.SnapshotKeys | backend/app/gateway_analyzer.py:235-246 | the snapshot holds `mac_address`, `timestamp` and the eight category keys, in that order, each with its value |
| Gateway.SnapshotKeyOrder | backend/app/gateway_analyzer.py:235-246 | whatever the reports, the snapshot's keys are `mac_address`, `timestamp`, `basic_info`, `connected_devices`, `performance_data`, `wifi_band_info`, `guest_wifi_info`, `downstream_ports`, `neighboring_ssids`, `session_info`, in that order, each category's report under its key |
| Gateway.SnapshotOf | backend/app/gateway_analyzer.py:230-248 | the snapshot of an analysis has those ten keys in order, the MAC, the local time, and the eight category reports in category order |
| Gateway.KeysDistinct | backend/app/gateway_analyzer.py:235-246 | the category keys are pairwise different and differ from the two metadata keys |
| Gateway.AnalysisSendsTen | backend/app/gateway_analyzer.py:230-248 | an analysis sends ten requests: six single calls and two per dual-band category |
| Gateway.HttpSession.constructor | backend/app/gateway_analyzer.py:94 | a new session holds no credentials yet |
| Gateway.GatewayAnalyzer.constructor | backend/app/gateway_analyzer.py:84-89 | the analyzer takes the gateway URL and credentials from the settings and starts without a session |
| Gateway.GatewayAnalyzer.GetSession | backend/app/gateway_analyzer.py:91-100 | the session and headers are created on first use only; later calls return the same session and leave the headers as they were |
| Gateway.GatewayAnalyzer.ApiCall | backend/app/gateway_analyzer.py:102-144 | a call sends exactly one request through the session and returns the call text of its reply |
| Gateway.GatewayAnalyzer.CategoryReport | backend/app/gateway_analyzer.py:146-228 | a category builder returns the category text and sends exactly the category's requests |
| Gateway.GatewayAnalyzer.DualBandReport | backend/app/gateway_analyzer.py:181-219 | the band loop returns the banner followed by each band's heading and text, and sends one request per band, in order |
| Gateway.GatewayAnalyzer.AnalyzeGateway | backend/app/gateway_analyzer.py:230-248 | the analysis returns the snapshot of the ten keys in order and sends the requests of the eight categories in order |
| Prompts.ReportEntries | backend/app/gateway_analyzer.py:259-263 | flattening renders at most one entry per snapshot entry |
| Prompts.Contenido | backend/app/gateway_analyzer.py:259-263 | `contenido` is empty when nothing is rendered, and otherwise starts with the first rendered entry |
| Prompts.EntriesAppend | backend/app/gateway_analyzer.py:259-263 | flattening works entry by entry over a concatenation of snapshots |
| Prompts.EntriesAreTheKeptOnes | backend/app/gateway_analyzer.py:259-263 | every non-metadata entry is rendered, and every rendered entry comes from a non-metadata entry |
| Prompts.DropsMetadata | backend/app/gateway_analyzer.py:259-263 | with the two metadata entries first, the rendered entries are the remaining ones, in order |
| Prompts.MetadataVanishes | backend/app/gateway_analyzer.py:262 | `mac_address` and `timestamp` render nothing |
| Prompts.KeptPrefix | backend/app/gateway_analyzer.py:259-263 | entries without metadata render one to one, in order |
| Prompts.SnapshotFlattens | backend/app/gateway_analyzer.py:235-263 | an analysis snapshot flattens to eight entries, `KEY:\nvalue` for each category in order |
| Prompts.SliceStart | backend/app/gateway_analyzer.py:307 | a Python slice start always lands inside the list |
| Prompts.TailSlice | backend/app/gateway_analyzer.py:307 | `lines[-max:]` is a suffix of the lines; a positive limit keeps the last `min(len, max)` lines, a limit of 0 keeps all of them |
| Prompts.TailSliceNegativeDropsFirst | backend/app/gateway_analyzer.py:307 | a negative limit drops lines from the front instead |
| Prompts.HistoryText | backend/app/gateway_analyzer.py:304-307 | the history text is empty exactly when the history is missing or empty, and otherwise starts with the history header |
| Prompts.ReportTemplate | backend/app/gateway_analyzer.py:266 | the template used is never empty: a given non-empty template is used as it is, a missing or empty one falls back to the default prompt |
| Prompts.CloseBrace | backend/app/gateway_analyzer.py:334-341 | the first `}` after a position |
| Prompts.Format | backend/app/gateway_analyzer.py:334-337 | the prompt library's substitution: a missing-variable error never names the supplied variable |
| Prompts.FormatBraceFree | backend/app/gateway_analyzer.py:334-337 | a template without braces fills in to itself |
| Prompts.FormatPlain | backend/app/gateway_analyzer.py:334-341 | substitution copies brace-free text unchanged |
| Prompts.FormatEscapedChar | backend/app/gateway_analyzer.py:320-337 | `{{` and `}}` fill in to one brace, any other char to itself |
| Prompts.FormatField | backend/app/gateway_analyzer.py:320-341 | the `{name}` field is replaced by the value |
| Prompts.FormatEscaped | backend/app/gateway_analyzer.py:320-341 | doubled braces come out as single ones: escaping then formatting gives the text back |
| Prompts.ChatIntroIsBraceFree | backend/app/gateway_analyzer.py:310-313 | the chat template's opening text has no braces |
| Prompts.DataHeadingIsBraceFree | backend/app/gateway_analyzer.py:315-316 | the data heading has no braces |
| Prompts.QuestionHeadingIsBraceFree | backend/app/gateway_analyzer.py:318-319 | the question heading has no braces |
| Prompts.ChatClosingIsBraceFree | backend/app/gateway_analyzer.py:321-324 | the chat template's closing text has no braces |
| Prompts.FillsIn | backend/app/gateway_analyzer.py:310-341 | a template of brace-free text, escaped history, escaped content and the `{pregunta}` field formats to the intended text |
| Prompts.FillsQuestion | backend/app/gateway_analyzer.py:319-324 | the question part of the template formats to the question |
| Prompts.PlainThen | backend/app/gateway_analyzer.py:334-341 | brace-free text before a successful rest formats to itself plus the rest |
| Prompts.EscapedThen | backend/app/gateway_analyzer.py:334-341 | escaped text before a successful rest formats to the original text plus the rest |
| Prompts.ChatTemplateFormats | backend/app/gateway_analyzer.py:310-341 | the corrected chat template always formats, to the intended prompt with the question in its place |
| Prompts.FieldMismatch | backend/app/gateway_analyzer.py:334-341 | a `{x}` field for a variable not supplied is an error naming `x` |
| Prompts.ChatAsWrittenFailsOnObject | backend/app/gateway_analyzer.py:310-341 | as written, content that holds a JSON object `{x}` makes the prompt fail with a missing variable `x` |
| Prompts.EscapeBraceFree | backend/app/gateway_analyzer.py:310-324 | escaping text without braces changes nothing |
| Prompts.ChatPromptAsWritten | backend/app/gateway_analyzer.py:295-337 | the chat prompt as written comes out as intended whenever neither the history nor the content holds a brace |
| Prompts.ChatPromptAsWrittenFails | backend/app/gateway_analyzer.py:295-337 | as written, a snapshot whose content holds a JSON object `{x}` makes the chat prompt fail with a missing variable `x` |
| Prompts.ChatPrompt | backend/app/gateway_analyzer.py:295-337 | the chat prompt built with the corrected template, whose history and content braces are escaped: it always fills in, to the intro, the history tail, the flattened snapshot, the question and the closing, in that order |
| Endpoints.Login | backend/app/main.py:140-163 | login fails with 401 exactly when the credentials match no account; otherwise the token is a bearer token living `JWT_EXPIRATION_HOURS * 3600` seconds |
| Endpoints.DefaultTokenLivesOneDay | backend/app/main.py:161 | with the default settings a token lives 86400 seconds |
| Endpoints.TranscriptLines | backend/app/main.py:459-463 | each row gives two lines, `Humano: q` then `Asistente: a`, in row order; no rows give no lines |
| Endpoints.BuildHistorial | backend/app/main.py:459-463 | the loop builds exactly the transcript lines of the rows |
| Endpoints.TranscriptAppend | backend/app/main.py:459-463 | the transcript of a concatenation is the concatenation of transcripts |
| Endpoints.ContextLinesAsWritten | backend/app/main.py:452-463 | as written, once there are more than `max` rows, the chat sees `max` lines that end at the answer of row `max`, never at the newest one |
| Endpoints.ContextLines | backend/app/main.py:452-463 | with the newest rows fetched, the chat sees the last `max` lines of the whole conversation, ending at the newest answer |
| Endpoints.NewestLinesAreLatest | backend/app/main.py:452-463 | the last `max` lines of the newest `max` rows are the last `max` lines of the whole conversation |
| Endpoints.TailOfLonger | backend/app/gateway_analyzer.py:307 | the last `max` lines of a list depend only on a long enough tail of it |
| Endpoints.AsWrittenMissesThirdQuestion | backend/app/main.py:452-463 | with three rows and a limit of 2, the written query's lines are `b`/`2`; the corrected query's lines are `c`/`3` |
| Endpoints.BuildUpdateData | backend/app/main.py:248-257 | the update has a key exactly for each given field, with its value; the password is stored only as its hash under `password_hash` |
| Endpoints.PrepareUpdate | backend/app/main.py:248-263 | an update with no field given fails with 400 "No hay datos para actualizar"; otherwise the update has a key exactly for each given field, with its value, and holds the password only as its hash |
| Endpoints.DeleteGuard | backend/app/main.py:286-290 | deleting is refused with 400 exactly when the target is the current user |
| Endpoints.CountActive | backend/app/main.py:531 | active users are at most all users |
| Endpoints.CountOnDay | backend/app/main.py:539 | today's analyses are at most all analyses |
| Endpoints.CountSince | backend/app/main.py:543 | the week's analyses are at most all analyses |
| Endpoints.GlobalStats | backend/app/main.py:529-543 | `usuarios_activos <= total_usuarios`, `analisis_hoy` and `analisis_semana <= total_analisis`, totals being the list lengths |
| Endpoints.TodayWithinWeek | backend/app/main.py:538-543 | when today's date is not before the week's start, every analysis of today is counted in the week |
| Endpoints.ListingRange | backend/app/main.py:371 | the inclusive range starts at `offset` and spans `limit` positions |
| Endpoints.Positions | backend/app/main.py:371 | the positions from `offset`, `limit` of them, consecutive |
| Endpoints.ListingHoldsLimit | backend/app/main.py:371 | the range `[offset, offset + limit - 1]` holds exactly `limit` positions, and a position is in it exactly when it lies between the bounds |
| AuthStore.SignedOut | frontend/src/lib/store.ts:37-57 | the signed-out state satisfies the store's invariant and is neither signed in nor admin |
| AuthStore.SignedIn | frontend/src/lib/store.ts:42-48 | the signed-in state satisfies the invariant, is signed in, and is admin exactly when the user's role is admin |
| AuthStore.AdminIsAuthenticated | frontend/src/lib/store.ts:37-58 | in a consistent state, admin implies signed in with a token |
| AuthStore.ConsistentStates | frontend/src/lib/store.ts:37-58 | every consistent state is signed out or signed in as its own user |
| AuthStore.Store.constructor | frontend/src/lib/store.ts:37-40 | a new store is signed out: no token, no user, not authenticated, not admin |
| AuthStore.Store.Login | frontend/src/lib/store.ts:42-49 | login stores the token and the user, signs in, and sets admin exactly for the admin role |
| AuthStore.Store.Logout | frontend/src/lib/store.ts:51-58 | logout resets all four fields to the signed-out state, from any state, so a second logout changes nothing |

## Left out

- Gateway transport: HTTP, TLS, `verify=False` and real timeouts are not modelled. The transport is a function from request to reply, and a session holds only the credentials it sends. The timeout values are kept as data.
- The fixed parts of the requests are not spelled out: a JSON body is kept by the values that vary (the MAC and the time window), and the header set (`application/yang-data+json` for content and accepted type) by one constant. The paths are the literal strings appended to the base URL.
- `json.dumps` pretty-printing, `datetime.now().isoformat()` and `strftime` are parameters. The clock is an integer of seconds, and the performance window starts 3600 seconds before it.
- Gateway.GatewayAnalyzer.GetSession: creating a session cannot fail in the model. In the code, `_get_session` runs inside the `try` of `_api_call`, so a failure there would become `[!]` text. The model follows the code in that such a failure is not fatal, but it does not produce that text.
- The language model calls (`ChatGoogleGenerativeAI`, `chain.invoke`) and `AI_TEMPERATURE` (a float) are not modelled. The prompts stop at the text sent to the model.
- Prompts.ReportTemplate: it states which template is chosen, not the result of substituting `{contenido}` into `DEFAULT_PROMPT`. That default text is kept verbatim, but that it holds no other brace is not proved.
- The prompt library's substitution is modelled for the one variable each template supplies. Format specs, conversions (`{x!r}`, `{x:>5}`) and attribute or index access inside a field are not modelled; they count as an unsupplied field name.
- Supabase is not modelled: every query, insert, update and delete, and backend/app/database.py. Query results are sequences given to the functions.
- The 404 paths after a write are not modelled, since they depend only on what the database returns.
- backend/app/auth.py is not part of this model: bcrypt hashing and JWT encoding. The password hash is a function parameter; the token is a string parameter.
- FastAPI routing, the CORS middleware, exception handlers, startup events and environment loading (`.env`, `lru_cache`) are not modelled.
- Endpoints.ListingHoldsLimit: negative `offset` or `limit` values are passed to the database as they are. The count of positions is stated only for `limit >= 0`.
- Endpoints.CountOnDay, Endpoints.CountSince: dates are strings compared as Python compares them. Computing today's date and the date seven days back is left to the caller.
- The `persist` middleware of the frontend store (saving to local storage under `auth-storage`) is not modelled, nor is the rest of the frontend (React pages, axios client).
- Strings.UpperChar: Python's `upper()` is modelled on ASCII letters and U+FB00 only. Other characters keep their case. No other character upper-cases to a string of hex digits, so MAC acceptance is unaffected.

## Findings

| source | as written | input that shows it | evidently intended | confidence | as-written member | corrected member |
|---|---|---|---|---|---|---|
| backend/app/models.py:91 | `re.match(r'^[0-9A-F]{12}$', v)` also matches before a final newline | `"aabbccddeeff\n"` (13 chars, inside the 12..17 bound) is accepted as `AA:BB:CC:DD:EE:FF` | accept exactly twelve hex digits | high, not executed | Models.TrailingNewlineAccepted | Models.ValidateMac |
| backend/app/main.py:452-457 | history rows ordered by `created_at` ascending, then `limit(MAX_CHAT_HISTORY)`: the oldest rows | rows a/1, b/2, c/3 with a limit of 2 give the lines of `b`/`2` and lose the latest turn `c`/`3` | the latest `MAX_CHAT_HISTORY` rows, oldest first | high, not executed | Endpoints.AsWrittenMissesThirdQuestion | Endpoints.ContextLines |
| backend/app/gateway_analyzer.py:310-324 | the f-string pastes the history and the content into the template unescaped, and `PromptTemplate` then reads their braces as fields | a snapshot value holding the JSON object `{"a": 1}` makes formatting fail with a missing-variable error instead of producing the prompt | the content and the history appear verbatim, and only `{pregunta}` is a field | high, not executed | Prompts.ChatPromptAsWrittenFails | Prompts.ChatPrompt |
