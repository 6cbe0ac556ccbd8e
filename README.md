# Dual Plex Control — a verified model of the bot's reports

Dual Plex Control is a Telegram bot that watches several Plex media servers. Its inline
buttons carry short callback tokens (`server_0`, `stats_1`, `main_menu`, …). From those
buttons the bot shows:

- the sessions playing on one server;
- a report of every server's current streams, with user and transcoding totals;
- a report of who is transcoding video or audio;
- a server's CPU, RAM, IP and uptime, read from its Glances monitoring API.

Separately, an HTML report of the current streams is built from a map of servers to
session records.

This project models the logic behind those screens in Dafny:

| module | file | what it models |
|---|---|---|
| `Outcomes`, `JsonValues` | `outcomes.dfy`, `json_values.dfy` | `Option`/`Result`, and decoded JSON with Python truthiness and numeric coercion |
| `SeqFacts` | `seq_facts.dfy` | facts about sequence concatenation and permutations used by the proofs |
| `Text` | `text.dfy` | the Python string operations the bot relies on: `str(int)`, `split('_')`, `int()`, `strip`, `capitalize` |
| `Labels` | `labels.dfy` | the Spanish media-type labels and the progress in whole minutes |
| `Plex` | `plex.dfy` | servers, sessions, transcode sessions, and the result of polling one server |
| `CurrentStreams` | `current_streams.dfy` | `show_current_streams` |
| `TranscodingReport` | `transcoding_report.dfy` | `show_transcoding_users` |
| `Playing` | `playing.dfy` | `view_playing` |
| `Callbacks` | `callbacks.dfy` | the callback tokens built by the keyboards, and how `button` dispatches on them |
| `Glances` | `glances.dfy` | `get_glances_data`: the v3→v4 fallback, status checks, payload shapes and error texts |
| `StreamsHtml` | `streams_html.dfy` | `generate_streams_html` |

### How the model is shaped

- **Messages are token sequences.** Each message is a sequence of abstract lines or blocks, one
  per piece the source appends. The exact emoji-laden text is not reproduced.
- **Loops are methods proved against functions.** The loops of the three Plex reports
  (`show_current_streams`, `show_transcoding_users`, `view_playing`) are methods with `while`
  loops. The loop over transcode sessions (`CountDecisions`) is a method with a `for` loop. The six
  loops of `generate_streams_html` are five methods with `for` loops: `StatSpans` serves both
  statistics-span loops. Each method's `ensures` ties its results
  to a recursive specification function. The properties the source promises are then proved as
  lemmas about that function. The loop invariants of the two multi-server reports rest on the
  step lemmas `CurrentStreams.ReportStep` and `TranscodingReport.ReportStep`: adding one server
  to the prefix of the list appends that server's lines and adds its counts to the totals.
- **A generator expression is a function.** The `sum(1 for …)` count of transcoding sessions
  (html_generator.py:167) is the recursive function `TranscodingCount`.
- **Some loops are not modelled.** The loops over library sections in `update_libraries`,
  `show_server_status` and `show_library_stats` (bot.py:158, 375, 401) make remote calls; see
  "Left out".
- **Remote calls are inputs.** A Plex server's `sessions()` call is a `Poll` value: either the
  fetched sessions or the failure text. Each Glances HTTP round is a `Round` value: a reply
  with a status code and a decoded body, or an unreachable endpoint.
- **The configured server list is a parameter.**

### Behaviour worth knowing

- **Labels are Spanish.** A movie is "Película", an episode is "Episodio", a show section is
  "Serie". Any other type is `capitalize()`d.
- **Tokens carry only an action and a server index** (`playing_1`). The index is parsed with
  `int()`. Python then indexes the list with it, so `server_-1` selects the last server.
- **A missing username aborts the whole server.** `session.usernames[0]` raises IndexError inside
  the per-server `try`.
  - In the current-streams report, the lines already written for that server stay. Its users
    stay counted, but its transcodes do not.
  - In the transcoding report, `usernames[0]` is read only for a session with transcode
    sessions. The server's whole block becomes an error line only when such a transcoding
    session has no user; a nameless session that does not transcode raises nothing.
  - In the playing screen, the whole message becomes an error line.
- **The HTML report escapes nothing.** A logo request answered with a status other than 200
  is rendered as the literal `None` in the image source.
- **Some failures escape `get_glances_data`.** It catches only `RequestException` and
  `ValueError`. A TypeError, AttributeError or ZeroDivisionError raised while reading the
  payloads propagates to the caller. Examples: a `null` memory total, an uptime list whose
  first item is a number, a string CPU payload that contains "total".

## Model

| member | source | states |
|---|---|---|
| Labels.SessionTypeLabel | bot.py:230-235 | "movie" and "episode" get the fixed Spanish labels; any other type keeps its length and letters up to case and is already capitalized |
| Labels.SectionTypeLabel | bot.py:403-408 | "movie" and "show" get the fixed labels; any other section type is its capitalization, as for sessions |
| Labels.SessionAndSectionLabelsDiffer | bot.py:403-408 | the library-section label and the session label agree exactly when the type is neither "episode" nor "show" |
| Labels.ProgressMinutes | bot.py:237 | the minutes shown are the whole minutes of the view offset: `m*60000 <= offset < (m+1)*60000` |
| Labels.ProgressTruncates | bot.py:237 | 59999 ms shows 0 minutes, 60000 ms and 119999 ms show 1 |
| Labels.ProgressMonotone | bot.py:237 | a later offset never shows fewer minutes |
| Text.DigitChar | bot.py:132 | each digit is rendered as the ASCII digit with that value |
| Text.NatToString | bot.py:132 | `str(i)` of an index is a non-empty run of digits without a leading zero |
| Text.DigitsRoundTrip | bot.py:132 | reading back the digits of `str(n)` gives `n` |
| Text.FirstIndex | bot.py:101 | the first position of the separator: it is there and nowhere before |
| Text.Split | bot.py:101 | `split('_')` yields at least one part, no part holds the separator, and joining the parts gives the input back |
| Text.SplitJoin | bot.py:101 | splitting a join of separator-free parts returns those parts |
| Text.TrimStart | bot.py:101 | stripping leading whitespace removes exactly a whitespace prefix and leaves a non-space first character |
| Text.TrimEnd | bot.py:101 | stripping trailing whitespace removes exactly a whitespace suffix and leaves a non-space last character |
| Text.StripLeavesPlain | bot.py:101 | a string with non-space ends is unchanged by stripping |
| Text.ParsePlain | bot.py:101 | on a segment with no white space at either end, `int()` reads the segment as it is |
| Text.ParseInt | bot.py:101 | `int()` reads an all-digit segment as its decimal value, fails with ValueError on a segment holding no digit, and yields a negative number only when the segment holds a minus sign |
| Text.ParseStripped | bot.py:101 | the same three facts for `int()` once the white space is gone; a negative result starts with `-` |
| Text.StripInside | bot.py:101 | every character `strip()` keeps comes from the input |
| Text.ParseRendered | bot.py:101 | `int(str(n)) == n` for every index the keyboards render |
| Text.LowerAll | bot.py:235 | lower-casing keeps the length |
| Text.Capitalize | bot.py:235 | `capitalize()` keeps the length |
| Text.CapitalizeCaseOnly | bot.py:235 | `capitalize()` changes case only and is idempotent |
| JsonValues.Truthy | html_generator.py:231-234 | a decoded value is falsy exactly when it is null, false, zero, the empty string, the empty list or the empty object; the card flag and the transcoding list test this |
| JsonValues.Numeric | bot.py:303 | exactly numbers and booleans take part in arithmetic |
| Plex.PolledUsersAppend | bot.py:221-223 | the total of active users over two lists of servers is the sum of their totals |
| CurrentStreams.NamedPrefix | bot.py:227-228 | the sessions written before `usernames[0]` raises: all have a user, and the next one does not |
| CurrentStreams.CountTranscoding | bot.py:241-243 | a server never has more transcoding sessions than sessions |
| CurrentStreams.ListSessions | bot.py:226-248 | the per-session loop raises exactly when some session has no user; the lines written are those of the sessions before it; without a raise its count is the number of sessions with transcode sessions |
| CurrentStreams.ReportServer | bot.py:217-253 | one server's lines, its user count (counted before any raise) and its transcode count (dropped on a raise) |
| CurrentStreams.ShowCurrentStreams | bot.py:207-256 | the message is the two totals followed by every server's block, in configuration order |
| CurrentStreams.LinesAppend | bot.py:216-253 | the report over two lists of servers is the concatenation of their reports |
| CurrentStreams.TranscodingAppend | bot.py:248 | the transcoding total over two lists of servers is the sum of their totals |
| CurrentStreams.FailedServerIsSkipped | bot.py:251-253 | a server that cannot be reached adds only its error line and nothing to either total |
| CurrentStreams.TranscodingAtMostUsers | bot.py:220-246 | the transcoding total never exceeds the active-user total |
| CurrentStreams.TotalsIgnoreOrder | bot.py:220-246 | any reordering of the servers (two lists with the same multiset of polls) gives the same user total and the same transcoding total |
| CurrentStreams.TwoServersOneDown | bot.py:255-256 | with one server playing two sessions (one transcoding) and one unreachable, the totals read 2 and 1 and the message ends with the connection error |
| TranscodingReport.CountDecisions | bot.py:463-469 | the transcode kinds listed for a session and the video and audio counters, per transcode session in order |
| TranscodingReport.ScanSessions | bot.py:460-486 | the server loop raises exactly when a transcoding session has no user; otherwise it yields one entry per transcoding session and the server's video and audio counts |
| TranscodingReport.ReportTranscodes | bot.py:451-498 | one server's block: the error line, the heading and entries when something transcodes, or "no transcoders"; and the counts it adds to the totals |
| TranscodingReport.ShowTranscodingUsers | bot.py:442-504 | the message is the idle text when both totals are zero, otherwise the totals, the heading and every server's block |
| TranscodingReport.KindsMatchCounters | bot.py:463-469 | the listed kinds hold exactly as many "Video" entries as the video counter and as many "Audio" as the audio counter |
| TranscodingReport.BothDecisionsInOneEntry | bot.py:463-469 | a transcode session transcoding both counts once for each and is listed "Video y Audio" in that order |
| TranscodingReport.CountsPositive | bot.py:463-469 | a session's video (audio) counter is positive exactly when one of its transcode sessions transcodes video (audio) |
| TranscodingReport.ServerCountsPositive | bot.py:488-493 | a server's counters are positive exactly when one of its sessions' counters is |
| TranscodingReport.GuardKeepsCounters | bot.py:488-493 | a reachable server whose loop does not raise adds exactly its counters to the totals |
| TranscodingReport.TotalsAppend | bot.py:488-493 | the video and audio totals are additive over two runs of servers |
| TranscodingReport.TranscodeTotalsIgnoreOrder | bot.py:451-493 | any reordering of the servers (the same multiset of polls) gives the same video total and the same audio total |
| TranscodingReport.IdleWhenAllQuiet | bot.py:500-504 | the idle text is shown exactly when every server is unreachable, raised, or has nothing transcoding |
| TranscodingReport.OneBlockPerTranscodedSession | bot.py:460-486 | the report lists one entry per session the current-streams report marks as transcoding |
| Playing.ViewPlaying | bot.py:174-199 | the error text when the fetch or a username fails, the idle text when nothing plays, else the heading and one block per session |
| Playing.PlayingAgreesWithCurrentStreams | bot.py:183-193 | this screen and the current-streams report show each session with the same user, title, type label and minutes, in order |
| Playing.OneBlockPerSession | bot.py:180-193 | with every session named, the message is the heading followed by one block per session |
| Callbacks.Prefix | bot.py:142-145 | every action prefix is non-empty and holds no `_` |
| Callbacks.Token | bot.py:132-145 | `f"{prefix}_{i}"` is the prefix and `_` followed by a non-empty run of digits |
| Callbacks.Lookup | bot.py:101-102 | when `int(segment)` succeeds and indexes the list, the screen is the same action for the server `Select(servers, int(segment))`, otherwise the error menu; the error is ValueError exactly when `int()` fails, and IndexError exactly when the parsed index is outside `-len <= i < len` |
| Callbacks.Dispatch | bot.py:95-126 | a server screen only comes from that action's branch and shows a configured server; the error menu only comes from a `prefix_` branch; data that no branch matches shows nothing |
| Callbacks.PrefixedNeverUnhandled | bot.py:99-113 | the data of a `prefix_` branch always holds the separator, so `split('_')[1]` exists and is looked up |
| Callbacks.UnhandledExactlyWithoutBranch | bot.py:95-120 | `button` shows nothing exactly when no test of its chain matches the data |
| Callbacks.OptionsKeyboard | bot.py:141-148 | six buttons, the last two going back to the server list and the main menu |
| Callbacks.Select | bot.py:102 | `PLEX_SERVERS[i]` succeeds exactly for `-len <= i < len`, negative indexes counting from the end |
| Callbacks.IndexOf | bot.py:142 | `PLEX_SERVERS.index(server)` is the first position holding that server |
| Callbacks.ServersKeyboard | bot.py:132-133 | one button per server plus the back button |
| Callbacks.TokenParses | bot.py:101 | a rendered token starts with its prefix and `_`, splits into the prefix and the digits of the index, and those digits parse back |
| Callbacks.Route | bot.py:96-120 | the `if`/`elif` chain of `button`; a data string routed to an action's branch starts with that action's prefix and `_` |
| Callbacks.EarlierTestsFail | bot.py:96-113 | a token with one action's prefix fails every test that `button` makes before that action's branch |
| Callbacks.PrefixReachesItsBranch | bot.py:96-113 | data with an action's prefix is handled by that action's branch |
| Callbacks.TokenReachesItsBranch | bot.py:99-113 | a rendered token is handled by its own action's branch |
| Callbacks.TokenRoundTrip | bot.py:99-113 | the token for action `a` and index `i < len` opens screen `a` for server `i` |
| Callbacks.TokenOutOfRange | bot.py:100-125 | a token whose index is past the list falls to the error menu with an IndexError |
| Callbacks.ServerButtonRoundTrip | bot.py:132 | the i-th server-list button opens the options of server i |
| Callbacks.OptionButtonsRoundTrip | bot.py:141-145 | the four option buttons open update, playing, status and stats for the same server |
| Callbacks.FixedDataDispatch | bot.py:96-120 | the fixed callback strings reach the server list, current streams, help, main menu and transcoding screens |
| Callbacks.BackToOptionsRoundTrip | bot.py:200-203 | the "back to options" button returns to the same server's options; the other button goes to the main menu |
| Callbacks.FixedButtonsHandled | bot.py:73-78 | every main-menu button is handled, and the back buttons of the error and server-list screens reach the main menu |
| Callbacks.PrefixedLookup | bot.py:99-113 | data made of an action's prefix and one segment opens the screen that segment selects |
| Callbacks.ParseMinusOne | bot.py:101 | `int("-1")` is -1 |
| Callbacks.ParseLetter | bot.py:101 | `int("x")` fails |
| Callbacks.NegativeIndexWraps | bot.py:99-102 | `server_-1` opens the options of the last server |
| Callbacks.NonNumericIndex | bot.py:111-125 | `stats_x` falls to the error menu with a ValueError for "x" |
| Glances.Contains | bot.py:294 | `key in x` is a key test on objects, fails with TypeError on numbers, booleans and null |
| Glances.Subscript | bot.py:295 | `x[key]` after a successful `in` yields the field of an object and fails on arrays and strings |
| Glances.Get | bot.py:310-311 | `.get(key, default)` is the field or the default on objects and an AttributeError otherwise |
| Glances.Divide | bot.py:303 | division succeeds exactly on two numeric operands with a non-zero divisor; a non-numeric operand is a TypeError |
| Glances.FormatFixed | bot.py:323 | `:.1f` accepts exactly numbers and booleans; a string is a ValueError |
| Glances.CpuUsage | bot.py:294-299 | the CPU reading is the "total" of the object or of the first list item; it fails only with TypeError or the CPU ValueError, and a number, boolean or null payload is a TypeError |
| Glances.MemUsage | bot.py:302-307 | a memory reading always has a non-zero total; it fails only with the memory ValueError, a TypeError or a ZeroDivisionError, and a number, boolean or null payload is a TypeError |
| Glances.Uptime | bot.py:314-321 | a string payload is the reading; an object's "uptime" field is read when present; in a list, a string first item is the reading and an object first item gives its "uptime" field or "No disponible"; it fails only on a list, with AttributeError |
| Glances.Query | bot.py:264-273 | a round of four requests succeeds exactly when every endpoint answered, and keeps the four replies |
| Glances.GetGlancesData | bot.py:262-329 | the result of the v3 round, retried once on v4 when any v3 reply is a 404 |
| Glances.ErrorText | bot.py:325-329 | exactly the status, connection and processing failures produce an error text |
| Glances.UsedReplies | bot.py:275-285 | the replies the status test looks at are v3's when they hold no 404, or v4's after a 404 at v3; there are none exactly when a request of the round used raised |
| Glances.NoRetryWithoutNotFound | bot.py:275-285 | without a 404 on v3 the v4 round is never used |
| Glances.RetryIgnoresFirstRound | bot.py:275-285 | after a 404 at v3 the result no longer depends on the v3 replies: it is the settled v4 round, or a connection failure when a v4 request raises |
| Glances.OutcomeMatchesStatuses | bot.py:275-325 | metrics or a processing failure only come from four 200 replies; a status error carries the four codes of the round used; a connection failure occurs exactly when a round is unreachable; a 404 in the round used is always reported as a status error |
| Glances.CpuShapes | bot.py:293-299 | CPU usage is read from an object's "total" or from the first item of a list, and every other shape fails |
| Glances.MemShapes | bot.py:301-307 | memory usage is used/total from an object or the first item of a list, and both shapes with numeric fields and a non-zero total give that pair; a missing key in either shape is a ValueError; in either shape a zero total is a ZeroDivisionError, or a TypeError when "used" is not numeric |
| Glances.UptimeFallsBack | bot.py:313-321 | uptime falls back to "No disponible", and fails only for a list whose first item is neither a string nor an object |
| Glances.ProcessFailureReasons | bot.py:299-329 | a processing failure carries one of the CPU, memory or format messages |
| Glances.ErrorTextHead | bot.py:325-329 | every error text starts with "Error" and the three kinds are told apart by their tenth character |
| Glances.ErrorTextsDistinct | bot.py:325-329 | equal error texts come from the same kind of failure |
| StreamsHtml.TranscodingCount | html_generator.py:167 | a server never has more transcoding sessions than sessions |
| StreamsHtml.ComputeStats | html_generator.py:161-173 | the per-server statistics and the two totals, server by server |
| StreamsHtml.StatSpans | html_generator.py:187-202 | one span per server, with its users or its transcodes |
| StreamsHtml.RenderSessions | html_generator.py:222-240 | one card per session, and the transcoding sessions tagged with the server |
| StreamsHtml.RenderServers | html_generator.py:214-242 | every server's section in order, and the list of transcoding sessions |
| StreamsHtml.RenderTranscoding | html_generator.py:245-261 | the transcoding section: present only when the list is non-empty, one card per entry |
| StreamsHtml.GenerateStreamsHtml | html_generator.py:11-273 | the whole document: header, statistics, details heading, server sections, transcoding section, footer |
| StreamsHtml.StatsPerServer | html_generator.py:165-171 | one statistics entry per server, with its name, its session count and its transcoding count, never above the users |
| StreamsHtml.TranscodingAtMostUsers | html_generator.py:161-173 | the transcoding total never exceeds the user total |
| StreamsHtml.TranscodingOfExact | html_generator.py:223-238 | a server contributes one tagged entry per transcoding session, and exactly its truthy-transcoding sessions |
| StreamsHtml.TranscodingListMatchesTotal | html_generator.py:167-238 | the transcoding list is as long as the "Transcodes" total |
| StreamsHtml.TranscodingListExact | html_generator.py:214-238 | an entry is in the list exactly when its session transcodes on the server it is tagged with |
| StreamsHtml.TranscodingOfAppend | html_generator.py:223-238 | the tagged list over two runs of sessions is the concatenation of their lists |
| StreamsHtml.TranscodingStreamsAppend | html_generator.py:214-238 | the transcoding list over two runs of servers is the concatenation of their lists |
| StreamsHtml.SpansOnePerServer | html_generator.py:187-202 | the statistics boxes show one span per server, in order, with that server's count |
| StreamsHtml.CardsFlagged | html_generator.py:223-231 | one card per session, flagged "Sí" exactly when its transcoding field is truthy, "No" otherwise |
| StreamsHtml.EmptyServerSection | html_generator.py:217-242 | a server's section is the "no streams" notice exactly when it has no sessions |
| StreamsHtml.SectionOpensItsServer | html_generator.py:217-242 | each server section opens exactly one server block, its own |
| StreamsHtml.OneSectionPerServer | html_generator.py:216-242 | the server sections open one block per server, in order |
| StreamsHtml.TranscodingCardsOnePerEntry | html_generator.py:250-259 | one transcoding card per list entry, with its server and session |
| StreamsHtml.SectionsHoldNoTranscodingOpen | html_generator.py:214-242 | the server sections never open the transcoding section |
| StreamsHtml.StatsBlocksPlain | html_generator.py:176-209 | the statistics part opens neither a server block nor the transcoding section |
| StreamsHtml.TranscodingSectionIff | html_generator.py:245-261 | the document has a transcoding section exactly when the transcoding total is positive, and the section holds one card per transcode plus its two ends |
| StreamsHtml.TailOpensNothing | html_generator.py:245-273 | the transcoding section and the footer open no server block |
| StreamsHtml.DocumentSectionsFollowServers | html_generator.py:11-273 | the whole document opens one server block per server, in the map's order |

## Left out

- **Telegram I/O is not modelled.** This covers sending and editing messages, answering callbacks, the header image, `is_authorized` and the `start`, `show_main_menu` and `show_help` texts. They only display text.
- **The network is not modelled.** `PlexServer(...)`, `plex.sessions()` and the Glances HTTP requests become input values. Timeouts and concrete exception messages are left abstract.
- **`get_image_as_base64` is an input.** The logo is an `Option<string>`: some base64 text, or none. A logo request that raises is not caught (html_generator.py:5-14), so `generate_streams_html` raises and produces no document. The model always produces one.
- **Messages and documents are not exact strings.** They are token sequences. Exact layout, emoji, CSS and HTML markup are not reproduced.
- **The generation timestamp is not modelled.** The clock reading sits inside the `Details` block.
- **Floating point is left abstract.** CPU and memory figures are `real`. The rounding of `:.1f` and of the memory percentage is not modelled.
- **Invalid JSON bodies are not modelled.** Every 200 reply is taken to carry decoded JSON. The exception that invalid JSON raises depends on the library version.
- **Missing fields are not modelled.** Every session dict in the HTML input has all six fields, so the KeyErrors a missing key would raise are out. Every Plex session has its attributes with values of the expected types, so the AttributeError of a missing attribute and the TypeError of a `None` value (`None.capitalize()`, `None // 60000`) are out as well.
- **`int()` and `capitalize()` are ASCII-only.** Their Unicode digit, space and case tables are not modelled.
- **`update_libraries`, `show_server_status` and `show_library_stats` are modelled only in part.** Their bodies perform remote actions. The model keeps their callback tokens, their keyboards and the section labels of `show_library_stats`. It does not model how `show_server_status` looks up the Glances URL and splits the Glances text.
- **`button` drops the exception text.** The error menu records which exception class the dispatch raised (IndexError or ValueError), not its message.
- **`config.py` is a parameter.** It is not part of this model: `PLEX_SERVERS` is a sequence of servers passed in.
- **Logging is left out.**
- StreamsHtml.GenerateStreamsHtml: requires distinct server names. The input is a Python dict, so its keys are always distinct, and the statistics dict is keyed by the same names.
