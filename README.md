# Björnify playback dispatcher and hass start-up, in Dafny

Björnify is a Discord bot that adds tracks to the Spotify playback queue and
pauses or skips playback. When the Spotify Web API refuses a pause or a skip
with 403 ("restricted device"), the bot falls back to controlling the Sonos
speaker that plays Spotify, through SoCo. When the API answers 401, the bot
refreshes its OAuth token once and retries. The same repository ships a
second bot, `hass`, which forwards messages from one Discord channel to Home
Assistant Assist. It configures Python's `logging` from environment variables
at start-up.

The model covers the decision logic of both bots. Spotify, SoCo, Discord and
the environment sit outside the model: what they answer is an input, and
what the bot asks of them is recorded in the result.

- `outcomes.dfy` (`Outcomes`): `Option`; `Query`, the outcome of a foreign
  call (it returned a value, or it raised); Python's `dict.get`.
- `text.dfy` (`Text`): the Python string operations the core relies on.
  These are `strip()`, `lower()`, `upper()`, `split(",")`, `in`,
  `startswith`, and `int(str)` with its inverse `str(int)`. Each has the
  properties the rest of the model needs proved about it, such as the
  `split`/`join` round trip and `int(str(n)) == n`.
- `sonos_classifier.dfy` (`SonosClassifier`): `find_playing_speaker`.
  - A speaker is its name plus the answers of its transport-info and
    track-info queries.
  - The three recognition patterns form an ordered table (`Patterns`).
  - The scan is a loop method proved equal to the specification function
    `FirstPlaying`.
- `spotify_dispatch.dfy` (`SpotifyDispatch`): `spotify_action_with_soco_fallback`
  as the decision-tree function `Dispatch`.
  - A run is the reply (a reaction glyph, or an exception that escapes)
    plus the trace of effects caused: status query, Spotify call, token
    refresh, speaker scan, SoCo call.
  - The class `SpotifySession` holds the global client and the cached
    token, counted in generations.
  - Its `RefreshSpotifyToken` replaces both. Its dispatcher method, proved
    equal to `Dispatch`, changes them exactly when a refresh completes.
  - The dispatcher's Spotify action stays bound to the client generation it
    was created with.
- `playback_queue.dfy` (`PlaybackQueue`): `player_add_item_to_playback_queue`.
  - Its answers (search, playback status, queueing, device list, start of
    playback) are inputs.
  - Device selection is a loop method proved equal to `ChosenDevice`.
- `hass_logging.dfy` (`HassLogging`): the start-up configuration of `hass.py`.
  - It parses `LOG_OUTPUT` into a set of output names and validates
    `LOG_LEVEL` and `LIB_LOG_LEVEL`.
  - It builds the handler list.
  - The class `LoggingState` holds the part of `logging`'s global state the
    configuration changes: the root level and handlers, the `logging.disable`
    level, and the named loggers' levels.
- `hass_routing.dfy` (`HassRouting`): the guard of `on_message`, which
  decides whether a message is ignored, answered through Assist, or makes
  `int(HASS_CHANNEL_ID)` raise.

Three facts about the code shape the model:

- Four failures escape from `spotify_action_with_soco_fallback` as
  exceptions: a failing status query, a non-Spotify exception from the first
  Spotify call, a failing token exchange, and a failing `soco.discover()`.
  Every other failure becomes the "🚫" reply. `EscapesExactly` states this.
- `find_playing_speaker` returns the first qualifying speaker in scan order.
  It tries the three patterns only within one speaker, so an earlier speaker
  recognised by its metadata wins over a later one whose URI carries the
  native stream marker. `ScanOrderBeforePatternOrder` states this.
- There is no conditional token refresh and no playback-state reader.

## Model

| member | source | states |
|---|---|---|
| Text.TrimStart | bjornify/hass.py:27 | the result is a suffix of the input; everything cut off is whitespace; the result does not start with whitespace |
| Text.TrimEnd | bjornify/hass.py:27 | the result is a prefix of the input; everything cut off is whitespace; the result does not end with whitespace |
| Text.Strip | bjornify/hass.py:27-31 | `strip()` is empty exactly when the input is all whitespace; otherwise it neither starts nor ends with whitespace; it holds only characters of the input |
| Text.StripIsSlice | bjornify/hass.py:27-31 | `strip()` is the slice of the input that starts right after the leading whitespace; everything before and after that slice is whitespace |
| Text.SpaceRunEnd | bjornify/hass.py:27-31 | the run of whitespace from an index ends at the end of the string or at a non-whitespace character |
| Text.SpaceRunStart | bjornify/hass.py:27-31 | the run of whitespace before an index starts at the string's start or after a non-whitespace character |
| Text.StripUnpadded | bjornify/hass.py:31 | a non-empty string that neither starts nor ends with whitespace is its own `strip()` |
| Text.StripIdempotent | bjornify/hass.py:31 | stripping twice equals stripping once |
| Text.Lower | bjornify/hass.py:31 | `lower()` keeps the length and leaves no upper-case letter |
| Text.LowerChars | bjornify/hass.py:31 | `lower()` changes exactly the upper-case letters, each into the lower-case letter 32 code points above it, and keeps whitespace in place |
| Text.Upper | bjornify/hass.py:63-66 | `upper()` keeps the length and leaves no lower-case letter |
| Text.UpperChars | bjornify/hass.py:63-66 | `upper()` changes exactly the lower-case letters, each into the upper-case letter 32 code points below it |
| Text.UpperOfLower | bjornify/hass.py:63-66 | `upper()` undoes `lower()` on a string with no lower-case letter |
| Text.LowerOfLower | bjornify/hass.py:31 | a string with no upper-case letter is its own `lower()` |
| Text.UpperOfUpper | bjornify/hass.py:63-66 | a string with no lower-case letter is its own `upper()` |
| Text.SpaceRunEndLower | bjornify/hass.py:31 | `lower()` leaves every run of whitespace ending where it ended |
| Text.SpaceRunStartLower | bjornify/hass.py:31 | `lower()` leaves every run of whitespace starting where it started |
| Text.TrimStartLower | bjornify/hass.py:31 | removing leading whitespace commutes with `lower()` |
| Text.TrimEndLower | bjornify/hass.py:31 | removing trailing whitespace commutes with `lower()` |
| Text.StripLower | bjornify/hass.py:31 | `strip().lower() == lower().strip()` for every string |
| Text.StartsWith | bjornify/bjornify.py:173 | `startswith` holds exactly when the input is at least as long as the prefix and agrees with it at every position of the prefix |
| Text.Contains | bjornify/bjornify.py:166-181 | `sub in s` never holds for a `sub` longer than `s`, and holds for every prefix of `s` |
| Text.ContainsIffOccurs | bjornify/bjornify.py:166-181 | Python's `sub in s` holds exactly when `sub` occurs at some index of `s` |
| Text.Split | bjornify/hass.py:31 | `split(",")` gives at least one piece, and no piece holds a comma |
| Text.JoinSplit | bjornify/hass.py:31 | joining the pieces of `split(",")` with commas gives back the string |
| Text.SplitChars | bjornify/hass.py:31 | every character of every piece occurs in the string split |
| Text.SplitJoin | bjornify/hass.py:31 | splitting comma-free pieces joined with commas gives back those pieces |
| Text.SplitWithoutComma | bjornify/hass.py:31 | a string without a comma splits into itself alone |
| Text.DecimalString | bjornify/hass.py:136 | `str(n)` of a natural number is non-empty decimal digits whose value is `n`; it starts with "0" only when it is "0" itself, and never for a positive `n` |
| Text.DigitCount | bjornify/hass.py:136 | the number of digits `int()` checks against its limit is at most the length of the text |
| Text.DigitCountOfDigits | bjornify/hass.py:136 | a string of digits only has as many digits as characters |
| Text.ParseSigned | bjornify/hass.py:136 | the number part of `int()` rejects the empty string and any digit part of more than 4300 digits; a negative value comes from a leading minus sign |
| Text.ParseInt | bjornify/hass.py:136 | `int()` raises for a blank string and for any string holding an information separator (U+001C to U+001F); a negative value comes from a leading minus sign after stripping |
| Text.IntStringPlain | bjornify/hass.py:136 | `str(n)` has no surrounding whitespace and no information separator |
| Text.ParseSignedIntString | bjornify/hass.py:136 | the number part of `int()` reads `str(n)` back as `n`, for every `n` of at most 4300 digits |
| Text.ParseIntString | bjornify/hass.py:136 | `int(str(n)) == n` for every integer `str` can print (at most 4300 digits), negative ones included |
| SonosClassifier.FirstMatch | bjornify/bjornify.py:165-185 | the index of the first pattern the track matches, no earlier pattern matching; none exactly when no pattern matches |
| SonosClassifier.MatchedPattern | bjornify/bjornify.py:165-185 | no pattern exactly when the URI lacks the stream marker, the URI is not a virtual line-in that mentions `spotify:`, and the metadata lacks the marker; a later pattern is reported only when the earlier ones fail |
| SonosClassifier.PlaysSpotify | bjornify/bjornify.py:147-185 | a speaker qualifies only when both its queries returned and its transport state is `PLAYING` |
| SonosClassifier.FirstPlaying | bjornify/bjornify.py:146-193 | the index of a speaker that plays Spotify, with no earlier speaker that does; none exactly when no speaker does |
| SonosClassifier.FirstPlayingIsFirst | bjornify/bjornify.py:146-193 | conversely, the first speaker that plays Spotify is the one chosen |
| SonosClassifier.FindPlayingSpeaker | bjornify/bjornify.py:138-193 | the scan (skipping speakers whose queries raise or that are not playing, trying the three patterns in order) returns exactly `FirstPlaying` |
| SonosClassifier.UnreadableSpeakerSkipped | bjornify/bjornify.py:147-190 | a speaker whose transport or track query raises never ends or aborts the scan; the answer is that of the speakers after it |
| SonosClassifier.IdleSpeakerSkipped | bjornify/bjornify.py:147-151 | a speaker not in state `PLAYING` is passed over the same way |
| SonosClassifier.ScanOrderBeforePatternOrder | bjornify/bjornify.py:146-185 | an earlier speaker recognised only by its metadata wins over a later one whose URI carries the native stream marker |
| SonosClassifier.VirtualLineInRecognised | bjornify/bjornify.py:173-178 | a virtual line-in URI that mentions `spotify:` is recognised |
| SpotifyDispatch.Dispatch | bjornify/bjornify.py:196-242 | every run answers "✅" or "🚫" or escapes; it starts with the status query; Spotify is called only through the bound action and SoCo only with the same action |
| SpotifyDispatch.DispatchBounds | bjornify/bjornify.py:196-242 | one status query per run; at most one refresh, one scan and one SoCo call; at most two Spotify calls, two only around a refresh; a SoCo call only after a scan; never both a refresh and a scan |
| SpotifyDispatch.NoPlaybackDoesNothing | bjornify/bjornify.py:201-242 | no playback session: "🚫" and nothing after the status query |
| SpotifyDispatch.FirstCallSucceeds | bjornify/bjornify.py:203-207 | a first Spotify call that succeeds gives "✅" with no refresh and no scan |
| SpotifyDispatch.UnauthorizedRefreshesOnce | bjornify/bjornify.py:208-218 | a 401 refreshes exactly once and retries exactly once with the client bound before the refresh; "✅" iff the retry succeeds; no scan; a failing exchange escapes before the retry |
| SpotifyDispatch.ForbiddenWithoutSpeakerFails | bjornify/bjornify.py:219-238 | a 403 with no speaker playing Spotify gives "🚫" after one scan, with no SoCo call and no refresh |
| SpotifyDispatch.ForbiddenFallsBackToSonos | bjornify/bjornify.py:219-236 | a 403 when speaker `i` is the first to play Spotify calls SoCo exactly once, on speaker `i`; "✅" iff that call succeeds |
| SpotifyDispatch.ChosenSpeakerActs | bjornify/bjornify.py:224-236 | the exact run of the 403 branch once the scan chose a speaker |
| SpotifyDispatch.OtherStatusFails | bjornify/bjornify.py:239-240 | any other Spotify status gives "🚫" with no refresh, retry or fallback |
| SpotifyDispatch.EscapesExactly | bjornify/bjornify.py:196-242 | an exception escapes exactly when the status query raises, the first call raises a non-Spotify exception, the token exchange after a 401 fails, or discovery after a 403 raises |
| SpotifyDispatch.RefreshCompletedIff | bjornify/bjornify.py:208-218 | a run holds a refresh and still answers exactly when a 401 led to a successful token exchange |
| SpotifyDispatch.SpotifySession.RefreshSpotifyToken | bjornify/bjornify.py:129-135 | a successful exchange replaces the token and the client, each by a new generation; a failing one escapes and replaces neither |
| SpotifyDispatch.SpotifySession.SpotifyActionWithSocoFallback | bjornify/bjornify.py:196-242 | the method's run is `Dispatch`; the session moves one generation exactly when a 401 led to a successful exchange, and is unchanged otherwise |
| SpotifyDispatch.SpotifySession.PlayerSkipToNext | bjornify/bjornify.py:361-367 | skipping dispatches the skip action bound to the current client; the session moves one generation exactly when a 401 led to a successful token exchange, and is unchanged otherwise |
| SpotifyDispatch.SpotifySession.PlayerPausePlayback | bjornify/bjornify.py:370-376 | pausing dispatches the pause action bound to the current client; the session moves one generation exactly when a 401 led to a successful token exchange, and is unchanged otherwise |
| SpotifyDispatch.RestrictedPauseUsesSpeaker | bjornify/bjornify.py:219-236 | a pause refused with 403 while one speaker plays the native stream pauses that speaker and answers "✅" |
| PlaybackQueue.FirstPreferred | bjornify/bjornify.py:338-341 | the index of the first device named "Everywhere", with no earlier one; none exactly when no device has that name |
| PlaybackQueue.ChosenDevice | bjornify/bjornify.py:337-343 | no device for an empty list; the id chosen is that of a listed device; a null choice from a non-empty list means the first device's id is null |
| PlaybackQueue.SelectDevice | bjornify/bjornify.py:337-343 | the device-selection loop settles on `ChosenDevice` |
| PlaybackQueue.PreferredDeviceWins | bjornify/bjornify.py:338-343 | when the first "Everywhere" device has an id, that id is chosen, whatever else is listed |
| PlaybackQueue.NullPreferredFallsBack | bjornify/bjornify.py:338-343 | when the first "Everywhere" device has a null id, the first device's id is chosen; a later "Everywhere" device is not consulted |
| PlaybackQueue.FirstDeviceOtherwise | bjornify/bjornify.py:342-343 | with no "Everywhere" device, the first device's id is chosen |
| PlaybackQueue.PlayerAddItemToPlaybackQueue | bjornify/bjornify.py:314-358 | for each answer of the Spotify calls: the exact calls made and the exact reply. A failing search, a track without artists, or any raising call gives the failure message; no hit, or no usable device id, gives "No results"; an active session queues the track; otherwise the track starts on the chosen device |
| HassLogging.BlankValueHasBlankPieces | bjornify/hass.py:27-32 | every comma-separated piece of a blank value is blank, so the blank-value shortcut agrees with the general rule |
| HassLogging.Names | bjornify/hass.py:30-32 | every non-blank piece, stripped and lower-cased, is a name |
| HassLogging.NamesStep | bjornify/hass.py:30-32 | adding the first piece's name to the names of the later pieces covers every non-blank piece |
| HassLogging.NamesSound | bjornify/hass.py:30-32 | every name comes from a non-blank piece |
| HassLogging.ParseLogOutput | bjornify/hass.py:26-32 | a blank value gives no outputs; every non-blank piece of the value, stripped and lower-cased, is an output |
| HassLogging.ParseLogOutputSound | bjornify/hass.py:30-32 | every output is a non-blank piece of the value, stripped and lower-cased |
| HassLogging.PieceNameNormalized | bjornify/hass.py:31 | the name a non-blank comma-free piece gives is non-empty, comma-free, stripped and lower-case |
| HassLogging.OutputNamesNormalized | bjornify/hass.py:30-32 | every output name is non-empty, comma-free, stripped and lower-case |
| HassLogging.JoinedNamesRead | bjornify/hass.py:26-32 | normalised names joined by commas are read back as exactly those names |
| HassLogging.OneNameRead | bjornify/hass.py:26-32 | a normalised name on its own is read as the set of that name |
| HassLogging.LogOutputs | bjornify/hass.py:26-32 | an unset `LOG_OUTPUT` selects the console only; a blank one selects no output |
| HassLogging.ValidLevelsUpper | bjornify/hass.py:60-68 | the valid level names are their own upper-case form |
| HassLogging.ResolveLevel | bjornify/hass.py:63-68 | the level is always valid: the upper-cased value when that is valid, otherwise (unset or invalid) the fallback |
| HassLogging.ResolveLevelStable | bjornify/hass.py:63-68 | writing the resolved level back into the environment resolves to the same level |
| HassLogging.ResolveLevelIgnoresCase | bjornify/hass.py:63-68 | two values that differ only in the case of their letters resolve to the same level |
| HassLogging.LowerCaseLevelAccepted | bjornify/hass.py:63-68 | a valid level name written in lower case selects that level |
| HassLogging.LogLevel | bjornify/hass.py:63-65 | `LOG_LEVEL`, defaulting and falling back to "INFO" |
| HassLogging.LibLogLevel | bjornify/hass.py:66-68 | `LIB_LOG_LEVEL`, defaulting and falling back to "WARNING" |
| HassLogging.LevelValue | bjornify/hass.py:72-73 | every valid level name has a numeric level that is a multiple of ten from 10 to `CRITICAL` (50), ten times the name's rank from `DEBUG` to `CRITICAL` |
| HassLogging.LevelsAscend | bjornify/hass.py:72-73 | `DEBUG`, `INFO`, `WARNING`, `ERROR`, `CRITICAL` have the values 10, 20, 30, 40, 50, strictly ascending |
| HassLogging.SelectedHandlers | bjornify/hass.py:45-57 | a file handler exactly when "file" is an output, a console handler exactly when "console" is; the file handler first; no other handler; no duplicate |
| HassLogging.UnknownOutputsIgnored | bjornify/hass.py:48-57 | output names other than "file" and "console" select nothing |
| HassLogging.BuildHandlers | bjornify/hass.py:45-57 | building `LOG_HANDLERS` by appending gives `SelectedHandlers` |
| HassLogging.LoggingState.ApplyToRoot | bjornify/hass.py:71-78 | with handlers, the root gets the level and each handler appended in order; without, its handlers are cleared and logging is disabled through `CRITICAL`, after which the root passes no record of any standard level; named loggers untouched |
| HassLogging.LoggingState.ConfigureRoot | bjornify/hass.py:26-78 | the root logger state after reading `LOG_OUTPUT` and `LOG_LEVEL`, in terms of `SelectedHandlers` and `LogLevel` |
| HassLogging.LoggingState.ConfigureNamedLoggers | bjornify/hass.py:80-87 | "hass" gets `LOG_LEVEL`, "asyncio" and "discord" get `LIB_LOG_LEVEL`; the root is untouched |
| HassLogging.DefaultConfigurationLogsToConsole | bjornify/hass.py:26-57 | with `LOG_OUTPUT` unset, the handler list is the console handler alone |
| HassLogging.BlankLogOutputDisables | bjornify/hass.py:26-78 | a blank `LOG_OUTPUT` selects no handler, so the root is cleared and logging disabled |
| HassRouting.RouteMessage | bjornify/hass.py:130-141 | bot messages are ignored; a message is answered with its own text exactly when its author is not a bot and the channel setting parses to its channel id; an unparsable setting raises, exactly for non-bot messages |
| HassRouting.ConfiguredChannelAnswered | bjornify/hass.py:136-141 | with the channel set to the decimal text of an id of at most 4300 digits, exactly the non-bot messages in that channel are answered, and nothing raises |
| HassRouting.RouteIgnoresText | bjornify/hass.py:130-138 | whether a message is answered does not depend on its text |

## Left out

- Discord plumbing is not modelled: the command handlers, slash-command
  sync, autocomplete, the `!version` and `!sync` commands, reaction
  posting, and `run_in_executor`. These are calls into discord.py.
- The body of `send_query_to_ha_assist` and the other HTTP calls to Home
  Assistant are not modelled. They are network I/O, and the routing
  result `Answer(query)` stands for them.
- The start-up of `bjornify.py` is not modelled (its logging set-up, its
  environment checks, the spotipy OAuth manager), nor are `hass.py`'s
  checks for missing environment variables, its signal handling and
  shutdown, or the version file generator. These are plain I/O glue around
  the core.
- spotipy and SoCo internals are not modelled. Each call is an outcome
  (`Query`, `CallOutcome`), and the HTTP statuses are the only part of a
  `SpotifyException` the model keeps.
- Logging calls are not modelled (messages, the formatter, the file mode,
  creating the `logs` folder), except where the code reads a value that
  logging computes. They do not affect any result.
- An exception raised by `speaker.player_name` inside an `except` handler
  of `find_playing_speaker` is not modelled. The model treats a speaker's
  name as always readable.
- Track-info and transport-info values are taken to be strings. A `None`
  value, which would make `in` raise inside the caught block, is not
  modelled.
- Device entries are taken to have "name" and "id" keys, search results
  to have "name" and "uri", and the first artist entry to have "name". A
  missing key would raise `KeyError` and be caught as the failure
  message; an `id` of `None` in the model stands for a null id only.
- `soco.discover()` returns a set whose iteration order is an
  implementation detail. The model takes the speakers as a sequence in
  the order they are scanned.
- Text.Strip: the function's own contract does not say which characters
  remain; `Text.StripIsSlice` states that the result is the slice between
  the leading and the trailing whitespace.
- Text.Lower: models `str.lower()` on ASCII letters only. The core only
  compares its result with the ASCII names "file" and "console". The
  function's own contract gives the length and the absence of upper-case
  letters; `Text.LowerChars` gives each character of the result.
- Text.Upper: models `str.upper()` on ASCII letters only, because every
  valid level name is ASCII. A non-ASCII letter that upper-cases to a
  valid name is not modelled. The function's own contract gives the length
  and the absence of lower-case letters; `Text.UpperChars` gives each
  character of the result.
- Text.ParseInt: models `int()` for ASCII decimal digits, with a sign,
  underscores and surrounding whitespace. The whitespace skipped is that of
  `str.isspace()` without the information separators U+001C to U+001F,
  which make `int()` raise wherever they occur. It does not model the
  other Unicode digits Python accepts; a string holding one raises in the
  model. The default limit of 4300 digits on integer-string conversion is
  modelled as `MaxStrDigits`; a changed limit
  (`sys.set_int_max_str_digits`) is not.
- Concurrent dispatches racing on the shared Spotify client are not
  modelled. Each dispatch is one sequential run.
