# lastfm-rpc: the presence-update pipeline in Dafny

lastfm-rpc shows what a Last.fm user is listening to as a Discord "Rich Presence".
A worker loop polls Last.fm for the now-playing track. It then asks the presence
session to render the track: two hover texts, two images, two link buttons and a
countdown. The session pushes the result to Discord and connects or disconnects as
tracks come and go. Tray-menu handlers change the session's display preferences and
wake the loop.

This project models that pipeline and proves properties of the model:

| module | source | form |
|---|---|---|
| `Python` | built-ins the core uses | pure: `strip`, `lstrip`/`rstrip`, `isspace`, `replace`, `startswith`, `in`, `n * s` |
| `Project`, `Messages` | constants/project.py | constants; translation keys as the `Msg` datatype, with the translation table a function parameter |
| `RpcText` | api/discord/rpc.py `_format_image_text` | pure specification of the hover-text formatter |
| `RpcAssets` | api/discord/rpc.py (artwork, small image, buttons, payload) | pure rules of one render |
| `Rpc` | api/discord/rpc.py `DiscordRPC` | class `DiscordRpc` whose methods update its fields |
| `Tracking` | api/lastfm/user/tracking.py | pure reply handling plus class `User` with its one-track memory |
| `Application` | core/application.py `App` | label functions, preference setters, the two track handlers and one loop iteration, on class `App` |
| `Reader` | utils/reader.py | `load_config` over a parsed YAML value; the translations path |
| `Gui` | utils/gui.py | placeholder cleaning and the save validation of the settings form |

Calls into code outside the core become parameters that describe their outcome:
- `Discord` covers pypresence: whether the client was built, and what connect, update, clear and close do;
- `Stats` covers the profile and library helpers;
- `CurrentReply` and `DetailsReply` cover pylast;
- `Now` covers the clock;
- `Helpers` covers the translation table and the URL encoder.

Behaviour of the code that the model keeps, including its oddities:
- The hour test is named the other way round. For hours 18–23 and 0–8 the code picks the *day* cover and a "night mode" theme line; the other hours give the night cover.
- Only the large-image keys `theme`, `artist_scrobbles` and `first_time` go unpadded when they are the only line. A sole small-image line is still padded.
- Only small-image lines over 20 characters get no pad; in a set of several lines a large-image line is padded whatever its length.
- The pad string is spelled in the constants file as the three characters `â€€` (U+2000 EN QUAD's UTF-8 bytes read as Windows-1252). It is modelled as written, so padded lines do not share one width (`RpcText.SessionPadWidthVaries`).
- The 128-character fallback only removes the pad string. The result is not bounded by 128 (`RpcText.FallbackGivesNoBound`).
- An invalid API key ends the process with status 1 (`os._exit`), so that loop iteration does not come back.
- The settings form and `load_config` both read the tuple as (username, key, secret, language). `Gui.ResaveIsStable` shows the two orders agree.
- A present but empty config section parses as null and makes `load_config` exit. Only a missing section counts as empty.

## Model

| member | source | states |
|---|---|---|
| RpcText.PadWidth | api/discord/rpc.py:123-138 | the length of each line's piece: a large line alone is bare with one space; a small line over 20 characters gets no pad; otherwise the line, `limit - len - uppercase` pad strings (none when that is not positive) and a space |
| RpcText.PaddedLineFillsBudget | api/discord/rpc.py:134-138 | a padded line takes its text, two spaces and `limit - len - uppercase` copies of the pad string; only a one-character pad makes that `limit - uppercase + 1`, the same width for every line once each capital counts as two characters |
| RpcText.SessionPadWidthVaries | constants/project.py:37-38 | with the session's three-character pad string a padded line takes `3 * limit - 2 * len - 3 * uppercase + 1` characters, so padded lines of different lengths differ in width |
| RpcText.SessionPadExample | api/discord/rpc.py:134-138 | with the session's limit and pad string, one- and three-letter lines take 75 and 71 characters |
| RpcText.SoleLargeLineUnpadded | api/discord/rpc.py:125-128 | a single large-image line shorter than 128 characters comes out as the line itself, stripped |
| RpcText.SoleSmallLinePadded | api/discord/rpc.py:135-138 | a single short small-image line is still padded, unlike a single large-image line |
| RpcText.LongLineRuleIsSmallOnly | api/discord/rpc.py:125-138 | among several lines, a long large-image line is still padded, while a long small-image line is not |
| RpcText.JoinedPrefix | api/discord/rpc.py:121-138 | the text built from the first k lines is a prefix of the whole text |
| RpcText.LineInPlace | api/discord/rpc.py:121-138 | every line appears verbatim, followed by a space, at its own offset and in mapping order |
| RpcText.FallbackUndoesPadding | api/discord/rpc.py:141-142 | removing a pad string of any length from the padded text gives the bare concatenation of the lines, each followed by its separators, when no line contains the pad string's first character and that character is not a space |
| RpcText.FallbackWithSessionPad | api/discord/rpc.py:139-144 | with the session's pad string, a text over 128 characters comes out as the lines with their separators and no pad, stripped |
| RpcText.FallbackGivesNoBound | api/discord/rpc.py:141-144 | a single small line over 128 characters is returned whole: the fallback does not bound the length |
| Rpc.DiscordRpc.FormatImageText | api/discord/rpc.py:118-144 | the loop over the lines and the fallback compute `ImageText`, the function the lemmas above are about |
| RpcAssets.ArtworkStatus | api/discord/rpc.py:146-168 | given artwork is the cover; without it the cover is the day image for hours 18–8 and the night image otherwise; there is one line for the theme when artwork is missing and one for familiarity when the artist is new or the large-image scrobbles preference is on |
| RpcAssets.FallbackCoverFollowsHour | api/discord/rpc.py:151-157 | without artwork, the day cover is used exactly in the hours 18–8 and the night cover otherwise; the first hover line is the theme line, naming night mode exactly when the day cover is used |
| RpcAssets.ExplicitArtworkKept | api/discord/rpc.py:150-157 | given artwork is kept and no theme line is added |
| RpcAssets.FamiliarityLine | api/discord/rpc.py:159-166 | an artist never played gives the first-time line; the artist-scrobbles line appears exactly when the artist count is non-zero and the large-image scrobbles preference is on |
| RpcAssets.AlbumNameMode | api/discord/rpc.py:282-291 | with scrobbles hidden for a known artist and artwork given, the large text is the album, or "listening now" when there is no album |
| RpcAssets.LargeTextNeverBlank | api/discord/rpc.py:287-289 | with an album, the large hover text is never empty |
| RpcAssets.SmallImageSource | api/discord/rpc.py:253-264 | small image off gives no asset and no text; on, with one source selected, the asset is the avatar, the default avatar or the Last.fm icon, whichever is selected |
| RpcAssets.SmallImageKeys | api/discord/rpc.py:266-277 | the small hover lines are name, scrobbles, artists and loved tracks, in that order, each present exactly when its preference is on |
| RpcAssets.Buttons | api/discord/rpc.py:170-182 | two buttons: the focus-track caption linking into the user's Last.fm library, and "YouTube Music" linking to a search |
| RpcAssets.DecimalString | api/discord/rpc.py:193 | `str(n)` is a non-empty digit string with at most three digits exactly below 1000 |
| RpcAssets.DecimalRoundTrip | api/discord/rpc.py:193 | reading the digits of `str(n)` back gives n |
| RpcAssets.TruncatedRemaining | api/discord/rpc.py:193 | the leading (at most three) decimal digits of the remaining time; a time below 1000 is kept as it is |
| RpcAssets.TruncationDropsTrailingDigits | api/discord/rpc.py:191-193 | keeping the first three characters of `str(n)` leaves n below 1000 alone and drops trailing digits above it |
| RpcAssets.TruncationBounds | api/discord/rpc.py:191-193 | the truncated time never exceeds the original, stays below 1000, is positive when the original is, and keeps three digits from 100 up |
| RpcAssets.TruncationExamples | api/discord/rpc.py:193 | 7 gives 7, 125 gives 125, 1259 gives 125, 200000 gives 200 |
| RpcAssets.PaddedTitle | api/discord/rpc.py:185-186 | a title shorter than two characters gets one trailing space; any other title is unchanged |
| RpcAssets.AssemblePayload | api/discord/rpc.py:209-224 | the details line is the title, the buttons and both hover texts are the prepared ones, an end time exists exactly when time remains, and the status display type follows the focus-artist preference |
| RpcAssets.PayloadRules | api/discord/rpc.py:209-224 | a countdown exists exactly when time remains; the state is "artist - album" exactly with a countdown and an album, otherwise the artist; the generic `artwork` image is used when there is neither, the resolved asset otherwise; the end lies after the start, by at most the remaining time; the status display type follows the focus-artist preference |
| RpcAssets.StatusPayload | api/discord/rpc.py:184-224 | the payload of one render: the details start with the title (unchanged from two characters up), an end time exactly when time remains, a state line of the artist followed by ` - ` and the album exactly when time remains and the album is non-empty (the artist alone otherwise), a small hover text exactly when the small image is on, no small image when it is off, and given artwork as the large image unless there is neither countdown nor album |
| Rpc.DiscordRpc.constructor | api/discord/rpc.py:23-57 | a new session is disconnected, without a client, with the initial preferences, an empty cache and an artist count of 0 |
| Rpc.DiscordRpc.Connect | api/discord/rpc.py:64-81 | does nothing when already enabled; otherwise builds the client if missing and is connected exactly when a client exists and connecting succeeds, stamping the connection time; a failure leaves the flags and time alone |
| Rpc.DiscordRpc.Disconnect | api/discord/rpc.py:83-98 | acts only when connected; raises exactly when clear or close fails, with nothing changed; otherwise disconnects and forgets the time, the last track, the artist and the count |
| Rpc.DiscordRpc.Enable | api/discord/rpc.py:100-107 | a connected session is left alone; otherwise the client is built if missing and the session is connected exactly when a client exists and connecting succeeds; a failure keeps the flags and the connection time |
| Rpc.DiscordRpc.Disable | api/discord/rpc.py:109-116 | a disconnected session is left alone; raises exactly when connected and clear or close fails, with nothing changed; otherwise disconnects, keeps the client and forgets the time, the last track, the artist and the count |
| Rpc.DiscordRpc.SetPreferences | core/application.py:92 | the attribute write from the tray: the preferences become the given record, the connection is untouched and the session stays valid when one image source remains selected |
| Rpc.DiscordRpc.ForgetLastTrack | core/application.py:94 | after the write, no track counts as already rendered |
| Rpc.DiscordRpc.PrepareSmallImageDetails | api/discord/rpc.py:253-280 | computes `SmallImageDetails` for the current preferences (see SmallImageSource and SmallImageKeys) |
| Rpc.DiscordRpc.PrepareArtworkAndLargeText | api/discord/rpc.py:282-291 | computes `LargeImageDetails` for the current preferences (see the artwork lemmas) |
| Rpc.DiscordRpc.GetMetadataWithCache | api/discord/rpc.py:228-251 | a hit on the cache for this track makes no fetch; otherwise one or two fetches, and the cache is replaced only when both records arrive; the two records are present together |
| Rpc.DiscordRpc.SendRpcUpdate | api/discord/rpc.py:293-303 | sends only when a client exists; a failed update forces a disconnect, which raises exactly when clear or close fails too and otherwise keeps the client and clears the memo and the connection time |
| Rpc.DiscordRpc.RecordRender | api/discord/rpc.py:199-202 | stamps the start time and records the track, the artist and its count |
| Rpc.DiscordRpc.BuildPayload | api/discord/rpc.py:204-224 | the payload is `StatusPayload` of the preferences, the records and the clock |
| Rpc.DiscordRpc.RecordAndPush | api/discord/rpc.py:199-226 | records the render, then sends the payload when a client exists; a failed send while connected disconnects, which raises exactly when clear or close fails and otherwise keeps the client and clears the memo and the connection time |
| Rpc.DiscordRpc.RenderTrack | api/discord/rpc.py:191-226 | without records nothing changes and nothing is sent; with them the track is recorded, the cache holds the track and both records, and `StatusPayload` of the preferences held before the call is sent when a client exists; a failed send that disconnects keeps the client and clears the memo and the connection time |
| Rpc.DiscordRpc.UpdateStatus | api/discord/rpc.py:184-226 | a track already rendered is skipped with nothing changed; records that cannot be had abort with the memo, start time, connection and cache unchanged; otherwise the track is recorded, the cache holds it with both records and the pending payload is sent; an exception escapes exactly when a client exists, the session is connected, the update fails and clear or close fails; a failed update whose disconnect succeeds keeps the client and clears the memo and the connection time; a rendered track stays recorded while connected |
| Tracking.GetCurrentTrack | api/lastfm/user/tracking.py:21-34 | an invalid-key error exits with status 1; other errors outside the handled three propagate; handled errors and no track give nothing; a playing track is returned |
| Tracking.GetTrackInfo | api/lastfm/user/tracking.py:36-53 | never exits; artwork only with an album; only unhandled errors propagate |
| Tracking.TrackInfoComplete | api/lastfm/user/tracking.py:36-53 | when every call succeeds, the record is the title, artist, album, the cover (only with an album) and the duration |
| Tracking.FetchedPrefixKept | api/lastfm/user/tracking.py:37-48 | after a handled error the fields fetched so far are kept and the later ones keep their defaults |
| Tracking.CoverIgnoredWithoutAlbum | api/lastfm/user/tracking.py:41-43 | without an album the cover is never asked for |
| Tracking.EscapingErrors | api/lastfm/user/tracking.py:38-48 | a failing title gives the default record when the error is handled and propagates otherwise; when every needed call succeeds a record is returned |
| Tracking.User.constructor | api/lastfm/user/tracking.py:9-19 | the cooldown is the given one or 6, and no track is remembered |
| Tracking.PollResult | api/lastfm/user/tracking.py:55-72 | what `now_playing` gives: an exit exactly when the current-track lookup exits (status 1); no track gives no info; the remembered track (same text) gives the remembered info; a new track gives fetched info |
| Tracking.MemoryAfterPoll | api/lastfm/user/tracking.py:58-72 | the memory `now_playing` leaves agrees with its result: after a returned result it holds a track exactly when one was returned, with the same string form, and the returned info; after an exit or an exception it is unchanged |
| Tracking.User.NowPlaying | api/lastfm/user/tracking.py:55-72 | no track clears the memory; the remembered track (same text) returns the remembered info without a details call; a new track fetches, remembers and returns its info; errors leave the memory alone; the memory is `MemoryAfterPoll` of the memory before |
| Application.Toggled | core/application.py:91-92 | the named display flag is flipped and every other display flag keeps its value |
| Application.ToggleFlipsOnlyThat | core/application.py:89-92 | toggling flips that flag and no other display flag, image source or large-image mode |
| Application.ToggleTwiceRestores | core/application.py:89-92 | toggling the same option twice restores the preferences |
| Application.SelectedAfterAllSources | core/application.py:112-113 | the loop over the three source flags ends in the selection `Selected` |
| Application.SelectionIsExclusive | core/application.py:103-113 | after selecting a known source exactly that flag is set, exactly one source is selected, and the small image shows that source |
| Application.TwoDigits | core/application.py:83 | `%H`/`%M`: two decimal digits below 100 |
| Application.ClockRoundTrip | core/application.py:83 | `strftime("%H:%M")` is five characters with a colon in the middle, and reading the two fields back gives the hour and the minute |
| Application.StatusDetail | core/application.py:79-87 | connected with a time gives "connected at HH:MM", connected without one gives "connected", otherwise "disconnected" |
| Application.StatusLabelShowsConnection | core/application.py:79-87 | with an injective translation table, equal status labels imply the same connection state |
| Application.ArtistStats | core/application.py:140-150 | a known artist gives the artist and the count, or "..." while it is unknown; otherwise "loading" when a track is shown and "idle" when none is |
| Application.MissingAlbumShownAsNone | core/application.py:224-232 | a missing album is passed on as the text "None", so a timed track without an album shows "artist - None" |
| Application.App.DiscordStatusLabel | core/application.py:79-87 | "connected at HH:MM" of the connection time when connected with one, "connected" when connected without one, "disconnected" otherwise (the three cases of StatusDetail) |
| Application.App.ArtistStatsLabel | core/application.py:140-150 | the artist with its count, or "..." while the count is unknown, once an artist is known; otherwise "loading" while a track is shown and "idle" when none is (the cases of ArtistStats) |
| Application.App.constructor | core/application.py:25-35 | a new app has a fresh disconnected session, shows "no track", has no pending event and no cached track |
| Application.App.ToggleDisplayOption | core/application.py:89-101 | flips the option, forgets the rendered track, rebuilds the menu and sets the event |
| Application.App.SetSmallImageOption | core/application.py:103-121 | an unknown option changes nothing; a known one is selected exclusively, then the track is forgotten, the menu rebuilt and the event set |
| Application.App.SetLargeImageOption | core/application.py:123-138 | the same mode changes nothing; a new mode is stored, then the track is forgotten, the menu rebuilt and the event set |
| Application.App.ShowPlaying | core/application.py:203-221 | enables the session, whose connection part becomes `LinkAfterEnable` of the one before (a fresh connection stamps the time, so the status label reads "connected at" it); the shown track becomes "now playing: artist - title" and the tray title is updated exactly when the track or the connection changed |
| Application.App.RenderPolled | core/application.py:223-232 | UpdateStatus with `str()` of the title, artist and album: the payload sent is the pending one for those strings when a client exists, the memo is the one that render leaves, the connection part, cache and start time are those the render leaves (`LinkAfterRender`, `CacheAfterRender`, `StartAfterRender`), and an exception escapes exactly when the session is connected, the track is not already rendered, its records are at hand, and the update and then clear or close fail |
| Application.App.HandleActiveTrack | core/application.py:203-236 | ShowPlaying, then RenderPolled: the payload sent is the one pending for the `str()` fields whenever a client exists or is built, and the memo, connection part, cache and start time are those enabling and then rendering leave (a connected session whose update succeeds stays connected with its time); an exception escapes exactly when the session is connected after enabling, the track is not already rendered, its records are at hand, and the update and then clear or close fail; the menu is rebuilt when something changed and nothing escaped; a rendered track stays recorded while connected |
| Application.App.HandleNoTrack | core/application.py:238-245 | shows "no track", records the connection state from before the disable, then disables; raises exactly when connected and clear or close fails; a successful disconnect empties the memo and the connection time and keeps the client, so the same track is rendered afresh when it resumes; a raise keeps the time; the cache and start time stay |
| Application.App.HandlePolled | core/application.py:258-280 | an exit from the poll stops the loop and an exception from it waits 2 s, both with nothing sent and nothing changed; with data the track is handled, the pending payload sent, and the session's memo, connection part, cache and start time are those HandleActiveTrack leaves; the tray is brought up to date with the track line and the connection state after enabling, and the menu is rebuilt when the tray was stale and no exception escaped; the wait is 2 s exactly when the render let an exception escape (the loop's handler), else 5 s; without data nothing is sent, "no track" is shown with the connection state from before the disconnect, the menu is not rebuilt, the session disconnects, the cached data is dropped unless the disconnect raised, and the wait is 2 s; the preferences never change |
| Application.App.NextTrack | core/application.py:255-266 | the event is read and cleared; a forced iteration with cached data takes the track and data from the cache without polling; otherwise the result is `PollResult` of the user's memory, the user's memory becomes `MemoryAfterPoll` of it, data it returns is cached, and an exit or exception gives no track and no data |
| Application.App.RunIteration | core/application.py:253-280 | the event is cleared; a forced cycle with a cached track re-renders it without polling or touching the user's memory, sending the payload pending for it and leaving the memo that render leaves, and waits as after a polled track; otherwise the user's memory becomes `MemoryAfterPoll` and the poll result decides: an exit stops, an error waits 2 s, a track is cached and shown, then waits 2 s when its render let an exception escape and 5 s otherwise, with the session's connection part, cache and start time as HandleActiveTrack leaves them, and no track shows "no track", disconnects, drops the cache and waits 2 s; the tray and menu change as in HandlePolled (not at all after an exit or exception), and the preferences never change |
| Reader.LoadConfig | utils/reader.py:25-47 | every failure exits with status 1; success needs a mapping document and a truthy username, key and secret |
| Reader.Section | utils/reader.py:34-37 | a missing section reads as an empty mapping; a present section is read only when it is a mapping; anything else, or a document that is not a mapping, fails |
| Reader.LoadWellFormed | utils/reader.py:34-44 | a well-formed document loads exactly when the three required strings are non-empty, giving (username, key, secret, language) with the language defaulting to en-US |
| Reader.MissingLangDefaults | utils/reader.py:37 | a missing APP section or LANG entry gives en-US |
| Reader.NonMappingSectionExits | utils/reader.py:34-37 | a present section that is not a mapping makes loading exit |
| Reader.OtherKeysIgnored | utils/reader.py:34-37 | other top-level keys do not change the result |
| Reader.TranslationsPath | utils/reader.py:57 | the path ends in `<lang>.yaml` |
| Reader.TranslationsUnderDirectory | utils/reader.py:57 | a relative language code names `<dir>/<lang>.yaml` |
| Gui.CleanValue | utils/gui.py:67-74 | a value starting with `<` is shown empty, any other value unchanged; what is shown never starts with `<` |
| Gui.InitialForm | utils/gui.py:33-42 | the key entry is the tuple's second value, the secret entry its third and the username entry its first, each cleaned by CleanValue; the language is its fourth as it is |
| Gui.Save | utils/gui.py:76-96 | rejected exactly when a trimmed key, secret or username is empty; otherwise the data goes to the callback and the window closes exactly when the callback agrees |
| Gui.SaveAgreesWithLoad | utils/gui.py:76-96 | the form is rejected exactly when `load_config` would exit on the data it writes; accepted data loads back as the trimmed values and the language |
| Gui.StripIdempotent | utils/gui.py:79-86 | trimming a saved value again changes nothing |
| Gui.ResaveIsStable | utils/gui.py:34-42 | opening the form on loaded values and saving it unchanged writes the same data, unless a value starts with `<` |
| Gui.PlaceholderLoadsButIsNotSaved | utils/gui.py:70 | a placeholder key passes `load_config` but empties the key entry, so saving the form as opened is rejected |

## Left out

- Tray menu construction, the icon, notifications, the browser, the debug toggle, `exit_app` and `run` are UI and not modelled; only the label functions and setters are. Rebuilding the menu is a counter.
- Threading: the two threads and their interleavings are not modelled. `update_event.wait` becomes a `Step` value naming the wait. A wake during the wait shows up as the event being set at the next iteration.
- One clock reading per iteration: the source reads the clock separately to stamp the connection (api/discord/rpc.py:74), to stamp the start time (api/discord/rpc.py:199) and to pick the cover by hour (api/discord/rpc.py:153), and the model uses a single `Now` for all three.
- pypresence, pylast, the profile and library helpers, the clock, the translation table and the URL encoder are parameters; logging is left out.
- Timestamps are whole seconds. The float start time, the float `end` and `float(str(t)[0:3])` are modelled on integers, so float rounding is not modelled.
- `str.isupper` is modelled for ASCII capitals only.
- Opening and parsing YAML files (`load_yaml_file`) and the reload of the constants module are not modelled. An unreadable document arrives as `None`, and `load_translations` is reduced to its path.
- Reader.LoadConfig: YAML floats and non-string mapping keys are not modelled.
- Reader.TranslationsPath: POSIX `os.path.join` rules; Windows drive-letter rules are not modelled.
- Gui.InitialForm: takes four strings. A non-string YAML value, which makes `create_input` raise, is not modelled, and neither is the language list read from the translations directory.
- Rpc.DiscordRpc.SetPreferences: `setattr` by option name is modelled as replacing the preference record with one that differs in the named fields.
