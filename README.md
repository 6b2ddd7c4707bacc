# spotifystats core, modelled in Dafny

A terminal viewer for a listener's top tracks and top artists. Underneath the
OAuth, HTTP and drawing code sits a small core, modelled here:

- **Result collection** (`src/client.rs`): `format_duration` renders whole
  seconds as `m:ss`. `get_top_tracks` and `get_top_artists` pull items off the
  service's top-items stream one at a time. Each item gets the 1-based place
  `len + 1`, and the loop stops once `len as u8 == limit`. The stream is a finite
  sequence of answers (`Spotify.Pull`: an item or the client's error). An error
  is `unwrap`ped, so it becomes `Client.Outcome.Panicked` and no partial list
  survives. Both methods also return `pulled`, the number of answers taken from
  the stream, so that the loop's laziness can be stated.
- **The message-driven view model** (`src/app2.rs`): the `Model` class,
  `Message`, `update` as a method that changes the model in place, the artist
  row builder and `show_time_range`. `Step` is the pure transition that
  `update` is proved against. The lemmas about it cover saturation, the
  three-window cycle, Quit, and the fact that `limit`, the display name and the
  lists never change.
- **The key-driven `App`** (`src/app.rs`): the `App` class, the Press-only event
  filter, the key table (`q`/Esc/Ctrl-c quit, `j`/Down scroll down, no scroll-up
  key), `quit`, `show_time_range`, and the two row builders. `OnKey` and
  `OnEvent` are the pure transitions the methods are proved against.

Files: `Prelude.dfy` (Rust integer casts, saturation, decimal `Display`,
`{:02}`, `join`), `Spotify.dfy` (the client-library types and the stream),
`Tui.dfy` (terminal events, `ScrollbarState`), `Client.dfy`, `Display.dfy`
(the row records, the row text and the window titles, which both views
share), `App.dfy`, `App2.dfy`.

The row records used by the views (`index`, `track_name`, `artists`,
`duration`, `artist_name`, `genres`) are not defined in `src/client.rs`.
`Display.TrackEntry` and `Display.ArtistEntry` define them from the way
`src/app.rs` uses them at lines 121-124 and 152-154. A row is the
concatenation of its span texts. Styles are dropped.

A reader might expect a few things that the code does not do. The model follows the code:

- `update` never reads `running_state`. Messages after Quit still take effect
  (`App2.DoneDoesNotFreeze`), so Done is not a frozen state, as one might assume.
- ScrollUp saturates at 0 one step at a time. The final offset therefore depends
  on the order of the messages. It is not the `max(0, downs - ups)` one might expect
  (`App2.ScrollDependsOnOrder`). `App2.ScrollBounds` proves the bounds that do
  hold.
- There is no `k` (scroll up) or `m` (change window) key in `src/app.rs`. Its key
  table only quits and scrolls down.
- `limit == 0` does not collect nothing. Because of the `u8` cast it collects up
  to 256 items (`Client.ZeroLimitTakes256`).
- No code truncates genres to three. `genres` reaches the rows as a ready-made
  string.

## Model

| member | source | states |
|---|---|---|
| `Prelude.NatToStringValue` | src/app.rs:159 | the decimal rendering of an index (`to_string`) reads back as the same number |
| `Prelude.NatToStringInjective` | src/app.rs:159 | distinct numbers render as distinct strings |
| `Prelude.ZeroPad2` | src/client.rs:14 | `{:02}` gives at least two digits, exactly two below 100, denoting the input |
| `Prelude.JoinLength` | src/app.rs:123 | the joined length is the parts' total plus one separator length per gap; where the separators go is stated by `Prelude.JoinSnoc` |
| `Prelude.JoinSnoc` | src/app.rs:123 | joining one more name appends the separator and that name at the end |
| `Client.FormatDurationShape` | src/client.rs:8-15 | for `format_duration` (`Client.FormatDuration`), the string is the unpadded minutes, `:`, then two digits below 60, and minutes*60 + seconds is the input's whole seconds |
| `Client.FormatDurationRoundTrip` | src/client.rs:9-14 | parsing the `m:ss` that `Client.FormatDuration` produces gives the input's whole seconds |
| `Client.FormatDurationInjective` | src/client.rs:9-14 | two durations format alike exactly when their whole seconds agree |
| `Client.FormatDurationExamples` | src/client.rs:8-15 | 125 s is "2:05", 59 s is "0:59", 600 s is "10:00" |
| `Client.Cap` | src/client.rs:76 | the stopping length is the least n >= 1 with `n as u8 == limit`: the limit itself, or 256 for a zero limit |
| `Client.FirstFault` | src/client.rs:58 | locates the first error answer: only items before it, an error at it |
| `Client.Pulled` | src/client.rs:58-79 | the loop reads at most the window, which never exceeds the stopping length |
| `Client.GetTopTracks` | src/client.rs:48-82 | the loop returns exactly the specified ranked list or panic, having pulled exactly the specified number of answers from the window's stream |
| `Client.TopTracksRanked` | src/client.rs:59-74 | the k-th entry has place k, and carries the k-th item's name, its formatted duration and its artist list unchanged |
| `Client.TopTracksLength` | src/client.rs:58-79 | the list has min(limit, stream length) entries, with 256 standing for a zero limit |
| `Client.TopTracksFailure` | src/client.rs:58 | the call panics exactly when an error lies within the window, and with the first such error |
| `Client.TopTracksLazy` | src/client.rs:76-78 | answers beyond the limit-th affect neither the result nor how many answers are pulled |
| `Client.ZeroLimitTakes256` | src/client.rs:76 | with limit 0 and at least 256 good answers, the list has 256 entries |
| `Client.GetTopArtists` | src/client.rs:84-103 | the same loop, proved against its ranked-list specification including the pull count; the result and the pull count depend only on the session's medium-term artists stream |
| `Client.TopArtistsRanked` | src/client.rs:90-101 | the artists list is the window's prefix, k-th entry place k with the k-th item's name |
| `Client.TopArtistsFailure` | src/client.rs:90 | the artists call panics exactly when an error lies within the window |
| `Display.TimeRangeTitle` | src/app.rs:109-115 | the title is "Short Term", "Medium Term" or "Long Term" exactly for the short, medium or long window |
| `Display.TimeRangeTitleInjective` | src/app.rs:109-115 | the three windows get three distinct titles |
| `Display.TrackLineShape` | src/app.rs:121-141 | a track row starts with its rank, ` - ` and the title, and ends with ` (duration)`; the rank reads back from the row |
| `Display.ArtistLineShape` | src/app.rs:152-166 | an artist row starts with its rank, ` - ` and the name, and ends with ` (genres)`; the rank reads back from the row |
| `Display.TrackLinesShowRanks` | src/app.rs:120-145 | densely ranked tracks render as rows showing 1, 2, ... top to bottom |
| `Display.ArtistLinesShowRanks` | src/app.rs:151-171 | densely ranked artists render as rows showing 1, 2, ... top to bottom |
| `App.OnKey` | src/app.rs:189-201 | a key changes neither the lists, the user name, the limit nor the window; the offset never decreases; it never sets `running`; the scrollbar stays in step |
| `App.OnEvent` | src/app.rs:178-187 | anything but a key press leaves the state unchanged; a press keeps the same frame as `App.OnKey` |
| `App.App.constructor` | src/app.rs:29-40 | not running, empty lists and user name, limit 10, short term, scroll 0 with the default scrollbar |
| `App.App.HandleCrosstermEvents` | src/app.rs:178-187 | the new state is the event transition of the old one: only key presses reach the key table |
| `App.App.OnKeyEvent` | src/app.rs:189-201 | the new state is the key transition of the old one |
| `App.App.Quit` | src/app.rs:204-206 | only `running` changes, to false |
| `App.App.ParseTopTracksOutput` | src/app.rs:117-147 | one row per track, in list order, each the track's row text |
| `App.App.ParseTopArtistsOutput` | src/app.rs:148-173 | one row per artist, in list order, each the artist's row text |
| `App.EscAndQQuitWithAnyModifiers` | src/app.rs:191 | Esc and `q` quit whatever modifiers are held |
| `App.CtrlCNeedsExactlyControl` | src/app.rs:192 | `c`/`C` quits exactly when the modifier set is Control alone |
| `App.QuitKeyOnlyStops` | src/app.rs:204-206 | a quitting key sets `running` to false and changes nothing else |
| `App.ScrollKeyMovesDown` | src/app.rs:194-198 | `j`/Down adds one to the offset, saturating, syncs the scrollbar, and changes nothing else |
| `App.OtherKeysIgnored` | src/app.rs:199 | every other key leaves the state unchanged |
| `App.OnlyPressesAct` | src/app.rs:179-185 | release and repeat key events, mouse, resize and other events leave the state unchanged |
| `App.ScrollCountsPresses` | src/app.rs:194-198 | after any events the offset is the start plus the scroll-key presses, capped at the usize maximum |
| `App.ScrollNeverDecreases` | src/app.rs:189-201 | the offset never decreases over any event sequence |
| `App.EventsKeepData` | src/app.rs:189-201 | events never change the lists, user name, limit or window, and keep the scrollbar in step |
| `App.StoppedStaysStopped` | src/app.rs:189-206 | no event sets `running` back to true |
| `App2.Step` | src/app2.rs:144-160 | a message changes neither the limit, the display name nor the lists; only Quit changes the running state; the scrollbar stays in step |
| `App2.Model.constructor` | src/app2.rs:26-38 | Running, ShortTerm, display name "None", limit 10, empty lists, scroll 0 with the default scrollbar |
| `App2.Model.ParseTopArtistsOutput` | src/app2.rs:87-112 | one row per artist, in list order, with text `{index} - {name} ({genres})` |
| `App2.Model.ShowTimeRange` | src/app2.rs:114-120 | the title of the current window agrees with the titles of the key-driven view |
| `App2.Update` | src/app2.rs:144-162 | the model becomes the specified step of its old value, and no follow-up message is returned |
| `App2.ScrollDownSaturates` | src/app2.rs:146-149 | ScrollDown gives min(offset + 1, usize max), puts the scrollbar at the new offset, and changes nothing else |
| `App2.ScrollUpSaturates` | src/app2.rs:150-153 | ScrollUp gives offset - 1, or 0 at the top, puts the scrollbar there, and changes nothing else |
| `App2.ScrollDownThenUp` | src/app2.rs:146-153 | below the maximum, ScrollDown then ScrollUp restores the model |
| `App2.ScrollUpThenDown` | src/app2.rs:146-153 | away from the top, ScrollUp then ScrollDown restores the model |
| `App2.TimeRangeCycle` | src/app2.rs:155-159 | ChangeTimeRange moves short to medium, medium to long and long to short, and changes nothing else; three changes restore the model |
| `App2.QuitOnlyStops` | src/app2.rs:154 | Quit sets Done and changes nothing else |
| `App2.DoneDoesNotFreeze` | src/app2.rs:144-160 | after Quit a ScrollDown still moves the offset: Done does not block messages |
| `App2.OnlyQuitStops` | src/app2.rs:144-160 | no other message changes the running state |
| `App2.StepsKeepData` | src/app2.rs:144-160 | no message sequence changes the limit, display name or lists, and the scrollbar stays in step |
| `App2.ScrollBounds` | src/app2.rs:146-153 | after any messages the offset is at most start + downs and at least start + downs - ups, while the usize maximum is out of reach (start + number of messages <= usize max) |
| `App2.ScrollDependsOnOrder` | src/app2.rs:146-153 | from the top, Up-Down ends at 1 and Down-Up at 0: the offset depends on message order |

## Left out

- OAuth and the user lookup (`auth`, `get_user_display_name`) are network calls through the client library and are not modelled. The session is a parameter (`Spotify.Session`) that gives each window's stream.
- The async runtime and the real paginated HTTP stream are replaced by a finite sequence of answers.
- `App::run`, `terminal.draw` and `event::read` are not modelled, nor is `view` or any `render_*`/`*_widget` function. Layout, paragraphs, borders, styles, colours and wrapping belong to the terminal library. The event that `event::read` returns is a parameter, and a read error is not modelled.
- `ScrollbarState` is a value whose position is set. Its other behaviour belongs to the terminal library.
- `src/app2.rs:55-86` (`parse_top_tracks_output` of the view model) does not compile: it uses an undefined `track` and iterates the artists list. It is not modelled.
- The session handle field `client` of `Model` is not modelled.
- `src/main.rs` (environment loading, printing) is glue around the client functions and is not part of this model.
- `Prelude.JoinLength`: states only the length of the joined string. The order of the parts and the place of each separator are stated by `Prelude.JoinSnoc`, which builds a join one part at a time.
- `Client.FormatDuration`: the function itself carries no contract. Its shape and round trip are stated by `Client.FormatDurationShape` and `Client.FormatDurationRoundTrip`, because a contract on the function would be unfolded at every use inside the collection loop's proof and make that proof too expensive.
- `Client.FormatDuration`: negative durations are not modelled. A duration is a non-negative count of milliseconds, and `num_seconds` drops the fraction.
- `Tui.KeyCode` lists only some of the terminal library's key codes. Every code it leaves out falls into the same "any other key" arm.
- The `as u32` cast of the place is modelled. It never wraps, because a list never exceeds 256 entries.
