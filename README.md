# rofi-spotify, modelled in Dafny

`rofi-spotify.py` is a launcher. It shows rofi menus of Spotify devices, playlists and songs, and sends the choice to the Spotify player. Beneath the HTTP and UI calls it makes a small, exact sequence of decisions, and this project models those decisions:

- the credential record that `authorize` builds and saves;
- the key-to-action mapping of `player_control`;
- the script's three modes: `--setup`, `--set-default-device`, and the plain browse-and-play run. These cover the setup guard, the refresh check, target-device resolution, the option lists, the song-screen dispatch, the default-device persistence and the extraction of the authorization code from the callback URL.

Everything outside the script is turned into data:

- the calls that act on the outside world become events appended to a trace: the token request, opening the authorization page, the client creation, each rofi call, each player call, each notification;
- the calls that only fetch data (`get_player`, `get_devices`, `get_all_playlists`, `get_all_tracks`, `currently_playing`) are not traced; what they return (the account's devices, its playlists with their tracks, the player's `is_playing`) is part of an input record, together with the token response, the menu answers, the setup answers and the clock.

The ConfigParser object is a map of sections to maps of keys to strings. The configuration file is a second map of the same kind.

Modules, one per concern:

- `Py` (`py.dfy`) models the Python built-ins the script relies on:
  - `Option` and the exception kinds;
  - list indexing, including negative indices;
  - `str.split` and its inverse `Join`;
  - the decimal text `str` writes for an integer, and the decimal text `float` reads.
- `Ini` (`ini.dfy`) models ConfigParser sections, lookup, and `read`, which merges the file over what is already in memory.
- `External` (`external.dfy`) holds:
  - the Spotify entities (device, track, playlist, account, token response);
  - a rofi answer;
  - the trace events and the removal of notifications from a trace.
- `Credentials` (`credentials.dfy`) models:
  - the token-request payload;
  - the new `[auth]` and `[global]` sections;
  - the whole configuration after `authorize`;
  - the code taken from the callback query.
- `Controls` (`controls.dfy`) is `player_control` as a trace.
- `Menus` (`menus.dfy`) holds:
  - the three option-building loops, as methods with loop invariants;
  - the device-resolution loop, as a method;
  - their specification functions;
  - the song-screen dispatch.
- `App` (`app.dfy`) has one specification function per mode, giving outcome, trace, configuration and file. It also has the class `Launcher`, whose fields are the module-level `config`, the saved file and the trace. Its methods run each branch statement by statement, and each method is proved to produce exactly what its specification function gives.
- `Guarantees` (`guarantees.dfy`) holds the properties of whole runs:
  - the setup guard;
  - when a refresh happens and what it keeps;
  - that a player call always follows the client's creation;
  - what happens without devices;
  - that `--no-notify` changes nothing but the notifications;
  - that a chosen default device is used by later runs until the token lapses, and that the refresh forgets it;
  - that a stored expiry is used by a later run.

Behaviour of the script that the model keeps as written:

- **Refresh condition.** The token is refreshed only when the clock is strictly past `expires_at`.
- **Guard.** Only the presence of an `[auth]` section is checked. A partly filled configuration passes the guard, and a missing key then crashes the run with a `KeyError` (`Crashed(KeyError)`).
- **Literal song row.** Playing a literal song row also notifies.
- **Loading status before a bad index.** "Loading songs..." is shown before the chosen playlist is looked up, so an index outside the list crashes after that status.
- **Default device and refresh.** `authorize` rewrites `[global]` from scratch, so the first refresh erases a stored default device. That run, and every later one, plays on the account's first device until `--set-default-device` is used again.

## Model

| member | source | states |
|---|---|---|
| Py.Index | rofi-spotify.py:110 | Python list indexing: an element is found exactly when `-len <= i < len`, and any other index is an IndexError (`None`) |
| Py.IndexFromEnd | rofi-spotify.py:110 | an in-range index picks `s[i]`, and the negative index `i - len` picks the same element; so rofi's index -1 with Enter picks the last element |
| Py.Split | rofi-spotify.py:95 | `str.split` on one character always gives at least one part, and no part contains the separator |
| Py.JoinSplit | rofi-spotify.py:95 | joining the parts of a split with the separator gives back the original text |
| Py.SplitAtFirst | rofi-spotify.py:95 | splitting `x + sep + y`, where `x` has no separator, gives `x` followed by the parts of `y` |
| Py.IntToString | rofi-spotify.py:36 | the text written for an integer is non-empty, starts with a minus sign exactly when the number is negative, and is digits after its first character |
| Py.ParseFloat | rofi-spotify.py:121 | `float` on plain decimal text: text with a leading minus reads as at most zero, any other accepted text as at least zero; text it does not accept is a ValueError (`None`) |
| Py.ParseFloatShape | rofi-spotify.py:121 | accepted text holds, after an optional leading minus, only digits and at most one decimal point, and at least one digit |
| Py.ParseFloatWhole | rofi-spotify.py:121 | digits alone, with or without a leading minus, read as their decimal value, negated for the minus |
| Py.ParseFloatFraction | rofi-spotify.py:121 | digits with one decimal point (such as `1700000000.5`, `5.` or `.5`), with or without a leading minus, read as the whole part plus the digits after the point, each worth a tenth of the one before |
| Py.NatToString | rofi-spotify.py:36 | the decimal text of a number is non-empty and all digits |
| Py.NatToStringValue | rofi-spotify.py:36 | the digits of the decimal text carry the number's value |
| Py.ParseFloatToString | rofi-spotify.py:121 | reading the text written for any integer gives that integer back |
| Ini.Get | rofi-spotify.py:98-102 | `config[section][key]` succeeds exactly when both the section and the key are present; otherwise it is a KeyError (`None`) |
| Ini.Read | rofi-spotify.py:71 | reading a file keeps every section of memory and of the file; a key present in the file takes the file's value, any other keeps the value in memory |
| Ini.ReadOwnFile | rofi-spotify.py:123 | re-reading the file that was just written from memory changes nothing |
| Ini.ReadIntoEmpty | rofi-spotify.py:69-71 | a fresh parser that reads a file holds exactly that file |
| External.WithoutNotify | rofi-spotify.py:56-63 | removing notifications from a trace leaves no notification, never lengthens it, and leaves a trace without notifications as it is |
| External.WithoutNotifyAppend | rofi-spotify.py:56-63 | removing notifications from two traces one after the other is the same as removing them from the joined trace |
| Credentials.TokenPayload | rofi-spotify.py:23-29 | the payload always carries redirect_uri, client_id and client_secret; the authorization-code grant adds exactly grant_type and code; the refresh grant adds exactly grant_type and refresh_token set to the given token; any other grant adds nothing |
| Credentials.AuthSection | rofi-spotify.py:22-39 | the new `[auth]` holds expires_at = now + expires_in - 60, the response's access_token, and a refresh_token exactly when the grant was a refresh or the response brought one: the response's if present, otherwise the old refresh token |
| Credentials.ExpiryReadsBack | rofi-spotify.py:36 | the stored expiry parses back to now + expires_in - 60 |
| Credentials.GlobalSection | rofi-spotify.py:42-45 | the new `[global]` holds exactly client_id, secret and redirect_uri with the given values |
| Credentials.Authorized | rofi-spotify.py:41-45 | after `authorize` the configuration has `[auth]` and `[global]` replaced whole by the new sections, and every other section is kept as it was |
| Credentials.AuthorizeForgetsDefaultDevice | rofi-spotify.py:41-45 | after `authorize` no default device is stored, whatever was there before |
| Credentials.TokenCode | rofi-spotify.py:95 | taking the code out of the callback query succeeds exactly when the query contains `=`, and the code then contains no `=` |
| Credentials.TokenCodeBetweenSeparators | rofi-spotify.py:95 | the extracted code is the text between the first and the second `=` (or the end) of the query |
| Controls.ControlTrace | rofi-spotify.py:50-63 | `player_control` makes only player calls and notifications, names no device (it acts on the active one), and sends no notification under `--no-notify` |
| Controls.PlayPauseToggles | rofi-spotify.py:51-56 | key 5 while playing gives exactly one Pause and no notification; while paused, exactly one Resume followed by a notification unless notifications are off |
| Controls.SkipsMoveTheQueue | rofi-spotify.py:57-63 | key 6 gives exactly two Previous calls and key 7 exactly one Next; either is followed by a notification unless notifications are off |
| Controls.OtherKeysDoNothing | rofi-spotify.py:50-63 | any key other than 5, 6 and 7 gives an empty trace |
| Controls.NotifiesAfterTrackChange | rofi-spotify.py:50-63 | a notification happens exactly when notifications are on and the key is 6 or 7, or 5 while paused; it is always the last event and happens at most once |
| Controls.NoNotifyOnlyDropsNotify | rofi-spotify.py:56-63 | with `--no-notify` the trace of any key is the trace without it minus the notifications |
| Menus.DeviceOptions | rofi-spotify.py:104-106 | the device menu has one entry per device, in order, each the device's name |
| Menus.PlaylistOptions | rofi-spotify.py:142-144 | the playlist menu has one entry per playlist, in order, each the playlist's name |
| Menus.SongOptions | rofi-spotify.py:157-159 | the song menu has `len(songs) + 1` entries: "Shuffle" first, then "name - artist" for each song in order |
| Menus.LastNamed | rofi-spotify.py:137-140 | the device loop ends on the starting device or on a device of the list whose `str` is the stored name |
| Menus.PickDevice | rofi-spotify.py:132-140 | the target is a device of the list: the first one, or one whose `str` is the stored default |
| Menus.LastNamedFindsLastMatch | rofi-spotify.py:137-140 | when some device's `str` equals the stored name, the loop ends on the last such device |
| Menus.LastNamedWithoutMatch | rofi-spotify.py:137-140 | when no device's `str` equals the stored name, the loop leaves the first device |
| Menus.PickDeviceMeaning | rofi-spotify.py:132-140 | the target is the last device whose `str` equals a stored default; it is `devices[0]` when no default is stored or none matches |
| Menus.PickDeviceHonoursDefault | rofi-spotify.py:137-140 | whenever a device with the stored `str` is in the list, the target has that `str` |
| Menus.ResolveDevice | rofi-spotify.py:132-140 | the loop's device is the target defined by `PickDevice` |
| Menus.SongDispatch | rofi-spotify.py:162-173 | the song screen makes only player calls and notifications, every call that names a device names the target device, and no notification is sent under `--no-notify` |
| Menus.ShuffleRowShufflesPlaylist | rofi-spotify.py:163-168 | Enter on the Shuffle row plays the playlist, turns shuffle on, repeats the context and skips once, in that order, all on the target device, then notifies unless notifications are off |
| Menus.SongRowPlaysThatTrack | rofi-spotify.py:169-171 | Enter on row `i > 0` plays the playlist from offset `i - 1` on the target device, its only player call, then notifies unless notifications are off |
| Menus.SongDispatchWithoutNotify | rofi-spotify.py:162-173 | on the song screen `--no-notify` only removes notifications |
| App.Login | rofi-spotify.py:101-102 | creating the client succeeds exactly when `client_id` and `secret` are in `[global]` and `access_token` is in `[auth]`, a KeyError otherwise; it connects with exactly those three values |
| App.SetupRun | rofi-spotify.py:83-96 | setup first opens the authorization page and makes no player call; it finishes exactly when the pasted query contains `=`, and then holds `[auth]` and `[global]` in memory and on disk; otherwise it crashes with IndexError and changes nothing |
| App.DeviceRun | rofi-spotify.py:97-114 | choosing the default device makes no player call, stops exactly when `[auth]` is missing, changes no setting other than `[global]` `default_device`, and leaves the file untouched or equal to memory |
| App.RefreshRun | rofi-spotify.py:121-123 | the refresh check never stops the run and makes at most one call; without a call nothing changes; with one, the call is a token request, the run goes on, and memory equals the file |
| App.ConnectedRun | rofi-spotify.py:125-128 | creating the client changes no configuration; it crashes with KeyError exactly when a stored client setting or the access token is missing, and otherwise its first call creates the client |
| App.SessionRun | rofi-spotify.py:128-176 | the session stops exactly when the account has no device, never raises KeyError and never requests a token; every call that names a device names the resolved target |
| App.PlaylistDispatch | rofi-spotify.py:153-176 | the playlist menu's answer either finishes or crashes with IndexError on a bad playlist index, in which case no player call was made; no token is requested, and every call that names a device names the target |
| App.BrowseRun | rofi-spotify.py:116-176 | the plain run stops only when `[auth]` is missing or the account has no device, and then its last call is an error message; the file is left untouched or equal to memory |
| App.ProgramRun | rofi-spotify.py:83-176 | setup and device choice make no player call; the script stops cleanly only when `[auth]` is missing or the plain run finds no device; the file is left untouched or equal to memory |
| App.Launcher.constructor | rofi-spotify.py:69-71 | the parser starts holding what is on disk, with an empty trace |
| App.Launcher.NotifySong | rofi-spotify.py:16-19 | one notification is appended to the trace |
| App.Launcher.Save | rofi-spotify.py:46-48 | the file becomes the configuration in memory |
| App.Launcher.Reload | rofi-spotify.py:123 | the configuration becomes the file read over it |
| App.Launcher.Authorize | rofi-spotify.py:21-48 | building the payload and `[auth]` key by key appends one token request with the specified payload, and leaves in memory and on disk the configuration whose `[auth]` and `[global]` are the specified sections |
| App.Launcher.PlayerControl | rofi-spotify.py:50-63 | the calls appended are exactly the key's specified trace |
| App.Launcher.Setup | rofi-spotify.py:83-96 | setup opens the authorization page, then fails with IndexError on a query without `=`, otherwise exchanges the code and saves the authorized configuration, as `SetupRun` specifies |
| App.Launcher.SetDefaultDevice | rofi-spotify.py:97-114 | without `[auth]` it reports the setup hint and stops; otherwise it connects and shows the device menu, and Enter stores the chosen device's `str` in `[global]` and saves, as `DeviceRun` specifies |
| App.Launcher.Refresh | rofi-spotify.py:121-123 | a lapsed token (strictly past `expires_at`) is refreshed with the stored credentials, then the file is re-read; an unreadable expiry or a missing credential crashes, as `RefreshRun` specifies |
| App.Launcher.Connected | rofi-spotify.py:125-128 | the client is created from the stored settings before anything else, then the session runs, as `ConnectedRun` specifies |
| App.Launcher.Session | rofi-spotify.py:129-151 | without devices it reports the error and stops; otherwise it shows the loading status, resolves the device and shows the playlist menu, as `SessionRun` specifies |
| App.Launcher.PlaylistCommand | rofi-spotify.py:153-176 | Enter shows the loading status, then crashes with IndexError on a bad playlist index, or otherwise opens that playlist's song menu and dispatches its answer; any other key goes to `player_control`, as `PlaylistDispatch` specifies |
| App.Launcher.SongCommand | rofi-spotify.py:162-173 | the calls appended are exactly the song screen's specified dispatch |
| App.Launcher.Browse | rofi-spotify.py:116-176 | the plain run: the setup guard, then the refresh check, then the connected session, as `BrowseRun` specifies |
| App.Launcher.Run | rofi-spotify.py:83-176 | the flags choose setup, device choice or the plain run, as `ProgramRun` specifies |
| Guarantees.MissingAuthStops | rofi-spotify.py:98-100 | without `[auth]` both menus report the setup hint and stop with no other call and nothing changed |
| Guarantees.LoginAfterAuthorize | rofi-spotify.py:37-44 | after `authorize`, creating the client succeeds, with the client id and secret given to `authorize` and the access token of its response |
| Guarantees.RefreshExactlyWhenLapsed | rofi-spotify.py:117-126 | given complete settings, the first call is a token request exactly when now is strictly past the expiry, and no other token request follows. After a refresh the client uses the new access token, the authorized configuration is both in memory and on disk, and the old refresh token is kept unless the response replaces it. Otherwise the stored token is used and nothing is written |
| Guarantees.PlayerCallsFollowConnect | rofi-spotify.py:125-176 | every player call of the plain run comes after the client was created |
| Guarantees.NoDeviceNoPlayback | rofi-spotify.py:129-131 | an account without devices gets no player call and no normal ending; a stopped run with `[auth]` ends on the no-device error |
| Guarantees.RefreshForgetsDefaultDevice | rofi-spotify.py:41-45 | a run that refreshes behaves exactly as if no default device were stored, and leaves none on disk |
| Guarantees.RefreshIgnoresDefault | rofi-spotify.py:121-123 | with the token lapsed, the refresh step gives the same calls and configuration whether or not a default device is stored |
| Guarantees.LapsedRunPlaysOnFirstDevice | rofi-spotify.py:121-140 | a run that refreshes the token sends every device-naming call to the account's first device, whatever default was stored |
| Guarantees.PlaylistDispatchWithoutNotify | rofi-spotify.py:153-176 | on the playlist screen `--no-notify` only removes notifications |
| Guarantees.SessionRunWithoutNotify | rofi-spotify.py:129-176 | for the whole session `--no-notify` only removes notifications |
| Guarantees.NoNotifyOnlyDropsNotifications | rofi-spotify.py:77 | for the whole plain run `--no-notify` removes every notification and changes nothing else: outcome, other calls in order, memory and file |
| Guarantees.ChosenDeviceIsStored | rofi-spotify.py:109-114 | Enter on a device stores its `str` and changes no other setting, and the same is on disk |
| Guarantees.StoredDevicePlaysUntilRefresh | rofi-spotify.py:132-140 | a run whose token has not lapsed, on an account that has a device carrying the stored default, sends every device-naming call to such a device |
| Guarantees.ChosenDeviceIsRemembered | rofi-spotify.py:109-140 | after choosing a device, a later plain run before the token lapses, on an account that still has a device with that `str`, sends every device-naming call to such a device |
| Guarantees.SetupTokenLastsUntilExpiry | rofi-spotify.py:36 | after setup, a plain run connects with the new access token until now + expires_in - 60, and after that first refreshes with the refresh token the setup received |

## Left out

- HTTP requests, the `spotify.sync` client, `webbrowser.open`, `input()` and `urlparse`. The token response, the account, the menu answers, the setup answers and the query part of the pasted URL are inputs. The token request, the client creation and the opening of the authorization page are trace events; the data fetches are not (see below).
- Building the authorization URL, which the OAuth2 helper does; the event records the client id, redirect URI and scopes it is built from.
- Rofi rendering: the "Currently Playing" header of the menus, `Rofi.escape`, the key hints and `-i`. The header's `currently_playing` call is not traced.
- The data fetches `get_player`, `get_devices`, `get_all_playlists` and `get_all_tracks` are not traced. Their results are inputs: the player's `is_playing` and the account's devices, playlists and tracks. A player call is an event rather than a method on a player object.
- The 300 ms sleep and the notification's text. A notification is one opaque event, and its crash when nothing is playing is not modelled.
- `exit(0)` is the outcome `Stopped`; an uncaught exception is `Crashed` with its kind. Exit codes and tracebacks are left out.
- ConfigParser file syntax, `os.makedirs` and the write itself: the file is a map that `Save` sets and `Reload` reads.
- The clock is read twice, once for the expiry check and once after the token request for the new expiry. The model uses one `now` for both, so the time the request takes is not modelled.
- Clock values are integers. `time.time()` is a float, so the script writes an expiry such as `1700000000.5`; the model writes integer text, and reads stored text with a fractional part at its exact value (`Py.ParseFloat`).
- Py.ParseFloat: `float` also accepts a leading `+`, surrounding whitespace, an exponent (`1e9`), `_` between digits, and `inf`/`nan`; the model reads only an optional minus, digits and one decimal point, and turns every other text into a ValueError. `App.RefreshRun` and `App.Launcher.Refresh` inherit this: an `expires_at` in one of those forms crashes the model's run with ValueError where the script carries on.
- ConfigParser interpolation. `ConfigParser()` interpolates `%` in values: storing a value with a bare `%` raises ValueError, which the script does at lines 41-45 (for example a redirect URI or secret containing `%2F`) and at line 111 (a device whose `str` holds a `%`), before the file is written. The model's configuration holds any text, so `App.SetupRun`, `App.DeviceRun`, `App.RefreshRun` and the `Launcher` methods behind them store such values and carry on. Interpolation when a stored value is read is not modelled either.
- Credentials.AuthSection: a token response without `expires_in` or `access_token` (a KeyError in the script) is not modelled; the response record always has both.
- Concurrent runs against the same file are not modelled.
