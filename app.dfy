/**
 * The launcher script itself: the module-level configuration parser, the three
 * modes chosen by the command-line flags (`--setup`, `--set-default-device`,
 * the normal browse-and-play run) and the trace of calls each makes.
 *
 * Each mode has a specification function giving the outcome, the calls made and
 * the configuration in memory and on disk; the class `Launcher` runs the mode
 * step by step as the script does, and its methods are proved to agree with them.
 */
module App {
  import opened Py
  import opened Ini
  import opened External
  import opened Credentials
  import opened Controls
  import opened Menus

  const SetupHint := "Please start the script in the command line with --setup"
  const NoDeviceMessage := "No device found where music could get played on"
  const LoadingPlaylists := "Loading playlists..."
  const LoadingSongs := "Loading songs..."
  const DevicePrompt := "Spotify Device"
  const PlaylistPrompt := "Playlist"
  const SongPrompt := "Song"

  /** The permissions the authorization page asks for. */
  const Scopes := ["user-modify-playback-state", "user-read-currently-playing", "user-read-playback-state",
                   "playlist-read-private", "playlist-read-collaborative"]

  /** The parsed command-line flags. */
  datatype Args = Args(setup: bool, setDefaultDevice: bool, noNotify: bool)

  /** The operator's answers during setup; `callbackQuery` is the query part of the pasted URL. */
  datatype Answers = Answers(clientId: string, secret: string, redirectUri: string, callbackQuery: string)

  /**
   * Everything a run receives from outside: the clock, the setup answers, the token
   * endpoint's answer, the account, and the answers of the first and second menu.
   */
  datatype Inputs = Inputs(now: int, answers: Answers, response: TokenResponse, account: Account,
                           first: Choice, second: Choice)

  /** How a run ends: normally, through `exit(0)` after an error message, or by an uncaught exception. */
  datatype Outcome = Finished | Stopped | Crashed(error: PyError)

  /** A run's outcome, the calls it made, and the configuration in memory and on disk afterwards. */
  datatype RunResult = RunResult(outcome: Outcome, events: seq<Event>, config: Config, file: Config)

  /** Creating the client and the user from the stored settings; `None` is the KeyError of a missing one. */
  function Login(c: Config): (r: Option<Event>)
    ensures r.Some? <==> Get(c, "global", "client_id").Some? && Get(c, "global", "secret").Some? && Get(c, "auth", "access_token").Some?
    ensures r.Some? ==> r.value == Connect(c["global"]["client_id"], c["global"]["secret"], c["auth"]["access_token"])
  {
    var id, secret, token := Get(c, "global", "client_id"), Get(c, "global", "secret"), Get(c, "auth", "access_token");
    if id.Some? && secret.Some? && token.Some? then Some(Connect(id.value, secret.value, token.value)) else None
  }

  /** `--setup`: open the authorization page, read the code from the callback, exchange it. */
  function SetupRun(c: Config, f: Config, inputs: Inputs): (r: RunResult)
    ensures |r.events| >= 1 && r.events[0] == OpenAuthPage(inputs.answers.clientId, inputs.answers.redirectUri, Scopes)
    ensures NoPlayerCalls(r.events)
    ensures r.outcome == Finished <==> '=' in inputs.answers.callbackQuery
    ensures r.outcome != Finished ==> r.outcome == Crashed(IndexError) && r.config == c && r.file == f
    ensures r.outcome == Finished ==> r.file == r.config && "auth" in r.config && "global" in r.config
  {
    var a := inputs.answers;
    var shown := [OpenAuthPage(a.clientId, a.redirectUri, Scopes)];
    match TokenCode(a.callbackQuery)
    case None => RunResult(Crashed(IndexError), shown, c, f)
    case Some(code) =>
      var c2 := Authorized(c, a.redirectUri, a.clientId, a.secret, AuthorizationCode, code, inputs.response, inputs.now);
      RunResult(Finished, shown + [PostToken(TokenPayload(a.redirectUri, a.clientId, a.secret, AuthorizationCode, code))], c2, c2)
  }

  /** `--set-default-device`: list the devices and store the `str` of the one chosen with Enter. */
  function DeviceRun(c: Config, f: Config, inputs: Inputs): (r: RunResult)
    ensures NoPlayerCalls(r.events)
    ensures r.outcome == Stopped <==> "auth" !in c
    ensures r.file == f || r.file == r.config
    ensures forall s, k :: (s, k) != ("global", "default_device") ==> Get(r.config, s, k) == Get(c, s, k)
  {
    if "auth" !in c then RunResult(Stopped, [RofiError(SetupHint)], c, f)
    else match Login(c)
      case None => RunResult(Crashed(KeyError), [], c, f)
      case Some(connect) =>
        var devices := inputs.account.devices;
        var shown := [connect, RofiSelect(DevicePrompt, DeviceLabels(devices))];
        if inputs.first.key != KeyEnter then RunResult(Finished, shown, c, f)
        else match Index(devices, inputs.first.index)
          case None => RunResult(Crashed(IndexError), shown, c, f)
          case Some(d) =>
            var c2 := c["global" := c["global"]["default_device" := d.repr]];
            RunResult(Finished, shown, c2, c2)
  }

  /** The expiry check of the normal run and, when the token has lapsed, the refresh grant and re-read. */
  function RefreshRun(c: Config, f: Config, now: int, response: TokenResponse): (r: RunResult)
    ensures !r.outcome.Stopped?
    ensures |r.events| <= 1
    ensures r.events == [] ==> r.config == c && r.file == f
    ensures r.events != [] ==> r.events[0].PostToken? && r.outcome == Finished && r.file == r.config
  {
    match Get(c, "auth", "expires_at")
    case None => RunResult(Crashed(KeyError), [], c, f)
    case Some(text) =>
      match ParseFloat(text)
      case None => RunResult(Crashed(ValueError), [], c, f)
      case Some(expiresAt) =>
        if now as real > expiresAt then
          var uri, id, secret := Get(c, "global", "redirect_uri"), Get(c, "global", "client_id"), Get(c, "global", "secret");
          var token := Get(c, "auth", "refresh_token");
          if uri.Some? && id.Some? && secret.Some? && token.Some? then
            var c2 := Authorized(c, uri.value, id.value, secret.value, RefreshToken, token.value, response, now);
            RunResult(Finished, [PostToken(TokenPayload(uri.value, id.value, secret.value, RefreshToken, token.value))], c2, c2)
          else RunResult(Crashed(KeyError), [], c, f)
        else RunResult(Finished, [], c, f)
  }

  /** The normal run once connected: devices, playlist menu, song menu and the resulting player calls. */
  function SessionRun(c: Config, account: Account, first: Choice, second: Choice, noNotify: bool): (r: (Outcome, seq<Event>))
    ensures r.0 == Stopped <==> account.devices == []
    ensures r.0 != Crashed(KeyError)
    ensures |r.1| >= 1 && NoTokenRequests(r.1)
    ensures account.devices != [] ==> AllOn(r.1, PickDevice(account.devices, Get(c, "global", "default_device")))
  {
    var devices := account.devices;
    if |devices| == 0 then (Stopped, [RofiError(NoDeviceMessage)])
    else
      var device := PickDevice(devices, Get(c, "global", "default_device"));
      var shown := [RofiStatus(LoadingPlaylists), RofiClose, RofiSelect(PlaylistPrompt, PlaylistLabels(account.playlists))];
      var s := PlaylistDispatch(account, first, second, device, noNotify);
      (s.0, shown + s.1)
  }

  /** Enter on the playlist menu opens its song menu; any other key goes to `player_control`. */
  function PlaylistDispatch(account: Account, first: Choice, second: Choice, device: Device, noNotify: bool): (r: (Outcome, seq<Event>))
    ensures r.0 == Finished || r.0 == Crashed(IndexError)
    ensures r.0.Crashed? ==> NoPlayerCalls(r.1)
    ensures NoTokenRequests(r.1)
    ensures AllOn(r.1, device)
  {
    if first.key == KeyEnter then
      match Index(account.playlists, first.index)
      case None => (Crashed(IndexError), [RofiStatus(LoadingSongs)])
      case Some(p) =>
        (Finished, [RofiStatus(LoadingSongs), RofiClose, RofiSelect(SongPrompt, SongLabels(p.tracks))]
                   + SongDispatch(p, second, device, account.isPlaying, noNotify))
    else (Finished, ControlTrace(first.key, account.isPlaying, noNotify))
  }

  /** The normal run: setup guard, refresh check, connection, then the session. */
  function BrowseRun(c: Config, f: Config, inputs: Inputs, noNotify: bool): (r: RunResult)
    ensures r.outcome.Stopped? ==>
      ("auth" !in c || inputs.account.devices == []) && |r.events| >= 1 && r.events[|r.events| - 1].RofiError?
    ensures r.file == f || r.file == r.config
  {
    if "auth" !in c then RunResult(Stopped, [RofiError(SetupHint)], c, f)
    else
      var r := RefreshRun(c, f, inputs.now, inputs.response);
      if r.outcome.Crashed? then r
      else
        var s := ConnectedRun(r.config, r.file, inputs, noNotify);
        RunResult(s.outcome, r.events + s.events, s.config, s.file)
  }

  /** The normal run from creating the client on, with the configuration left as it is. */
  function ConnectedRun(c: Config, f: Config, inputs: Inputs, noNotify: bool): (r: RunResult)
    ensures r.config == c && r.file == f
    ensures r.outcome == Crashed(KeyError) <==> Login(c).None?
    ensures Login(c).Some? ==> |r.events| >= 2 && r.events[0] == Login(c).value
    ensures Login(c).None? ==> r.events == []
  {
    match Login(c)
    case None => RunResult(Crashed(KeyError), [], c, f)
    case Some(connect) =>
      var s := SessionRun(c, inputs.account, inputs.first, inputs.second, noNotify);
      RunResult(s.0, [connect] + s.1, c, f)
  }

  /** The whole script, from the configuration it finds to the one it leaves. */
  function ProgramRun(c: Config, f: Config, args: Args, inputs: Inputs): (r: RunResult)
    ensures (args.setup || args.setDefaultDevice) ==> NoPlayerCalls(r.events)
    ensures r.outcome.Stopped? ==> "auth" !in c || (!args.setup && !args.setDefaultDevice && inputs.account.devices == [])
    ensures r.file == f || r.file == r.config
  {
    if args.setup then SetupRun(c, f, inputs)
    else if args.setDefaultDevice then DeviceRun(c, f, inputs)
    else BrowseRun(c, f, inputs, args.noNotify)
  }

  /** The script's module-level state: the parser `config`, the file it is saved to, and the calls made so far. */
  class Launcher {
    var config: Config
    var file: Config
    var trace: seq<Event>

    /** The state once the script created its parser and read the configuration file. */
    ghost predicate Ended(r: RunResult, outcome: Outcome, before: seq<Event>)
      reads this
    {
      outcome == r.outcome && trace == before + r.events && config == r.config && file == r.file
    }

    constructor (onDisk: Config)
      ensures config == onDisk && file == onDisk && trace == []
    {
      file := onDisk;
      trace := [];
      config := Read(map[], onDisk);
      ReadIntoEmpty(onDisk);
    }

    /** `notify_song`. */
    method NotifySong()
      modifies this`trace
      ensures trace == old(trace) + [Notify]
    {
      trace := trace + [Notify];
    }

    /** `config.write` to the configuration file. */
    method Save()
      modifies this`file
      ensures file == config
    {
      file := config;
    }

    /** `config.read(config_file)`. */
    method Reload()
      modifies this`config
      ensures config == Read(old(config), file)
    {
      config := Read(config, file);
    }

    /** `authorize`: post the grant, replace `[auth]` and `[global]`, save. */
    method Authorize(redirectUri: string, clientId: string, secret: string, grantType: string, tokenCode: string,
                     response: TokenResponse, now: int)
      modifies this
      ensures trace == old(trace) + [PostToken(TokenPayload(redirectUri, clientId, secret, grantType, tokenCode))]
      ensures config == Authorized(old(config), redirectUri, clientId, secret, grantType, tokenCode, response, now)
      ensures file == config
    {
      var auth: Section := map[];
      var payload: Section := map["redirect_uri" := redirectUri, "client_id" := clientId, "client_secret" := secret];
      if grantType == AuthorizationCode {
        payload := payload["grant_type" := AuthorizationCode];
        payload := payload["code" := tokenCode];
      } else if grantType == RefreshToken {
        payload := payload["grant_type" := RefreshToken];
        payload := payload["refresh_token" := tokenCode];
        auth := auth["refresh_token" := tokenCode];
      }
      assert payload == TokenPayload(redirectUri, clientId, secret, grantType, tokenCode);
      trace := trace + [PostToken(payload)];

      auth := auth["expires_at" := IntToString(now + response.expiresIn - ExpiryMargin)];
      auth := auth["access_token" := response.accessToken];
      if response.refreshToken.Some? {
        auth := auth["refresh_token" := response.refreshToken.value];
      }
      assert auth == AuthSection(grantType, tokenCode, response, now);

      var global: Section := map[];
      global := global["client_id" := clientId];
      global := global["secret" := secret];
      global := global["redirect_uri" := redirectUri];
      assert global == GlobalSection(clientId, secret, redirectUri);
      config := config["auth" := auth];
      config := config["global" := global];
      Save();
    }

    /** `player_control`. */
    method PlayerControl(key: int, isPlaying: bool, noNotify: bool)
      modifies this`trace
      ensures trace == old(trace) + ControlTrace(key, isPlaying, noNotify)
    {
      if key == KeyPlayPause {
        if isPlaying {
          trace := trace + [Pause];
        } else {
          trace := trace + [Resume];
          if !noNotify { NotifySong(); }
        }
      } else if key == KeyPrevious {
        trace := trace + [Previous];
        trace := trace + [Previous];
        if !noNotify { NotifySong(); }
      } else if key == KeyNext {
        trace := trace + [Next(None)];
        if !noNotify { NotifySong(); }
      }
    }

    /** The `--setup` branch. */
    method Setup(inputs: Inputs) returns (outcome: Outcome)
      modifies this
      ensures Ended(SetupRun(old(config), old(file), inputs), outcome, old(trace))
    {
      var a := inputs.answers;
      trace := trace + [OpenAuthPage(a.clientId, a.redirectUri, Scopes)];
      var code := TokenCode(a.callbackQuery);
      if code.None? {
        return Crashed(IndexError);
      }
      Authorize(a.redirectUri, a.clientId, a.secret, AuthorizationCode, code.value, inputs.response, inputs.now);
      outcome := Finished;
    }

    /** The `--set-default-device` branch. */
    method SetDefaultDevice(inputs: Inputs) returns (outcome: Outcome)
      modifies this
      ensures Ended(DeviceRun(old(config), old(file), inputs), outcome, old(trace))
    {
      if "auth" !in config {
        trace := trace + [RofiError(SetupHint)];
        return Stopped;
      }
      var connect := Login(config);
      if connect.None? {
        return Crashed(KeyError);
      }
      trace := trace + [connect.value];
      var devices := inputs.account.devices;
      var options := DeviceOptions(devices);
      trace := trace + [RofiSelect(DevicePrompt, options)];
      if inputs.first.key == KeyEnter {
        var device := Index(devices, inputs.first.index);
        if device.None? {
          return Crashed(IndexError);
        }
        config := config["global" := config["global"]["default_device" := device.value.repr]];
        Save();
      }
      outcome := Finished;
    }

    /** What Enter or another key does on the song screen of playlist `p`. */
    method SongCommand(p: Playlist, choice: Choice, device: Device, isPlaying: bool, noNotify: bool)
      modifies this`trace
      ensures trace == old(trace) + SongDispatch(p, choice, device, isPlaying, noNotify)
    {
      if choice.key == KeyEnter {
        if choice.index == 0 {
          trace := trace + [Play(p, device, None)];
          trace := trace + [Shuffle(true, device)];
          trace := trace + [Repeat("context", device)];
          trace := trace + [Next(Some(device))];
          assert trace == old(trace) + [Play(p, device, None), Shuffle(true, device), Repeat("context", device), Next(Some(device))];
        } else {
          trace := trace + [Play(p, device, Some(choice.index - 1))];
        }
        if !noNotify { NotifySong(); }
      } else {
        PlayerControl(choice.key, isPlaying, noNotify);
      }
    }

    /** The normal run after the client is created: lines from `get_devices` to the end. */
    method Session(account: Account, first: Choice, second: Choice, noNotify: bool) returns (outcome: Outcome)
      modifies this`trace
      ensures var s := SessionRun(config, account, first, second, noNotify);
        outcome == s.0 && trace == old(trace) + s.1
    {
      var devices := account.devices;
      if |devices| == 0 {
        trace := trace + [RofiError(NoDeviceMessage)];
        return Stopped;
      }
      trace := trace + [RofiStatus(LoadingPlaylists)];
      trace := trace + [RofiClose];
      var device := ResolveDevice(devices, Get(config, "global", "default_device"));
      var options := PlaylistOptions(account.playlists);
      trace := trace + [RofiSelect(PlaylistPrompt, options)];
      ghost var shown := [RofiStatus(LoadingPlaylists), RofiClose, RofiSelect(PlaylistPrompt, PlaylistLabels(account.playlists))];
      assert trace == old(trace) + shown;
      outcome := PlaylistCommand(account, first, second, device, noNotify);
      AppendInTwoSteps(old(trace), shown, PlaylistDispatch(account, first, second, device, noNotify).1);
    }

    /** The playlist menu's answer: lines 153-176. */
    method PlaylistCommand(account: Account, first: Choice, second: Choice, device: Device, noNotify: bool) returns (outcome: Outcome)
      modifies this`trace
      ensures var s := PlaylistDispatch(account, first, second, device, noNotify);
        outcome == s.0 && trace == old(trace) + s.1
    {
      if first.key == KeyEnter {
        trace := trace + [RofiStatus(LoadingSongs)];
        var chosen := Index(account.playlists, first.index);
        if chosen.None? {
          return Crashed(IndexError);
        }
        var p := chosen.value;
        trace := trace + [RofiClose];
        var songOptions := SongOptions(p.tracks);
        trace := trace + [RofiSelect(SongPrompt, songOptions)];
        ghost var listed := [RofiStatus(LoadingSongs), RofiClose, RofiSelect(SongPrompt, SongLabels(p.tracks))];
        assert trace == old(trace) + listed;
        SongCommand(p, second, device, account.isPlaying, noNotify);
        AppendInTwoSteps(old(trace), listed, SongDispatch(p, second, device, account.isPlaying, noNotify));
      } else {
        PlayerControl(first.key, account.isPlaying, noNotify);
      }
      outcome := Finished;
    }

    /** The expiry check and, for a lapsed token, the refresh grant and the re-read of the file. */
    method Refresh(now: int, response: TokenResponse) returns (outcome: Outcome)
      modifies this
      ensures Ended(RefreshRun(old(config), old(file), now, response), outcome, old(trace))
    {
      var expiresText := Get(config, "auth", "expires_at");
      if expiresText.None? {
        return Crashed(KeyError);
      }
      var expiresAt := ParseFloat(expiresText.value);
      if expiresAt.None? {
        return Crashed(ValueError);
      }
      if now as real > expiresAt.value {
        var uri, id, secret := Get(config, "global", "redirect_uri"), Get(config, "global", "client_id"), Get(config, "global", "secret");
        var token := Get(config, "auth", "refresh_token");
        if uri.None? || id.None? || secret.None? || token.None? {
          return Crashed(KeyError);
        }
        Authorize(uri.value, id.value, secret.value, RefreshToken, token.value, response, now);
        Reload();
        ReadOwnFile(file);
      }
      outcome := Finished;
    }

    /** The branch taken without flags. */
    method Browse(inputs: Inputs, noNotify: bool) returns (outcome: Outcome)
      modifies this
      ensures Ended(BrowseRun(old(config), old(file), inputs, noNotify), outcome, old(trace))
    {
      if "auth" !in config {
        trace := trace + [RofiError(SetupHint)];
        return Stopped;
      }
      ghost var r := RefreshRun(config, file, inputs.now, inputs.response);
      outcome := Refresh(inputs.now, inputs.response);
      if outcome.Crashed? {
        return;
      }
      ghost var s := ConnectedRun(config, file, inputs, noNotify);
      outcome := Connected(inputs, noNotify);
      AppendInTwoSteps(old(trace), r.events, s.events);
    }

    /** Creating the client, then the session. */
    method Connected(inputs: Inputs, noNotify: bool) returns (outcome: Outcome)
      modifies this`trace
      ensures Ended(ConnectedRun(config, file, inputs, noNotify), outcome, old(trace))
    {
      var connect := Login(config);
      if connect.None? {
        return Crashed(KeyError);
      }
      ghost var s := SessionRun(config, inputs.account, inputs.first, inputs.second, noNotify);
      assert ConnectedRun(config, file, inputs, noNotify) == RunResult(s.0, [connect.value] + s.1, config, file);
      trace := trace + [connect.value];
      outcome := Session(inputs.account, inputs.first, inputs.second, noNotify);
      AppendInTwoSteps(old(trace), [connect.value], s.1);
    }

    /** The script from argument parsing to exit. */
    method Run(args: Args, inputs: Inputs) returns (outcome: Outcome)
      modifies this
      ensures Ended(ProgramRun(old(config), old(file), args, inputs), outcome, old(trace))
    {
      if args.setup {
        outcome := Setup(inputs);
      } else if args.setDefaultDevice {
        outcome := SetDefaultDevice(inputs);
      } else {
        outcome := Browse(inputs, args.noNotify);
      }
    }
  }
}
