/**
 * What the script's runs guarantee, stated over the specification functions of
 * the three modes: the setup guard, when the token is refreshed and what the
 * refresh keeps, that nothing reaches the player before the client exists,
 * what happens without devices, how `--no-notify` acts, and how the stored
 * default device and the stored expiry are used by a later run.
 */
module Guarantees {
  import opened Py
  import opened Ini
  import opened External
  import opened Credentials
  import opened Controls
  import opened Menus
  import opened App

  /** Every setting the normal run reads from the configuration is present. */
  predicate HoldsCredentials(c: Config) {
    Get(c, "global", "redirect_uri").Some? && Get(c, "global", "client_id").Some? &&
    Get(c, "global", "secret").Some? && Get(c, "auth", "refresh_token").Some? &&
    Get(c, "auth", "access_token").Some?
  }

  /** Without an `[auth]` section both menus report the setup hint and stop before any call. */
  lemma MissingAuthStops(c: Config, f: Config, inputs: Inputs, noNotify: bool)
    requires "auth" !in c
    ensures BrowseRun(c, f, inputs, noNotify) == RunResult(Stopped, [RofiError(SetupHint)], c, f)
    ensures DeviceRun(c, f, inputs) == RunResult(Stopped, [RofiError(SetupHint)], c, f)
  {
  }

  /** After `authorize`, the client is created with the client keys given and the access token just received. */
  lemma LoginAfterAuthorize(c: Config, redirectUri: string, clientId: string, secret: string,
                            grantType: string, tokenCode: string, response: TokenResponse, now: int)
    ensures Login(Authorized(c, redirectUri, clientId, secret, grantType, tokenCode, response, now))
      == Some(Connect(clientId, secret, response.accessToken))
  {
  }

  /** A readable expiry from which the clock has not passed. */
  predicate NotLapsed(c: Config, now: int, expiresAt: real) {
    Get(c, "auth", "expires_at").Some? && ParseFloat(Get(c, "auth", "expires_at").value) == Some(expiresAt) && now as real <= expiresAt
  }

  /** Before the token lapses, the plain run is the connected run on the configuration as it is. */
  lemma RunWithoutRefresh(c: Config, f: Config, inputs: Inputs, noNotify: bool, expiresAt: real)
    requires NotLapsed(c, inputs.now, expiresAt)
    ensures BrowseRun(c, f, inputs, noNotify) == ConnectedRun(c, f, inputs, noNotify)
  {
    assert RefreshRun(c, f, inputs.now, inputs.response) == RunResult(Finished, [], c, f);
  }

  /** The configuration a refresh leaves, for complete settings. */
  function Refreshed(c: Config, inputs: Inputs): Config
    requires HoldsCredentials(c)
  {
    Authorized(c, c["global"]["redirect_uri"], c["global"]["client_id"], c["global"]["secret"], RefreshToken,
               c["auth"]["refresh_token"], inputs.response, inputs.now)
  }

  /** The token request a refresh makes, for complete settings. */
  function RefreshRequest(c: Config): Event
    requires HoldsCredentials(c)
  {
    PostToken(TokenPayload(c["global"]["redirect_uri"], c["global"]["client_id"], c["global"]["secret"], RefreshToken,
                           c["auth"]["refresh_token"]))
  }

  /** Once the token has lapsed, the plain run is the refresh followed by the connected run on its result. */
  lemma RunWithRefresh(c: Config, f: Config, inputs: Inputs, noNotify: bool, expiresAt: real)
    requires HoldsCredentials(c)
    requires Get(c, "auth", "expires_at").Some? && ParseFloat(Get(c, "auth", "expires_at").value) == Some(expiresAt)
    requires inputs.now as real > expiresAt
    ensures var c2 := Refreshed(c, inputs);
      var s := ConnectedRun(c2, c2, inputs, noNotify);
      BrowseRun(c, f, inputs, noNotify) == RunResult(s.outcome, [RefreshRequest(c)] + s.events, c2, c2)
  {
    var c2 := Refreshed(c, inputs);
    assert RefreshRun(c, f, inputs.now, inputs.response) == RunResult(Finished, [RefreshRequest(c)], c2, c2);
  }

  /**
   * With complete settings and a readable expiry, the normal run exchanges the
   * refresh token exactly when the clock is strictly past the stored expiry; the
   * exchange is the first call, before the client is created with the new access
   * token, and it is the only one. The refreshed configuration is the one
   * `authorize` computes and is both in memory and on disk; it keeps the old
   * refresh token unless the answer brings a new one. Otherwise the stored
   * token is used and nothing is rewritten.
   */
  lemma RefreshExactlyWhenLapsed(c: Config, f: Config, inputs: Inputs, noNotify: bool, expiresAt: real)
    requires HoldsCredentials(c)
    requires Get(c, "auth", "expires_at").Some? && ParseFloat(Get(c, "auth", "expires_at").value) == Some(expiresAt)
    ensures var r := BrowseRun(c, f, inputs, noNotify);
      var uri, id, secret, token := c["global"]["redirect_uri"], c["global"]["client_id"], c["global"]["secret"], c["auth"]["refresh_token"];
      |r.events| >= 2 &&
      (r.events[0].PostToken? <==> inputs.now as real > expiresAt) &&
      NoTokenRequests(r.events[1..]) &&
      (inputs.now as real > expiresAt ==>
        r.events[0] == PostToken(TokenPayload(uri, id, secret, RefreshToken, token)) &&
        r.events[1] == Connect(id, secret, inputs.response.accessToken) &&
        r.config == Authorized(c, uri, id, secret, RefreshToken, token, inputs.response, inputs.now) &&
        r.file == r.config &&
        Get(r.config, "auth", "refresh_token") ==
          Some(if inputs.response.refreshToken.Some? then inputs.response.refreshToken.value else token)) &&
      (inputs.now as real <= expiresAt ==>
        r.events[0] == Connect(id, secret, c["auth"]["access_token"]) && r.config == c && r.file == f)
  {
    var r := BrowseRun(c, f, inputs, noNotify);
    if inputs.now as real > expiresAt {
      RunWithRefresh(c, f, inputs, noNotify, expiresAt);
      var c2 := Refreshed(c, inputs);
      var session := SessionRun(c2, inputs.account, inputs.first, inputs.second, noNotify);
      assert Login(c2).Some?;
      assert r.events == [RefreshRequest(c)] + ([Login(c2).value] + session.1);
      assert r.events[1..] == [Login(c2).value] + session.1;
    } else {
      RunWithoutRefresh(c, f, inputs, noNotify, expiresAt);
      var session := SessionRun(c, inputs.account, inputs.first, inputs.second, noNotify);
      assert r.events == [Login(c).value] + session.1;
      assert r.events[1..] == session.1;
    }
  }

  /** Every player call of the normal run comes after the client was created. */
  lemma PlayerCallsFollowConnect(c: Config, f: Config, inputs: Inputs, noNotify: bool)
    ensures var t := BrowseRun(c, f, inputs, noNotify).events;
      forall i :: 0 <= i < |t| && IsPlayerCall(t[i]) ==> exists j :: 0 <= j < i && t[j].Connect?
  {
    var r := BrowseRun(c, f, inputs, noNotify);
    if "auth" !in c {
      assert r.events == [RofiError(SetupHint)];
      PlayerCallsAfterConnect(r.events, []);
      assert r.events + [] == r.events;
    } else {
      var q := RefreshRun(c, f, inputs.now, inputs.response);
      if q.outcome.Crashed? {
        assert r == q;
        PlayerCallsAfterConnect(q.events, []);
        assert q.events + [] == q.events;
      } else {
        var s := ConnectedRun(q.config, q.file, inputs, noNotify);
        assert r.events == q.events + s.events;
        PlayerCallsAfterConnect(q.events, s.events);
      }
    }
  }

  /** Once connected, an account without devices gets only the error message. */
  lemma ConnectedWithoutDevices(c: Config, f: Config, inputs: Inputs, noNotify: bool)
    requires inputs.account.devices == []
    ensures var s := ConnectedRun(c, f, inputs, noNotify);
      (s.outcome == Crashed(KeyError) && s.events == []) ||
      (s.outcome == Stopped && s.events == [Login(c).value, RofiError(NoDeviceMessage)])
  {
  }

  /** With `[auth]` present, the plain run is the refresh step followed, unless it crashed, by the connected run. */
  lemma RunInTwoParts(c: Config, f: Config, inputs: Inputs, noNotify: bool)
    requires "auth" in c
    ensures var q := RefreshRun(c, f, inputs.now, inputs.response);
      var s := ConnectedRun(q.config, q.file, inputs, noNotify);
      BrowseRun(c, f, inputs, noNotify) ==
        if q.outcome.Crashed? then q else RunResult(s.outcome, q.events + s.events, s.config, s.file)
  {
  }

  /** An account without devices gets the error, an abnormal ending and no player call. */
  lemma NoDeviceNoPlayback(c: Config, f: Config, inputs: Inputs, noNotify: bool)
    requires inputs.account.devices == []
    ensures var r := BrowseRun(c, f, inputs, noNotify);
      NoPlayerCalls(r.events) && !r.outcome.Finished? &&
      ("auth" in c && r.outcome == Stopped ==> r.events[|r.events| - 1] == RofiError(NoDeviceMessage))
  {
    if "auth" in c {
      var q := RefreshRun(c, f, inputs.now, inputs.response);
      var s := ConnectedRun(q.config, q.file, inputs, noNotify);
      RunInTwoParts(c, f, inputs, noNotify);
      if !q.outcome.Crashed? {
        ConnectedWithoutDevices(q.config, q.file, inputs, noNotify);
        NoPlayerCallsAppend(q.events, s.events);
      }
    }
  }

  /** The configuration with its stored default device taken out. */
  function ForgetDefault(c: Config): Config
    requires "global" in c
  {
    c["global" := c["global"] - {"default_device"}]
  }

  /** With the token lapsed, the refresh step does not read the stored default device. */
  lemma RefreshIgnoresDefault(c: Config, f: Config, now: int, response: TokenResponse, expiresAt: real)
    requires HoldsCredentials(c)
    requires Get(c, "auth", "expires_at").Some? && ParseFloat(Get(c, "auth", "expires_at").value) == Some(expiresAt)
    requires now as real > expiresAt
    ensures RefreshRun(ForgetDefault(c), f, now, response) == RefreshRun(c, f, now, response)
  {
    var c' := ForgetDefault(c);
    var uri, id, secret, token := c["global"]["redirect_uri"], c["global"]["client_id"], c["global"]["secret"], c["auth"]["refresh_token"];
    assert Get(c', "global", "redirect_uri") == Some(uri);
    assert Get(c', "global", "client_id") == Some(id);
    assert Get(c', "global", "secret") == Some(secret);
    assert Get(c', "auth", "refresh_token") == Some(token);
    assert Get(c', "auth", "expires_at") == Get(c, "auth", "expires_at");
    assert Authorized(c', uri, id, secret, RefreshToken, token, response, now)
        == Authorized(c, uri, id, secret, RefreshToken, token, response, now);
  }

  /**
   * `authorize` rewrites `[global]`, so a run that refreshes the token behaves
   * exactly as if no default device had been stored, and leaves none on disk.
   */
  lemma RefreshForgetsDefaultDevice(c: Config, f: Config, inputs: Inputs, noNotify: bool, expiresAt: real)
    requires HoldsCredentials(c)
    requires Get(c, "auth", "expires_at").Some? && ParseFloat(Get(c, "auth", "expires_at").value) == Some(expiresAt)
    requires inputs.now as real > expiresAt
    ensures BrowseRun(c, f, inputs, noNotify) == BrowseRun(ForgetDefault(c), f, inputs, noNotify)
    ensures Get(BrowseRun(c, f, inputs, noNotify).file, "global", "default_device") == None
  {
    RefreshIgnoresDefault(c, f, inputs.now, inputs.response, expiresAt);
    var uri, id, secret, token := c["global"]["redirect_uri"], c["global"]["client_id"], c["global"]["secret"], c["auth"]["refresh_token"];
    AuthorizeForgetsDefaultDevice(c, uri, id, secret, RefreshToken, token, inputs.response, inputs.now);
  }

  lemma {:induction false} PlaylistDispatchWithoutNotify(account: Account, first: Choice, second: Choice, device: Device)
    ensures var on := PlaylistDispatch(account, first, second, device, false);
      PlaylistDispatch(account, first, second, device, true) == (on.0, WithoutNotify(on.1))
  {
    if first.key == KeyEnter {
      if Index(account.playlists, first.index).Some? {
        var p := Index(account.playlists, first.index).value;
        var listed := [RofiStatus(LoadingSongs), RofiClose, RofiSelect(SongPrompt, SongLabels(p.tracks))];
        SongDispatchWithoutNotify(p, second, device, account.isPlaying);
        WithoutNotifyAppend(listed, SongDispatch(p, second, device, account.isPlaying, false));
      }
    } else {
      NoNotifyOnlyDropsNotify(first.key, account.isPlaying);
    }
  }

  lemma {:induction false} SessionRunWithoutNotify(c: Config, account: Account, first: Choice, second: Choice)
    ensures var on := SessionRun(c, account, first, second, false);
      SessionRun(c, account, first, second, true) == (on.0, WithoutNotify(on.1))
  {
    if |account.devices| > 0 {
      var device := PickDevice(account.devices, Get(c, "global", "default_device"));
      var shown := [RofiStatus(LoadingPlaylists), RofiClose, RofiSelect(PlaylistPrompt, PlaylistLabels(account.playlists))];
      PlaylistDispatchWithoutNotify(account, first, second, device);
      WithoutNotifyAppend(shown, PlaylistDispatch(account, first, second, device, false).1);
    }
  }

  /**
   * `--no-notify` removes every notification of the normal run and changes
   * nothing else: not the outcome, not the order of the other calls, not the
   * configuration.
   */
  lemma NoNotifyOnlyDropsNotifications(c: Config, f: Config, inputs: Inputs)
    ensures var on := BrowseRun(c, f, inputs, false);
      BrowseRun(c, f, inputs, true) == on.(events := WithoutNotify(on.events))
    ensures Notify !in BrowseRun(c, f, inputs, true).events
  {
    if "auth" in c {
      var q := RefreshRun(c, f, inputs.now, inputs.response);
      assert Notify !in q.events;
      if !q.outcome.Crashed? && Login(q.config).Some? {
        var connect := Login(q.config).value;
        var s := SessionRun(q.config, inputs.account, inputs.first, inputs.second, false);
        SessionRunWithoutNotify(q.config, inputs.account, inputs.first, inputs.second);
        WithoutNotifyAppend([connect], s.1);
        WithoutNotifyAppend(q.events, [connect] + s.1);
      }
    }
  }

  /** Choosing a device with Enter stores its `str` and changes no other setting, in memory and on disk. */
  lemma ChosenDeviceIsStored(c: Config, f: Config, inputs: Inputs, d: Device)
    requires Login(c).Some?
    requires inputs.first.key == KeyEnter && Index(inputs.account.devices, inputs.first.index) == Some(d)
    ensures var r := DeviceRun(c, f, inputs);
      r.outcome == Finished && r.file == r.config &&
      Get(r.file, "global", "default_device") == Some(d.repr) &&
      (forall s, key :: (s, key) != ("global", "default_device") ==> Get(r.file, s, key) == Get(c, s, key))
  {
  }

  /** Every call of `t` that names a device names one whose `str` is `repr`. */
  predicate PlaysOnlyOn(t: seq<Event>, repr: string) {
    forall i :: 0 <= i < |t| && DeviceOf(t[i]).Some? ==> DeviceOf(t[i]).value.repr == repr
  }

  /**
   * A run whose token has not lapsed plays on a device carrying the stored
   * default whenever the account has one: every call that names a device names
   * such a device.
   */
  lemma StoredDevicePlaysUntilRefresh(c: Config, f: Config, inputs: Inputs, noNotify: bool, expiresAt: real, k: int)
    requires HoldsCredentials(c) && NotLapsed(c, inputs.now, expiresAt)
    requires 0 <= k < |inputs.account.devices| && Get(c, "global", "default_device") == Some(inputs.account.devices[k].repr)
    ensures PlaysOnlyOn(BrowseRun(c, f, inputs, noNotify).events, inputs.account.devices[k].repr)
  {
    var ds := inputs.account.devices;
    var name := ds[k].repr;
    var t := BrowseRun(c, f, inputs, noNotify).events;
    RunWithoutRefresh(c, f, inputs, noNotify, expiresAt);
    var s := SessionRun(c, inputs.account, inputs.first, inputs.second, noNotify);
    PickDeviceHonoursDefault(ds, name, k);
    assert t == [Login(c).value] + s.1;
    forall i | 0 <= i < |t| && DeviceOf(t[i]).Some? ensures DeviceOf(t[i]).value.repr == name {
      assert i >= 1 && t[i] == s.1[i - 1];
    }
  }

  /**
   * A run that refreshes the token plays on the account's first device, whatever
   * default was stored: `authorize` has rewritten `[global]` before the devices
   * are resolved.
   */
  lemma LapsedRunPlaysOnFirstDevice(c: Config, f: Config, inputs: Inputs, noNotify: bool, expiresAt: real)
    requires HoldsCredentials(c)
    requires Get(c, "auth", "expires_at").Some? && ParseFloat(Get(c, "auth", "expires_at").value) == Some(expiresAt)
    requires inputs.now as real > expiresAt && inputs.account.devices != []
    ensures AllOn(BrowseRun(c, f, inputs, noNotify).events, inputs.account.devices[0])
  {
    var ds := inputs.account.devices;
    RunWithRefresh(c, f, inputs, noNotify, expiresAt);
    var c2 := Refreshed(c, inputs);
    AuthorizeForgetsDefaultDevice(c, c["global"]["redirect_uri"], c["global"]["client_id"], c["global"]["secret"], RefreshToken,
                                  c["auth"]["refresh_token"], inputs.response, inputs.now);
    var s := SessionRun(c2, inputs.account, inputs.first, inputs.second, noNotify);
    assert PickDevice(ds, Get(c2, "global", "default_device")) == ds[0];
    assert Login(c2).Some?;
    AllOnAppend([Login(c2).value], s.1, ds[0]);
    AllOnAppend([RefreshRequest(c)], [Login(c2).value] + s.1, ds[0]);
  }

  /**
   * Choosing a device and then running normally before the token lapses plays on
   * a device with the chosen `str`, as long as the account still has one.
   */
  lemma ChosenDeviceIsRemembered(c: Config, f: Config, inputs: Inputs, d: Device, later: Inputs,
                                 noNotify: bool, expiresAt: real, k: int)
    requires HoldsCredentials(c)
    requires Get(c, "auth", "expires_at").Some? && ParseFloat(Get(c, "auth", "expires_at").value) == Some(expiresAt)
    requires inputs.first.key == KeyEnter && Index(inputs.account.devices, inputs.first.index) == Some(d)
    requires later.now as real <= expiresAt
    requires 0 <= k < |later.account.devices| && later.account.devices[k].repr == d.repr
    ensures var r := DeviceRun(c, f, inputs);
      PlaysOnlyOn(BrowseRun(Read(map[], r.file), r.file, later, noNotify).events, d.repr)
  {
    var r := DeviceRun(c, f, inputs);
    ChosenDeviceIsStored(c, f, inputs, d);
    ReadIntoEmpty(r.file);
    assert HoldsCredentials(r.file);
    assert Get(r.file, "auth", "expires_at") == Get(c, "auth", "expires_at");
    StoredDevicePlaysUntilRefresh(r.file, r.file, later, noNotify, expiresAt, k);
  }

  /**
   * After setup, the stored token is used as it is while the clock has not passed
   * the answer's lifetime less the margin, and is refreshed once it has, with the
   * refresh token the answer brought.
   */
  lemma SetupTokenLastsUntilExpiry(c: Config, f: Config, inputs: Inputs, later: Inputs, noNotify: bool)
    requires TokenCode(inputs.answers.callbackQuery).Some? && inputs.response.refreshToken.Some?
    ensures var a, r := inputs.answers, SetupRun(c, f, inputs);
      var b := BrowseRun(r.config, r.file, later, noNotify);
      var expiresAt := inputs.now + inputs.response.expiresIn - ExpiryMargin;
      r.outcome == Finished && |b.events| >= 1 &&
      (later.now <= expiresAt ==> b.events[0] == Connect(a.clientId, a.secret, inputs.response.accessToken)) &&
      (later.now > expiresAt ==>
        b.events[0] == PostToken(TokenPayload(a.redirectUri, a.clientId, a.secret, RefreshToken, inputs.response.refreshToken.value)))
  {
    var a, r := inputs.answers, SetupRun(c, f, inputs);
    var code := TokenCode(a.callbackQuery).value;
    ExpiryReadsBack(AuthorizationCode, code, inputs.response, inputs.now);
    var expiresAt := inputs.now + inputs.response.expiresIn - ExpiryMargin;
    var c2 := r.config;
    assert HoldsCredentials(c2);
    if later.now <= expiresAt {
      RunWithoutRefresh(c2, c2, later, noNotify, expiresAt as real);
    } else {
      RunWithRefresh(c2, c2, later, noNotify, expiresAt as real);
    }
  }
}
