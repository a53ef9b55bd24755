/**
 * The menus of the normal run and of the device selection: the option lists built
 * by appending one row per item, the choice of playback device, and what Enter on
 * the song screen plays.
 */
module Menus {
  import opened Py
  import opened External
  import opened Controls

  /** The synthetic first row of the song screen. */
  const ShuffleEntry := "Shuffle"

  /** A song row reads "title - artist". */
  function TrackLabel(t: Track): string {
    t.name + " - " + t.artist
  }

  function DeviceLabels(ds: seq<Device>): seq<string> {
    seq(|ds|, i requires 0 <= i < |ds| => ds[i].name)
  }

  function PlaylistLabels(ps: seq<Playlist>): seq<string> {
    seq(|ps|, i requires 0 <= i < |ps| => ps[i].name)
  }

  function SongLabels(ts: seq<Track>): seq<string> {
    [ShuffleEntry] + seq(|ts|, i requires 0 <= i < |ts| => TrackLabel(ts[i]))
  }

  /** The device menu lists every device by its name, in the account's order. */
  method DeviceOptions(devices: seq<Device>) returns (options: seq<string>)
    ensures |options| == |devices|
    ensures forall i :: 0 <= i < |devices| ==> options[i] == devices[i].name
    ensures options == DeviceLabels(devices)
  {
    options := [];
    for i := 0 to |devices|
      invariant |options| == i
      invariant forall j :: 0 <= j < i ==> options[j] == devices[j].name
    {
      options := options + [devices[i].name];
    }
  }

  /** The playlist menu lists every playlist by its name, in the account's order. */
  method PlaylistOptions(playlists: seq<Playlist>) returns (options: seq<string>)
    ensures |options| == |playlists|
    ensures forall i :: 0 <= i < |playlists| ==> options[i] == playlists[i].name
    ensures options == PlaylistLabels(playlists)
  {
    options := [];
    for i := 0 to |playlists|
      invariant |options| == i
      invariant forall j :: 0 <= j < i ==> options[j] == playlists[j].name
    {
      options := options + [playlists[i].name];
    }
  }

  /** The song menu is "Shuffle" followed by one row per track: row i + 1 shows track i. */
  method SongOptions(songs: seq<Track>) returns (options: seq<string>)
    ensures |options| == |songs| + 1
    ensures options[0] == ShuffleEntry
    ensures forall i :: 0 <= i < |songs| ==> options[i + 1] == TrackLabel(songs[i])
    ensures options == SongLabels(songs)
  {
    options := [ShuffleEntry];
    for i := 0 to |songs|
      invariant |options| == i + 1
      invariant options[0] == ShuffleEntry
      invariant forall j :: 0 <= j < i ==> options[j + 1] == TrackLabel(songs[j])
    {
      options := options + [songs[i].name + " - " + songs[i].artist];
    }
  }

  /** The last device in `ds` whose `str` is `name`, or `fallback` when there is none. */
  function LastNamed(ds: seq<Device>, name: string, fallback: Device): (d: Device)
    ensures d == fallback || (d in ds && d.repr == name)
    decreases |ds|
  {
    if ds == [] then fallback
    else if ds[|ds| - 1].repr == name then ds[|ds| - 1]
    else
      var front := ds[..|ds| - 1];
      var d := LastNamed(front, name, fallback);
      assert d in front ==> d in ds by {
        if d in front {
          var j :| 0 <= j < |front| && front[j] == d;
          assert ds[j] == d;
        }
      }
      d
  }

  /** The target device: the first one, overridden by the last one matching the stored default. */
  function PickDevice(ds: seq<Device>, defaultDevice: Option<string>): (d: Device)
    requires |ds| > 0
    ensures d in ds
    ensures d == ds[0] || (defaultDevice.Some? && d.repr == defaultDevice.value)
  {
    match defaultDevice
    case None => ds[0]
    case Some(name) => LastNamed(ds, name, ds[0])
  }

  lemma {:induction false} LastNamedFindsLastMatch(ds: seq<Device>, name: string, fallback: Device, k: int)
    requires 0 <= k < |ds| && ds[k].repr == name
    requires forall j :: k < j < |ds| ==> ds[j].repr != name
    ensures LastNamed(ds, name, fallback) == ds[k]
    decreases |ds|
  {
    if k < |ds| - 1 {
      var front := ds[..|ds| - 1];
      assert front[k] == ds[k];
      forall j | k < j < |front| ensures front[j].repr != name {
        assert front[j] == ds[j];
      }
      LastNamedFindsLastMatch(front, name, fallback, k);
    }
  }

  lemma {:induction false} LastNamedWithoutMatch(ds: seq<Device>, name: string, fallback: Device)
    requires forall j :: 0 <= j < |ds| ==> ds[j].repr != name
    ensures LastNamed(ds, name, fallback) == fallback
    decreases |ds|
  {
    if ds != [] {
      var front := ds[..|ds| - 1];
      forall j | 0 <= j < |front| ensures front[j].repr != name {
        assert front[j] == ds[j];
      }
      LastNamedWithoutMatch(front, name, fallback);
    }
  }

  /**
   * With a stored default that some device carries, the target is the last such
   * device; with none carrying it, or no default stored, it is the first device.
   */
  lemma PickDeviceMeaning(ds: seq<Device>, defaultDevice: Option<string>, k: int)
    requires |ds| > 0 && 0 <= k < |ds|
    ensures defaultDevice.None? ==> PickDevice(ds, defaultDevice) == ds[0]
    ensures defaultDevice.Some? && ds[k].repr == defaultDevice.value &&
            (forall j :: k < j < |ds| ==> ds[j].repr != defaultDevice.value) ==>
            PickDevice(ds, defaultDevice) == ds[k]
    ensures defaultDevice.Some? && (forall j :: 0 <= j < |ds| ==> ds[j].repr != defaultDevice.value) ==>
            PickDevice(ds, defaultDevice) == ds[0]
  {
    if defaultDevice.Some? {
      var name := defaultDevice.value;
      if ds[k].repr == name && forall j :: k < j < |ds| ==> ds[j].repr != name {
        LastNamedFindsLastMatch(ds, name, ds[0], k);
      }
      if forall j :: 0 <= j < |ds| ==> ds[j].repr != name {
        LastNamedWithoutMatch(ds, name, ds[0]);
      }
    }
  }

  /** A device whose `str` is the stored default is always honoured: the target carries that name. */
  lemma {:induction false} PickDeviceHonoursDefault(ds: seq<Device>, name: string, k: int)
    requires 0 <= k < |ds| && ds[k].repr == name
    ensures PickDevice(ds, Some(name)).repr == name
    decreases |ds|
  {
    if ds[|ds| - 1].repr != name {
      var front := ds[..|ds| - 1];
      assert front[k] == ds[k];
      assert front[0] == ds[0];
      PickDeviceHonoursDefault(front, name, k);
    }
  }

  /** The device loop: start from the first device and take every one whose `str` matches. */
  method ResolveDevice(devices: seq<Device>, defaultDevice: Option<string>) returns (device: Device)
    requires |devices| > 0
    ensures device == PickDevice(devices, defaultDevice)
  {
    device := devices[0];
    if defaultDevice.Some? {
      var i := 0;
      while i < |devices|
        invariant 0 <= i <= |devices|
        invariant device == LastNamed(devices[..i], defaultDevice.value, devices[0])
      {
        assert devices[..i + 1][..i] == devices[..i];
        if devices[i].repr == defaultDevice.value {
          device := devices[i];
        }
        i := i + 1;
      }
      assert devices[..i] == devices;
    }
  }

  /** Enter, another key or a cancelled menu on the song screen of playlist `p`. */
  function SongDispatch(p: Playlist, choice: Choice, device: Device, isPlaying: bool, noNotify: bool): (t: seq<Event>)
    ensures forall i :: 0 <= i < |t| ==> IsPlayerCall(t[i]) || t[i] == Notify
    ensures AllOn(t, device)
    ensures noNotify ==> Notify !in t
  {
    if choice.key == KeyEnter then
      if choice.index == 0 then
        [Play(p, device, None), Shuffle(true, device), Repeat("context", device), Next(Some(device))] + Announce(noNotify)
      else
        [Play(p, device, Some(choice.index - 1))] + Announce(noNotify)
    else ControlTrace(choice.key, isPlaying, noNotify)
  }

  /** The "Shuffle" row plays the whole playlist shuffled, repeating, from a skipped-to track. */
  lemma ShuffleRowShufflesPlaylist(p: Playlist, device: Device, isPlaying: bool, noNotify: bool)
    ensures SongLabels(p.tracks)[0] == ShuffleEntry
    ensures SongDispatch(p, Choice(0, KeyEnter), device, isPlaying, noNotify) ==
      [Play(p, device, None), Shuffle(true, device), Repeat("context", device), Next(Some(device))] + Announce(noNotify)
  {
  }

  /** Enter on a song row starts the playlist at exactly the track that row shows. */
  lemma SongRowPlaysThatTrack(p: Playlist, row: int, device: Device, isPlaying: bool, noNotify: bool)
    requires 1 <= row < |SongLabels(p.tracks)|
    ensures var t := SongDispatch(p, Choice(row, KeyEnter), device, isPlaying, noNotify);
      t == [Play(p, device, Some(row - 1))] + Announce(noNotify) &&
      0 <= row - 1 < |p.tracks| && SongLabels(p.tracks)[row] == TrackLabel(p.tracks[row - 1])
  {
  }

  /** Switching notifications off on the song screen removes the notification and nothing else. */
  lemma SongDispatchWithoutNotify(p: Playlist, choice: Choice, device: Device, isPlaying: bool)
    ensures SongDispatch(p, choice, device, isPlaying, true) == WithoutNotify(SongDispatch(p, choice, device, isPlaying, false))
  {
    if choice.key == KeyEnter {
      var calls := if choice.index == 0
        then [Play(p, device, None), Shuffle(true, device), Repeat("context", device), Next(Some(device))]
        else [Play(p, device, Some(choice.index - 1))];
      WithoutNotifyAppend(calls, [Notify]);
      assert WithoutNotify([Notify]) == [];
      assert calls + [] == calls;
    } else {
      NoNotifyOnlyDropsNotify(choice.key, isPlaying);
    }
  }
}
