/**
 * What the launcher sees of the outside world (the streaming account, the token
 * endpoint's answer, the menu's answer) and the trace of what it does to it.
 */
module External {
  import opened Py

  /** A playback device: `repr` is `str(device)`, `name` is `device.name`. */
  datatype Device = Device(repr: string, name: string)

  datatype Track = Track(name: string, artist: string)

  /** A playlist together with the tracks `get_all_tracks` returns for it. */
  datatype Playlist = Playlist(name: string, tracks: seq<Track>)

  /** The account as one run finds it: its devices, its playlists and the player's `is_playing`. */
  datatype Account = Account(devices: seq<Device>, playlists: seq<Playlist>, isPlaying: bool)

  /** The JSON body of the token endpoint's answer. */
  datatype TokenResponse = TokenResponse(expiresIn: int, accessToken: string, refreshToken: Option<string>)

  /** What `Rofi.select` returns: the chosen row and the key that closed the menu (0 for Enter). */
  datatype Choice = Choice(index: int, key: int)

  /** One call into the outside world, in the order the script makes them. */
  datatype Event =
    | PostToken(payload: map<string, string>)                          // requests.post to the token endpoint
    | OpenAuthPage(clientId: string, redirectUri: string, scopes: seq<string>) // webbrowser.open(oauth2.url)
    | Connect(clientId: string, secret: string, accessToken: string)    // spotify.Client + user_from_token
    | RofiError(message: string)
    | RofiStatus(message: string)
    | RofiClose
    | RofiSelect(prompt: string, options: seq<string>)
    | Play(playlist: Playlist, device: Device, offset: Option<int>)
    | Shuffle(state: bool, device: Device)
    | Repeat(mode: string, device: Device)
    | Next(target: Option<Device>)
    | Previous
    | Pause
    | Resume
    | Notify                                                            // notify_song

  /** The calls that change what the remote player does. */
  predicate IsPlayerCall(e: Event) {
    e.Play? || e.Shuffle? || e.Repeat? || e.Next? || e.Previous? || e.Pause? || e.Resume?
  }

  predicate NoPlayerCalls(t: seq<Event>) {
    forall i :: 0 <= i < |t| ==> !IsPlayerCall(t[i])
  }

  /** The device a player call names explicitly; the others act on the active device. */
  function DeviceOf(e: Event): Option<Device> {
    match e
    case Play(_, device, _) => Some(device)
    case Shuffle(_, device) => Some(device)
    case Repeat(_, device) => Some(device)
    case Next(target) => target
    case _ => None
  }

  /** Every call in `t` that names a device names `d`. */
  predicate AllOn(t: seq<Event>, d: Device) {
    forall i :: 0 <= i < |t| && DeviceOf(t[i]).Some? ==> DeviceOf(t[i]).value == d
  }

  lemma NoPlayerCallsAppend(a: seq<Event>, b: seq<Event>)
    requires NoPlayerCalls(a) && NoPlayerCalls(b)
    ensures NoPlayerCalls(a + b)
  {
    forall i | 0 <= i < |a + b| ensures !IsPlayerCall((a + b)[i]) {
      if i >= |a| { assert (a + b)[i] == b[i - |a|]; }
    }
  }

  lemma AllOnAppend(a: seq<Event>, b: seq<Event>, d: Device)
    requires AllOn(a, d) && AllOn(b, d)
    ensures AllOn(a + b, d)
  {
    forall i | 0 <= i < |a + b| && DeviceOf((a + b)[i]).Some? ensures DeviceOf((a + b)[i]).value == d {
      if i >= |a| { assert (a + b)[i] == b[i - |a|]; }
    }
  }

  /** After a prefix without player calls, a trace that starts by connecting has every player call after a `Connect`. */
  lemma PlayerCallsAfterConnect(pre: seq<Event>, t: seq<Event>)
    requires NoPlayerCalls(pre) && (t == [] || t[0].Connect?)
    ensures var all := pre + t;
      forall i :: 0 <= i < |all| && IsPlayerCall(all[i]) ==> exists j :: 0 <= j < i && all[j].Connect?
  {
    var all := pre + t;
    forall i | 0 <= i < |all| && IsPlayerCall(all[i]) ensures exists j :: 0 <= j < i && all[j].Connect? {
      if i >= |pre| {
        assert all[|pre|] == t[0];
      }
    }
  }

  predicate NoTokenRequests(t: seq<Event>) {
    forall i :: 0 <= i < |t| ==> !t[i].PostToken?
  }

  /** Appending to a trace in two steps is appending their concatenation. */
  lemma AppendInTwoSteps(t: seq<Event>, a: seq<Event>, b: seq<Event>)
    ensures t + a + b == t + (a + b)
  {
  }

  /** The trace with every notification taken out and everything else kept in order. */
  function WithoutNotify(t: seq<Event>): (r: seq<Event>)
    ensures Notify !in r
    ensures |r| <= |t|
    ensures Notify !in t ==> r == t
    decreases |t|
  {
    if t == [] then []
    else (if t[0] == Notify then [] else [t[0]]) + WithoutNotify(t[1..])
  }

  lemma {:induction false} WithoutNotifyAppend(a: seq<Event>, b: seq<Event>)
    ensures WithoutNotify(a + b) == WithoutNotify(a) + WithoutNotify(b)
    decreases |a|
  {
    if a != [] {
      assert (a + b)[0] == a[0];
      assert (a + b)[1..] == a[1..] + b;
      WithoutNotifyAppend(a[1..], b);
    } else {
      assert a + b == b;
    }
  }
}
