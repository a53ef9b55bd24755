/** `player_control`: what one of the three bound keys does to the player. */
module Controls {
  import opened Py
  import opened External

  /** The key codes `Rofi.select` reports: Enter, then the custom bindings key5 to key7. */
  const KeyEnter := 0
  const KeyPlayPause := 5  // Alt+Return
  const KeyPrevious := 6   // Alt+Left
  const KeyNext := 7       // Alt+Right

  /** The `notify_song` call made after a command unless notifications are switched off. */
  function Announce(noNotify: bool): seq<Event> {
    if noNotify then [] else [Notify]
  }

  /** The calls `player_control` makes, in order, for a key and the player's state. */
  function ControlTrace(key: int, isPlaying: bool, noNotify: bool): (t: seq<Event>)
    ensures forall i :: 0 <= i < |t| ==> (IsPlayerCall(t[i]) || t[i] == Notify) && DeviceOf(t[i]).None?
    ensures noNotify ==> Notify !in t
  {
    if key == KeyPlayPause then
      if isPlaying then [Pause] else [Resume] + Announce(noNotify)
    else if key == KeyPrevious then [Previous, Previous] + Announce(noNotify)
    else if key == KeyNext then [Next(None)] + Announce(noNotify)
    else []
  }

  /** Play/Pause pauses a playing player silently and otherwise resumes it and announces the track. */
  lemma PlayPauseToggles(isPlaying: bool, noNotify: bool)
    ensures isPlaying ==> ControlTrace(KeyPlayPause, isPlaying, noNotify) == [Pause]
    ensures !isPlaying ==> ControlTrace(KeyPlayPause, isPlaying, noNotify) == [Resume] + Announce(noNotify)
  {
  }

  /** Previous steps back twice (the first call only restarts the track); Next skips once. */
  lemma SkipsMoveTheQueue(isPlaying: bool, noNotify: bool)
    ensures ControlTrace(KeyPrevious, isPlaying, noNotify) == [Previous, Previous] + Announce(noNotify)
    ensures ControlTrace(KeyNext, isPlaying, noNotify) == [Next(None)] + Announce(noNotify)
  {
  }

  /** Any other key, Enter and a cancelled menu included, does nothing. */
  lemma OtherKeysDoNothing(key: int, isPlaying: bool, noNotify: bool)
    requires key != KeyPlayPause && key != KeyPrevious && key != KeyNext
    ensures ControlTrace(key, isPlaying, noNotify) == []
  {
  }

  /**
   * A notification is sent exactly when notifications are on and the command
   * started or changed a track, and then only as the last call.
   */
  lemma NotifiesAfterTrackChange(key: int, isPlaying: bool, noNotify: bool)
    ensures var t := ControlTrace(key, isPlaying, noNotify);
      (Notify in t <==> !noNotify && (key == KeyPrevious || key == KeyNext || (key == KeyPlayPause && !isPlaying))) &&
      forall i :: 0 <= i < |t| && t[i] == Notify ==> i == |t| - 1
  {
  }

  /** Switching notifications off removes the notification and leaves the player calls as they were. */
  lemma NoNotifyOnlyDropsNotify(key: int, isPlaying: bool)
    ensures ControlTrace(key, isPlaying, true) == WithoutNotify(ControlTrace(key, isPlaying, false))
  {
    var t := ControlTrace(key, isPlaying, false);
    if key == KeyPlayPause && !isPlaying {
      WithoutNotifyAppend([Resume], [Notify]);
    } else if key == KeyPrevious {
      WithoutNotifyAppend([Previous, Previous], [Notify]);
    } else if key == KeyNext {
      WithoutNotifyAppend([Next(None)], [Notify]);
    }
  }
}
