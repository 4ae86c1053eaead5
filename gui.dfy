// The small selection rules of the main window (xlgui/main.py): the
// progress bar's seek handlers and timer, the stop-after-this-track toggle
// and the dynamic-fill request count. GTK widgets are reduced to the
// fields the handlers change.

module Gui {
  import opened PyText

  /** The fraction of the bar a pointer position stands for, clamped to
      [0, 1]. */
  function Clamp(v: real): (r: real)
    ensures 0.0 <= r <= 1.0
    ensures 0.0 <= v <= 1.0 ==> r == v
    ensures v < 0.0 ==> r == 0.0
    ensures v > 1.0 ==> r == 1.0
  {
    if v < 0.0 then 0.0 else if v > 1.0 then 1.0 else v
  }

  /** Clamping keeps the order of pointer positions and is idempotent. */
  lemma ClampMonotone(a: real, b: real)
    requires a <= b
    ensures Clamp(a) <= Clamp(b)
    ensures Clamp(Clamp(a)) == Clamp(a)
  {
  }

  /** What the bar knows of the player's current track: whether it is a
      local file, and its duration in seconds. */
  datatype Current = Current(local: bool, duration: int)

  /** The outcome of a pointer handler: ZeroWidth when the bar has no width
      yet (the division raises), else Done. */
  datatype Outcome = ZeroWidth | Done

  /** PlaybackProgressBar: the seeking flag, the fraction shown, the
      update timer's id, and the seeks sent to the player (in seconds). */
  class ProgressBar {
    var seeking: bool
    var fraction: real
    var timerId: Option<nat>
    var seeks: seq<real>

    constructor()
      ensures !seeking && fraction == 0.0 && timerId == None && seeks == []
    {
      seeking := false;
      fraction := 0.0;
      timerId := None;
      seeks := [];
    }

    /** seek_begin: a drag starts. */
    method SeekBegin()
      modifies this
      ensures seeking && fraction == old(fraction) && timerId == old(timerId) && seeks == old(seeks)
    {
      seeking := true;
    }

    /** seek_end: the fraction is computed (and clamped) before the track is
      looked at; with no current track, or one that is not local, nothing
      else happens and the drag stays open. Otherwise the player seeks to
      that fraction of the duration, the drag ends and the bar shows the
      fraction. */
    method SeekEnd(mouseX: real, width: real, current: Option<Current>) returns (o: Outcome)
      modifies this
      ensures o == ZeroWidth <==> width == 0.0
      ensures o == ZeroWidth || current.None? || !current.value.local ==>
        seeking == old(seeking) && fraction == old(fraction) && seeks == old(seeks)
      ensures o == Done && current.Some? && current.value.local ==>
        !seeking && fraction == Clamp(mouseX / width)
        && seeks == old(seeks) + [Clamp(mouseX / width) * (current.value.duration as real)]
      ensures timerId == old(timerId)
    {
      if width == 0.0 {
        return ZeroWidth;
      }
      var value := mouseX / width;
      if value < 0.0 {
        value := 0.0;
      }
      if value > 1.0 {
        value := 1.0;
      }
      o := Done;
      if current.None? || !current.value.local {
        return;
      }
      assert value == Clamp(mouseX / width);
      var seconds := value * (current.value.duration as real);
      seeks := seeks + [seconds];
      seeking := false;
      fraction := value;
      assert seeks == old(seeks) + [seconds];
      assert seconds == Clamp(mouseX / width) * (current.value.duration as real);
    }

    /** seek_motion_notify: the track is checked first, so without a local
      current track nothing happens even for a bar of no width; otherwise
      the bar shows the clamped fraction. No seek is sent. */
    method SeekMotion(mouseX: real, width: real, current: Option<Current>) returns (o: Outcome)
      modifies this
      ensures current.None? || !current.value.local ==> o == Done && fraction == old(fraction)
      ensures current.Some? && current.value.local ==> (o == ZeroWidth <==> width == 0.0)
      ensures current.Some? && current.value.local && o == Done ==> fraction == Clamp(mouseX / width)
      ensures o == ZeroWidth ==> fraction == old(fraction)
      ensures seeking == old(seeking) && seeks == old(seeks) && timerId == old(timerId)
    {
      if current.None? || !current.value.local {
        return Done;
      }
      if width == 0.0 {
        return ZeroWidth;
      }
      var value := mouseX / width;
      if value < 0.0 {
        value := 0.0;
      }
      if value > 1.0 {
        value := 1.0;
      }
      fraction := value;
      o := Done;
    }

    /** playback_start: a one-second timer is started (its id is given). */
    method PlaybackStart(id: nat)
      modifies this
      ensures timerId == Some(id)
      ensures seeking == old(seeking) && fraction == old(fraction) && seeks == old(seeks)
    {
      timerId := Some(id);
    }

    /** playback_end: a running timer is removed (its id returned) and the
      bar emptied. */
    method PlaybackEnd() returns (removed: Option<nat>)
      modifies this
      ensures removed == old(timerId) && timerId == None && fraction == 0.0
      ensures seeking == old(seeking) && seeks == old(seeks)
    {
      removed := timerId;
      timerId := None;
      fraction := 0.0;
    }
  }

  /** on_spat_clicked's rule: with a selection, its first track becomes the
      stop track, or stops being it if it already was. */
  function SpatToggle(stopTrack: Option<nat>, selected: seq<nat>): (r: Option<nat>)
    ensures selected == [] ==> r == stopTrack
    ensures selected != [] ==> (r == None <==> stopTrack == Some(selected[0]))
    ensures selected != [] && r.Some? ==> r == Some(selected[0])
  {
    if selected == [] then stopTrack
    else if Some(selected[0]) == stopTrack then None
    else Some(selected[0])
  }

  /** Choosing the same selection twice restores the stop track, except that
      a different stop track is replaced and then cleared. */
  lemma SpatTwice(stopTrack: Option<nat>, selected: seq<nat>)
    requires selected != []
    ensures SpatToggle(SpatToggle(stopTrack, selected), selected) ==
      (if stopTrack.Some? && stopTrack.value != selected[0] then None else stopTrack)
  {
  }

  /** The queue's stop_track, as on_spat_clicked changes it. */
  class PlayQueue {
    var stopTrack: Option<nat>

    constructor()
      ensures stopTrack == None
    {
      stopTrack := None;
    }

    method OnSpatClicked(selected: seq<nat>)
      modifies this
      ensures stopTrack == SpatToggle(old(stopTrack), selected)
    {
      if selected == [] {
        return;
      }
      var track := selected[0];
      if Some(track) == stopTrack {
        stopTrack := None;
      } else {
        stopTrack := Some(track);
      }
    }
  }

  /** _get_dynamic_tracks: how many tracks to ask the providers for. None
      when there is no selected playlist or no provider; otherwise enough
      to bring the playlist to 5 tracks, and 1 when it already has 5. */
  function DynamicCount(hasPlaylist: bool, hasProviders: bool, length: nat): (r: Option<nat>)
    ensures r.Some? <==> hasPlaylist && hasProviders
    ensures r.Some? ==> r.value >= 1 && length + r.value >= 5
    ensures r.Some? && length < 5 ==> length + r.value == 5
    ensures r.Some? && length >= 5 ==> r.value == 1
  {
    if !hasPlaylist || !hasProviders then None
    else
      var number := 5 - length;
      if number <= 0 then Some(1) else Some(number)
  }
}
