// The /Player object of the MPRIS plugin (plugins/mpris/mpris_player.py):
// the org.freedesktop.MediaPlayer interface of MPRIS 1.0. Status, caps and
// position queries are functions of the player's state; commands are
// recorded as the calls they forward to the player or the queue. D-Bus
// transport, signals and the tag converter are not modelled.

module Mpris {
  import opened PyText
  import Playback

  /** The capability bits of MprisCaps. */
  const CanGoNext: bv32 := 1 << 0
  const CanGoPrev: bv32 := 1 << 1
  const CanPause: bv32 := 1 << 2
  const CanPlay: bv32 := 1 << 3
  const CanSeek: bv32 := 1 << 4
  const CanProvideMetadata: bv32 := 1 << 5
  const CanHasTracklist: bv32 := 1 << 6

  /** EXAILE_CAPS, which GetCaps returns: every capability and no other
      bit. */
  function GetCaps(): (r: bv32)
    ensures r == 127
    ensures r & CanGoNext != 0 && r & CanGoPrev != 0 && r & CanPause != 0 && r & CanPlay != 0
    ensures r & CanSeek != 0 && r & CanProvideMetadata != 0 && r & CanHasTracklist != 0
    ensures r & !127 == 0
  {
    CanGoNext | CanGoPrev | CanPause | CanPlay | CanSeek | CanProvideMetadata | CanHasTracklist
  }

  /** The shuffle and repeat flags of the queue's current playlist. */
  datatype Modes = Modes(randomEnabled: bool, repeatEnabled: bool)

  /** The (iiii) status struct. */
  datatype Status = Status(playing: int, random: int, goToNext: int, repeat: int)

  /** GetStatus: 0 playing, 1 paused, 2 stopped, playing checked first;
      then shuffle, a 0 that is always there (no single-track repeat), and
      repeat. None when the queue has no current playlist, where the
      attribute lookup raises. */
  function GetStatus(isPlaying: bool, isPaused: bool, playlist: Option<Modes>): (r: Option<Status>)
    ensures r.Some? <==> playlist.Some?
    ensures r.Some? ==> r.value.playing == (if isPlaying then 0 else if isPaused then 1 else 2)
    ensures r.Some? ==> (r.value.random == 1 <==> playlist.value.randomEnabled) && 0 <= r.value.random <= 1
    ensures r.Some? ==> r.value.goToNext == 0
    ensures r.Some? ==> (r.value.repeat == 1 <==> playlist.value.repeatEnabled) && 0 <= r.value.repeat <= 1
  {
    match playlist
    case None => None
    case Some(m) =>
      var playing := if isPlaying then 0 else if isPaused then 1 else 2;
      var random := if !m.randomEnabled then 0 else 1;
      var goToNext := 0;
      var repeat := if !m.repeatEnabled then 0 else 1;
      Some(Status(playing, random, goToNext, repeat))
  }

  /** For a player whose state is one of a track's three play states, the
      MPRIS playing field is the track's `playing` code shifted round by
      two: playing 1 gives 0, paused 2 gives 1, stopped 0 gives 2. */
  lemma StatusOfPlayState(p: Playback.PlayState, m: Modes)
    ensures GetStatus(p == Playback.Playing, p == Playback.Paused, Some(m)).value.playing
      == (Playback.Code(p) + 2) % 3
  {
  }

  /** The struct decodes back to the state it came from: the play state,
      and both playlist flags. */
  lemma StatusDecodes(isPlaying: bool, isPaused: bool, m: Modes)
    ensures var s := GetStatus(isPlaying, isPaused, Some(m)).value;
      (s.playing == 0 <==> isPlaying) && (s.playing == 1 <==> !isPlaying && isPaused)
      && GetStatus(s.playing == 0, s.playing == 1, Some(Modes(s.random == 1, s.repeat == 1))) == Some(s)
  {
  }

  /** PositionGet: the position in nanoseconds, divided by 1000000 (true
      division) and truncated toward zero by int(). */
  function PositionGet(nanoseconds: int): (ms: int)
    ensures nanoseconds >= 0 ==> ms * 1000000 <= nanoseconds < (ms + 1) * 1000000
    ensures nanoseconds < 0 ==> (ms - 1) * 1000000 < nanoseconds <= ms * 1000000
  {
    if nanoseconds >= 0 then nanoseconds / 1000000 else -((-nanoseconds) / 1000000)
  }

  /** A position reached by seeking to ms milliseconds reads back as ms,
      whatever sub-millisecond part the player adds; negative positions
      truncate toward zero, not down. */
  lemma PositionGetAfterSeek(ms: nat, extra: nat)
    requires extra < 1000000
    ensures PositionGet(ms * 1000000 + extra) == ms
    ensures PositionGet(-1500000) == -1
  {
  }

  /** GetMetadata: empty when there is no current track, else what the tag
      converter makes of it. */
  function GetMetadata(current: Option<nat>, convert: nat -> map<string, string>): (r: map<string, string>)
    ensures current.None? ==> r == map[]
    ensures current.Some? ==> r == convert(current.value)
  {
    match current
    case None => map[]
    case Some(t) => convert(t)
  }

  /** The calls the /Player methods forward. */
  datatype Command =
    | QueueNext | QueuePrev | TogglePause | StopPlayer
    | PlayTrack(track: Option<nat>)   // player.play(current): restart it
    | QueuePlay
    | SeekSeconds(seconds: real)
    | SetVolumeOption(volume: real)

  /** What PositionSet did: nothing (out of range), a seek, or an error
      when there is no current track. */
  datatype PositionOutcome = Ignored | Sought | NoCurrentTrack

  /** PositionSet's guard: a position from 0 to the track's length (in
      milliseconds) is accepted. */
  predicate PositionInRange(millisec: int, lengthSeconds: real)
  {
    !(millisec as real > lengthSeconds * 1000.0 || millisec < 0)
  }

  /** The /Player object; `issued` is the sequence of calls it has made on
      the player, the queue and the settings. */
  class MprisPlayer {
    var issued: seq<Command>

    constructor()
      ensures issued == []
    {
      issued := [];
    }

    method Next()
      modifies this
      ensures issued == old(issued) + [QueueNext]
    {
      issued := issued + [QueueNext];
    }

    method Prev()
      modifies this
      ensures issued == old(issued) + [QueuePrev]
    {
      issued := issued + [QueuePrev];
    }

    /** Pause toggles: pause when playing, resume when paused. */
    method Pause()
      modifies this
      ensures issued == old(issued) + [TogglePause]
    {
      issued := issued + [TogglePause];
    }

    method Stop()
      modifies this
      ensures issued == old(issued) + [StopPlayer]
    {
      issued := issued + [StopPlayer];
    }

    /** Play: while playing, the current track is played again from its
        start; otherwise the queue is asked to play. */
    method Play(isPlaying: bool, current: Option<nat>)
      modifies this
      ensures isPlaying ==> issued == old(issued) + [PlayTrack(current)]
      ensures !isPlaying ==> issued == old(issued) + [QueuePlay]
    {
      if isPlaying {
        issued := issued + [PlayTrack(current)];
      } else {
        issued := issued + [QueuePlay];
      }
    }

    /** Repeat is accepted and ignored. */
    method Repeat(repeat: bool)
      modifies this
      ensures issued == old(issued)
    {
    }

    /** VolumeSet: the range test has an empty body, so any volume, in
        range or not, is stored divided by 100. */
    method VolumeSet(volume: int)
      modifies this
      ensures issued == old(issued) + [SetVolumeOption(volume as real / 100.0)]
    {
      issued := issued + [SetVolumeOption(volume as real / 100.0)];
    }

    /** PositionSet: with a current track of the given length (seconds), a
        position in range is sought to in seconds (true division); any
        other position is ignored. Without a current track the length
        lookup raises. */
    method PositionSet(millisec: int, lengthSeconds: Option<real>) returns (o: PositionOutcome)
      modifies this
      ensures lengthSeconds.None? ==> o == NoCurrentTrack && issued == old(issued)
      ensures lengthSeconds.Some? && !PositionInRange(millisec, lengthSeconds.value) ==>
        o == Ignored && issued == old(issued)
      ensures lengthSeconds.Some? && PositionInRange(millisec, lengthSeconds.value) ==>
        o == Sought && issued == old(issued) + [SeekSeconds(millisec as real / 1000.0)]
    {
      if lengthSeconds.None? {
        return NoCurrentTrack;
      }
      if millisec as real > lengthSeconds.value * 1000.0 || millisec < 0 {
        return Ignored;
      }
      issued := issued + [SeekSeconds(millisec as real / 1000.0)];
      o := Sought;
    }
  }

  /** A seek is issued exactly for 0 <= millisec <= length * 1000, and it
      asks for a time within the track. */
  lemma PositionSetRange(millisec: int, lengthSeconds: real)
    ensures PositionInRange(millisec, lengthSeconds) <==> 0 <= millisec && millisec as real <= lengthSeconds * 1000.0
    ensures PositionInRange(millisec, lengthSeconds) ==> 0.0 <= millisec as real / 1000.0 <= lengthSeconds
  {
  }
}
