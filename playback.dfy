// The playback state machine of Track (xl/media.py) as pure functions:
// the `playing` code, what play/pause/stop/submit_to_scrobbler do to the
// control fields, how on_message reacts, and which URI play hands to
// GStreamer. The Media module's Track class is proved to follow these.

module Playback {
  import opened PyText
  import opened TrackValues
  import Formats

  /** The `playing` field: 0 stopped, 1 playing, 2 paused. */
  datatype PlayState = Stopped | Playing | Paused

  function Code(p: PlayState): (n: int)
    ensures 0 <= n <= 2
    ensures p == Playing <==> n == 1
    ensures p == Paused <==> n == 2
  {
    match p
    case Stopped => 0
    case Playing => 1
    case Paused => 2
  }

  /** The fields play, pause, stop and submit_to_scrobbler change: the play
      state, how many bus connections the track holds, and whether a
      scrobble is in flight. */
  datatype Control = Control(playing: PlayState, connections: nat, submitting: bool)

  /** `eligible` is what submit_to_scrobbler finds besides its own flags:
      a non-empty title and artist and a Last.fm session. */
  datatype Action = Play | Pause | Stop | Submit(eligible: bool)

  /** submit_to_scrobbler's guard: nothing while a submission is in flight,
      for a 'stream' type track, for an empty title or artist, or without a
      session. */
  predicate ScrobbleAllowed(submitting: bool, k: Kind, title: string, artist: string, hasSession: bool)
  {
    !submitting && TypeName(k) != "stream" && title != "" && artist != "" && hasSession
  }

  /** One action: the new control fields and whether a submission thread
      was started. Resuming from pause keeps the connections and the flag;
      any other play adds one connection and clears the flag; stop drops
      all connections and clears the flag only for type 'stream'. */
  function Apply(c: Control, a: Action, k: Kind): (r: (Control, bool))
    ensures r.1 ==> a.Submit? && r.0.submitting && !c.submitting
    ensures a.Play? ==> r.0.playing == Playing
    ensures a.Pause? ==> r.0.playing == Paused
    ensures a.Stop? ==> r.0.playing == Stopped && r.0.connections == 0
  {
    match a
    case Play =>
      if c.playing == Paused then (c.(playing := Playing), false)
      else (Control(Playing, c.connections + 1, false), false)
    case Pause => (c.(playing := Paused), false)
    case Stop =>
      (Control(Stopped, 0, if TypeName(k) == "stream" then false else c.submitting), false)
    case Submit(eligible) =>
      var go := !c.submitting && TypeName(k) != "stream" && eligible;
      (c.(submitting := c.submitting || go), go)
  }

  /** A run of actions: the final control fields and how many submissions
      were started. */
  function Run(c: Control, trace: seq<Action>, k: Kind): (Control, nat)
    decreases |trace|
  {
    if trace == [] then (c, 0)
    else
      var (c', spawned) := Apply(c, trace[0], k);
      var (last, n) := Run(c', trace[1..], k);
      (last, n + if spawned then 1 else 0)
  }

  /** A run in which every play is a resume from pause: one playback
      session, which no play restarts. */
  predicate OneSession(c: Control, trace: seq<Action>, k: Kind)
    decreases |trace|
  {
    trace == [] ||
    ((trace[0].Play? ==> c.playing == Paused) && OneSession(Apply(c, trace[0], k).0, trace[1..], k))
  }

  /** At most one scrobble is started per playback session, and none when
      one was already in flight: pausing, resuming and stopping do not
      clear the flag of a non-stream track. */
  lemma {:induction false} OneScrobblePerSession(c: Control, trace: seq<Action>, k: Kind)
    requires OneSession(c, trace, k)
    ensures Run(c, trace, k).1 <= (if c.submitting then 0 else 1)
    decreases |trace|
  {
    if trace != [] {
      var (c', spawned) := Apply(c, trace[0], k);
      if TypeName(k) == "stream" {
        StreamNeverScrobbles(c', trace[1..], k);
      } else {
        assert c.submitting ==> c'.submitting;
        OneScrobblePerSession(c', trace[1..], k);
      }
    }
  }

  /** A 'stream' type track never starts a scrobble. */
  lemma {:induction false} StreamNeverScrobbles(c: Control, trace: seq<Action>, k: Kind)
    requires TypeName(k) == "stream"
    ensures Run(c, trace, k).1 == 0
    decreases |trace|
  {
    if trace != [] {
      StreamNeverScrobbles(Apply(c, trace[0], k).0, trace[1..], k);
    }
  }

  lemma {:induction false} RunAppend(c: Control, trace: seq<Action>, a: Action, k: Kind)
    ensures Run(c, trace + [a], k).0 == Apply(Run(c, trace, k).0, a, k).0
    decreases |trace|
  {
    if trace == [] {
      assert trace + [a] == [a];
    } else {
      assert (trace + [a])[1..] == trace[1..] + [a];
      RunAppend(Apply(c, trace[0], k).0, trace[1..], a, k);
    }
  }

  /** Whatever happened before, stop leaves the track stopped with no bus
      connection, and a later play (which is then not a resume) opens
      exactly one connection and clears the scrobble flag. */
  lemma StopThenPlay(c: Control, trace: seq<Action>, k: Kind)
    ensures Run(c, trace + [Stop], k).0.playing == Stopped
    ensures Run(c, trace + [Stop], k).0.connections == 0
    ensures Run(c, trace + [Stop, Play], k).0 == Control(Playing, 1, false)
  {
    RunAppend(c, trace, Stop, k);
    RunAppend(c, trace + [Stop], Play, k);
    assert trace + [Stop] + [Play] == trace + [Stop, Play];
  }

  /** Pausing and resuming returns to playing with the same connections and
      the same scrobble flag. */
  lemma PauseResume(c: Control, k: Kind)
    ensures Run(c, [Pause, Play], k).0 == c.(playing := Playing)
  {
    assert [Pause, Play][1..] == [Play];
  }

  /** The bus messages on_message distinguishes. */
  datatype Message = TagMessage | EosMessage | OtherMessage

  /** What on_message does: pass the tags to found_tag_cb, schedule the
      stored continuation, or nothing. */
  datatype Reaction = FoundTags | ScheduleNext(continuation: nat) | Ignore

  /** Track.on_message: a tag message reaches found_tag_cb only for stream
      kinds and the generic GStreamer track; end of stream schedules the
      continuation unless the message came while reading tags, the track is
      paused, or there is no continuation. */
  function OnMessage(m: Message, readingTag: bool, k: Kind, p: PlayState, next: Option<nat>): (r: Reaction)
    ensures r == FoundTags <==> m == TagMessage && (IsStreamTrack(k) || k == Tagged(Formats.GSTTrack))
    ensures r.ScheduleNext? <==> m == EosMessage && !readingTag && p != Paused && next.Some?
    ensures r.ScheduleNext? ==> Some(r.continuation) == next
  {
    match m
    case TagMessage => if IsStreamTrack(k) || k == Tagged(Formats.GSTTrack) then FoundTags else Ignore
    case EosMessage =>
      if !readingTag && p != Paused then
        match next
        case Some(f) => ScheduleNext(f)
        case None => Ignore
      else Ignore
    case OtherMessage => Ignore
  }

  /** Python truthiness of stream_loc: None and "" are false. */
  predicate Truthy(s: Option<string>)
  {
    s.Some? && s.value != ""
  }

  /** The URI play gives the pipeline: "cdda://" and the location for a CD
      track; "file://" and the quoted location for a non-stream track; for a
      stream kind the stream_loc when set, else the location, unquoted and
      prefixed with "file://" only for a podcast (type 'podcast'). */
  function PlayUri(k: Kind, loc: string, streamLoc: Option<string>, quote: string -> string): (r: string)
    ensures k == CD ==> r == "cdda://" + loc
    ensures k != CD && !IsStreamTrack(k) ==> r == "file://" + quote(loc)
    ensures (k == Stream || k == Radio) ==> r == (if Truthy(streamLoc) then streamLoc.value else loc)
    ensures k == Podcast ==> r == "file://" + (if Truthy(streamLoc) then streamLoc.value else loc)
  {
    if k == CD then "cdda://" + loc
    else
      var prefix := if TypeName(k) != "stream" then "file://" else "";
      var l := if !IsStreamTrack(k) then quote(loc) else if Truthy(streamLoc) then streamLoc.value else loc;
      prefix + l
  }
}
