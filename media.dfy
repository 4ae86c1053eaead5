// The stateful part of xl/media.py: the shared GStreamer playbin and its
// bus (Engine), and a Track object whose play, pause, stop, seek,
// submit_to_scrobbler, set_info and found_tag_cb update its fields. Each
// method is tied to the Playback state machine or to a tag-update function
// whose properties are proved below.

module Media {
  import opened PyText
  import opened TrackValues
  import opened Playback
  import Formats
  import Pls

  /** The pipeline states the code asks for. */
  datatype PipelineState = GstNull | GstReady | GstPaused | GstPlaying

  /** One nanosecond count per second (gst.SECOND). */
  const Second: int := 1000000000

  /** The module-level playbin `player` and its bus: the URI property, the
      requested state, the handler ids currently connected to the bus, the
      next id the bus hands out, and the position of the last seek event. */
  class Engine {
    var uri: string
    var state: PipelineState
    var handlers: set<nat>
    var nextHandle: nat
    var seekTarget: Option<real>
    var volume: real

    /** Every connected handler id was handed out earlier. */
    ghost predicate Valid()
      reads this`handlers, this`nextHandle
    {
      forall h :: h in handlers ==> h < nextHandle
    }

    constructor()
      ensures Valid() && handlers == {} && state == GstNull && uri == "" && seekTarget == None && volume == 1.0
    {
      uri := "";
      state := GstNull;
      handlers := {};
      nextHandle := 0;
      seekTarget := None;
      volume := 1.0;
    }

    /** set_volume: nothing on a platform whose name contains "win";
        otherwise the value is stored as given, with no clamping to the
        documented 0 to 1.5. */
    method SetVolume(platform: string, vol: real)
      modifies this`volume
      ensures volume == (if Occurs(platform, "win") then old(volume) else vol)
    {
      if Occurs(platform, "win") {
        return;
      }
      volume := vol;
    }

    /** bus.connect: a new handler id, not connected before. */
    method Connect() returns (h: nat)
      requires Valid()
      modifies this`handlers, this`nextHandle
      ensures Valid()
      ensures h == old(nextHandle) && h !in old(handlers)
      ensures handlers == old(handlers) + {h} && nextHandle == h + 1
    {
      h := nextHandle;
      handlers := handlers + {h};
      nextHandle := nextHandle + 1;
    }

    /** bus.disconnect. */
    method Disconnect(h: nat)
      modifies this`handlers
      ensures handlers == old(handlers) - {h}
    {
      handlers := handlers - {h};
    }
  }

  /** The tag fields of a track: the text ones play and the scrobbler look
      at, and the stored values (disc id, genre, the `_track`, `_len`,
      `_bitrate` and year attributes) as set_info and found_tag_cb leave
      them. */
  datatype TagInfo = TagInfo(
    title: string, artist: string, album: string,
    genre: PyValue, discId: PyValue, track: PyValue, length: PyValue,
    bitrate: PyValue, year: PyValue)

  /** One entry of a GStreamer tag list: the tag's nick and its value. */
  datatype FoundTag = FoundTag(nick: string, value: PyValue)

  /** One tag as found_tag_cb handles it; None when RadioTrack's int() of a
      bitrate raises, which ends the callback. Track.found_tag_cb serves
      stream and GStreamer tracks: artist is taken only by a GStreamer
      track, comment as artist only by a stream. PodcastTrack ignores all
      tags. */
  function TagStep(t: TagInfo, f: FoundTag, k: Kind): (r: Option<TagInfo>)
    ensures r.None? ==> k == Radio && f.nick == "bitrate" && IntOf(f.value).None?
    ensures k == Podcast ==> r == Some(t)
    ensures r.Some? && f.nick != "title" ==> r.value.title == t.title
  {
    if k == Podcast then Some(t)
    else if k == Radio then
      if f.nick == "bitrate" then
        match IntOf(f.value)
        case Some(n) => Some(t.(bitrate := PyStr(RadioSetBitrate(PyInt(n / 1000)))))
        case None => None
      else if f.nick == "comment" then Some(t.(artist := Str(f.value)))
      else if f.nick == "title" then Some(t.(title := Str(f.value)))
      else Some(t)
    else if f.nick == "genre" then Some(t.(genre := f.value))
    else if f.nick == "title" then Some(t.(title := Str(f.value)))
    else if f.nick == "bitrate" then Some(t.(bitrate := f.value))
    else if f.nick == "artist" && k == Tagged(Formats.GSTTrack) then Some(t.(artist := Str(f.value)))
    else if f.nick == "comment" && IsStreamTrack(k) then Some(t.(artist := Str(f.value)))
    else if f.nick == "album" then Some(t.(album := Str(f.value)))
    else if f.nick == "track number" then Some(t.(track := f.value))
    else Some(t)
  }

  /** The tags in the order the callback visits them: the fields after the
      last tag handled, and whether the callback raised. */
  function ApplyTags(t: TagInfo, found: seq<FoundTag>, k: Kind): (TagInfo, bool)
    decreases |found|
  {
    if found == [] then (t, false)
    else
      match TagStep(t, found[0], k)
      case None => (t, true)
      case Some(t') => ApplyTags(t', found[1..], k)
  }

  /** found_tag_cb as a whole: a plain stream track finally takes its
      location as album. */
  function FoundTagResult(t: TagInfo, found: seq<FoundTag>, k: Kind, loc: string): (TagInfo, bool)
  {
    var (t', raised) := ApplyTags(t, found, k);
    (if k == Stream then t'.(album := loc) else t', raised)
  }

  lemma {:induction false} ApplyTagsAppend(t: TagInfo, a: seq<FoundTag>, b: seq<FoundTag>, k: Kind)
    ensures var (ta, ra) := ApplyTags(t, a, k);
      ApplyTags(t, a + b, k) == if ra then (ta, ra) else ApplyTags(ta, b, k)
    decreases |a|
  {
    if a == [] {
      assert a + b == b;
    } else {
      assert (a + b)[0] == a[0];
      assert (a + b)[1..] == a[1..] + b;
      match TagStep(t, a[0], k)
      case None =>
      case Some(t') => ApplyTagsAppend(t', a[1..], b, k);
    }
  }

  /** Tags other than title leave the title alone. */
  lemma {:induction false} NoTitleKeepsTitle(t: TagInfo, found: seq<FoundTag>, k: Kind)
    requires forall i :: 0 <= i < |found| ==> found[i].nick != "title"
    ensures ApplyTags(t, found, k).0.title == t.title
    decreases |found|
  {
    if found != [] {
      match TagStep(t, found[0], k)
      case None =>
      case Some(t') => NoTitleKeepsTitle(t', found[1..], k);
    }
  }

  /** When a tag list carries several titles and the callback does not
      raise, the track ends up with the last one (a podcast keeps its
      own). */
  lemma LastTitleWins(t: TagInfo, pre: seq<FoundTag>, v: PyValue, post: seq<FoundTag>, k: Kind, loc: string)
    requires k != Podcast
    requires forall i :: 0 <= i < |post| ==> post[i].nick != "title"
    requires !FoundTagResult(t, pre + [FoundTag("title", v)] + post, k, loc).1
    ensures FoundTagResult(t, pre + [FoundTag("title", v)] + post, k, loc).0.title == Str(v)
  {
    var found := pre + [FoundTag("title", v)] + post;
    assert found == pre + ([FoundTag("title", v)] + post);
    ApplyTagsAppend(t, pre, [FoundTag("title", v)] + post, k);
    var (tp, rp) := ApplyTags(t, pre, k);
    if !rp {
      assert ([FoundTag("title", v)] + post)[1..] == post;
      NoTitleKeepsTitle(tp.(title := Str(v)), post, k);
    }
  }

  /** A radio track's callback does not raise when every bitrate tag it
      reaches is a number. */
  lemma {:induction false} RadioRaisesOnlyOnBadBitrate(t: TagInfo, found: seq<FoundTag>)
    requires forall i :: 0 <= i < |found| && found[i].nick == "bitrate" ==> IntOf(found[i].value).Some?
    ensures !ApplyTags(t, found, Radio).1
    decreases |found|
  {
    if found != [] {
      RadioRaisesOnlyOnBadBitrate(TagStep(t, found[0], Radio).value, found[1..]);
    }
  }

  /** Where play starts from: a podcast first moves to its download path. */
  function PlayStart(k: Kind, loc: string, downloadPath: string): string
  {
    if k == Podcast then downloadPath else loc
  }

  /** RadioTrack._play resolves a location ending in .pls or .m3u through
      the playlist it names. */
  predicate ScansPlaylist(k: Kind, l: string)
  {
    (k == Radio || k == Podcast) && (EndsWith(l, ".pls") || EndsWith(l, ".m3u"))
  }

  /** The location play ends up with. */
  function PlayLocation(k: Kind, loc: string, downloadPath: string, fetched: seq<string>): (r: string)
    ensures !k.Radio? && !k.Podcast? ==> r == loc
    ensures k == Radio && !EndsWith(loc, ".pls") && !EndsWith(loc, ".m3u") ==> r == loc
    ensures k == Podcast && !EndsWith(downloadPath, ".pls") && !EndsWith(downloadPath, ".m3u") ==> r == downloadPath
    ensures ScansPlaylist(k, PlayStart(k, loc, downloadPath)) ==> r == Pls.Located(fetched)
  {
    var l := PlayStart(k, loc, downloadPath);
    if ScansPlaylist(k, l) then Pls.Located(fetched) else l
  }

  /** The player, when there is one, as a frame. */
  function Player(engine: Engine?): (r: set<Engine>)
    ensures engine != null <==> engine in r
  {
    if engine == null then {} else {engine}
  }

  /** A Track object of any class; `kind` says which. */
  class Track {
    const kind: Kind
    var loc: string
    var tags: TagInfo
    var playing: PlayState
    var connections: seq<nat>
    var submitting: bool
    var nextFunc: Option<nat>
    var lastPosition: real
    /** StreamTrack's stream_loc; None for the other classes and after a
        stream stops. */
    var streamLoc: Option<string>
    /** RadioTrack's `location` and `uri`, PodcastTrack's `download_path`
        and `real_url`. */
    var location: string
    var uri: string
    var downloadPath: string
    var realUrl: string

    /** The fields the playback state machine tracks. */
    function Control(): Playback.Control
      reads this`playing, this`connections, this`submitting
    {
      Playback.Control(playing, |connections|, submitting)
    }

    /** The handler ids the track holds are distinct and connected. */
    ghost predicate Wired(engine: Engine)
      reads this`connections, engine`handlers
    {
      (forall i :: 0 <= i < |connections| ==> connections[i] in engine.handlers)
      && (forall i, j :: 0 <= i < j < |connections| ==> connections[i] != connections[j])
    }

    /** Track.set_info, with the parameter names of set_info. The fields
        outside its modifies clause (the continuation, stream_loc and the
        radio and podcast locations) are left as they were. */
    method SetInfo(a: TrackArgs)
      modifies this`loc, this`tags, this`connections, this`playing, this`submitting, this`lastPosition
      ensures loc == a.loc
      ensures tags == TagInfo(a.title, a.artist, a.album, a.genre, a.discId,
                              SetInfoTrack(a.track), a.length, a.bitrate, a.year)
      ensures playing == Stopped && connections == [] && !submitting && lastPosition == 0.0
    {
      loc := a.loc;
      tags := TagInfo(a.title, a.artist, a.album, a.genre, a.discId,
                      SetInfoTrack(a.track), a.length, a.bitrate, a.year);
      connections, playing, submitting, lastPosition := [], Stopped, false, 0.0;
    }

    /** Track.__init__ as written: from disc_id on, each argument reaches
        the set_info parameter after its own (InitToSetInfo), so the disc id
        is the genre argument, the genre the track argument, the track the
        length argument, the length the bitrate argument and the year the
        modified argument. StreamTrack then sets its location as album,
        "Stream: " and its location as title, an empty track number and an
        empty stream_loc; CDTrack titles its track "Track " and its number.
        For Radio and Podcast tracks only the StreamTrack part is modelled. */
    constructor(k: Kind, a: TrackArgs)
      ensures kind == k && playing == Stopped && connections == [] && !submitting
      ensures nextFunc == None && loc == a.loc && lastPosition == 0.0
      ensures tags.artist == a.artist
      ensures tags.discId == a.genre && tags.genre == a.track && tags.bitrate == a.year
      ensures tags.year == a.modified && tags.length == a.bitrate
      ensures !IsStreamTrack(k) ==> tags.track == SetInfoTrack(a.length)
      ensures streamLoc == (if IsStreamTrack(k) then Some("") else None)
      ensures k == CD ==> tags.title == "Track " + a.loc
      ensures k == Stream ==> tags.title == "Stream: " + a.loc && tags.album == a.loc && tags.track == PyStr("")
      ensures !IsStreamTrack(k) && k != CD ==> tags.title == a.title
      ensures !IsStreamTrack(k) ==> tags.album == a.album
    {
      kind := k;
      var b := InitToSetInfo(a);
      loc := b.loc;
      var t := TagInfo(b.title, b.artist, b.album, b.genre, b.discId,
                       SetInfoTrack(b.track), b.length, b.bitrate, b.year);
      if IsStreamTrack(k) {
        t := t.(album := b.loc, title := "Stream: " + b.loc, track := PyStr(""));
      } else if k == CD {
        t := t.(title := "Track " + b.loc);
      }
      tags := t;
      connections := [];
      playing := Stopped;
      submitting := false;
      lastPosition := 0.0;
      nextFunc := None;
      streamLoc := if IsStreamTrack(k) then Some("") else None;
      location := b.loc;
      uri := b.loc;
      downloadPath := "";
      realUrl := b.loc;
    }

    /** is_playing. */
    function IsPlaying(): (b: bool)
      reads this
      ensures b <==> Code(playing) == 1
    {
      playing == Playing
    }

    /** is_paused. */
    function IsPaused(): (b: bool)
      reads this
      ensures b <==> Code(playing) == 2
    {
      playing == Paused
    }

    /** The part of play before Track.play: PodcastTrack moves to its
        download path, and RadioTrack._play resolves a playlist location
        through `fetch` (urlopen of `uri`). */
    method ResolveLocation(fetch: string -> seq<string>)
      modifies this`loc, this`location
      ensures loc == PlayLocation(kind, old(loc), old(downloadPath), fetch(uri))
      ensures location == (if ScansPlaylist(kind, PlayStart(kind, old(loc), old(downloadPath))) then loc else old(location))
    {
      if kind == Podcast {
        loc := downloadPath;
      }
      if ScansPlaylist(kind, loc) {
        var found := Pls.ScanPlaylist(fetch(uri));
        assert found == Pls.Located(fetch(uri));
        loc := found;
        location := found;
      }
    }

    /** Track.play (CDTrack.play for a CD): unless resuming from pause, a
        bus connection is added, the URI is set, the continuation stored
        and the scrobble flag cleared; the track is then playing. */
    method Start(engine: Engine, next: Option<nat>, quote: string -> string)
      requires engine.Valid() && Wired(engine)
      modifies this`connections, this`nextFunc, this`submitting, this`playing
      modifies engine`handlers, engine`nextHandle, engine`uri, engine`state
      ensures engine.Valid() && Wired(engine)
      ensures Control() == Apply(old(Control()), Action.Play, kind).0
      ensures engine.state == GstPlaying
      ensures old(playing) == Paused ==>
        connections == old(connections) && engine.handlers == old(engine.handlers)
        && engine.nextHandle == old(engine.nextHandle)
        && engine.uri == old(engine.uri) && nextFunc == old(nextFunc)
      ensures old(playing) != Paused ==>
        connections == old(connections) + [old(engine.nextHandle)]
        && engine.handlers == old(engine.handlers) + {old(engine.nextHandle)}
        && engine.nextHandle == old(engine.nextHandle) + 1
        && engine.uri == PlayUri(kind, loc, streamLoc, quote) && nextFunc == next
    {
      if playing != Paused {
        var h := engine.Connect();
        connections := connections + [h];
        engine.uri := PlayUri(kind, loc, streamLoc, quote);
        nextFunc := next;
        submitting := false;
      }
      playing := Playing;
      engine.state := GstPlaying;
    }

    /** play, for every class: the location is resolved, then playback
        starts or resumes. */
    method Play(engine: Engine, next: Option<nat>, quote: string -> string, fetch: string -> seq<string>)
      requires engine.Valid() && Wired(engine)
      modifies this`loc, this`location, this`connections, this`nextFunc, this`submitting, this`playing
      modifies engine`handlers, engine`nextHandle, engine`uri, engine`state
      ensures engine.Valid() && Wired(engine)
      ensures loc == PlayLocation(kind, old(loc), old(downloadPath), fetch(uri))
      ensures location == (if ScansPlaylist(kind, PlayStart(kind, old(loc), old(downloadPath))) then loc else old(location))
      ensures Control() == Apply(old(Control()), Action.Play, kind).0
      ensures engine.state == GstPlaying
      ensures old(playing) == Paused ==>
        connections == old(connections) && engine.handlers == old(engine.handlers)
        && engine.uri == old(engine.uri) && nextFunc == old(nextFunc)
      ensures old(playing) != Paused ==>
        connections == old(connections) + [old(engine.nextHandle)]
        && engine.handlers == old(engine.handlers) + {old(engine.nextHandle)}
        && engine.uri == PlayUri(kind, loc, streamLoc, quote) && nextFunc == next
    {
      ResolveLocation(fetch);
      Start(engine, next, quote);
    }

    /** pause: nothing without a player; otherwise the track is paused and
        the pipeline paused, or shut down (NULL) for a stream. */
    method Pause(engine: Engine?)
      modifies this`playing, Player(engine)`state
      ensures engine == null ==> playing == old(playing)
      ensures engine != null ==> Control() == Apply(old(Control()), Action.Pause, kind).0
      ensures engine != null ==> engine.state == (if IsStreamTrack(kind) then GstNull else GstPaused)
    {
      if engine == null {
        return;
      }
      playing := Paused;
      if IsStreamTrack(kind) {
        engine.state := GstNull;
      } else {
        engine.state := GstPaused;
      }
    }

    /** stop: PodcastTrack goes back to its URL, StreamTrack drops its
        stream_loc; the track is stopped; with a player, every bus
        connection it holds is disconnected, the pipeline goes to READY and
        a 'stream' type track clears its scrobble flag. */
    method Stop(engine: Engine?)
      modifies this`loc, this`streamLoc, this`playing, this`connections, this`submitting
      modifies Player(engine)`handlers, Player(engine)`state
      ensures playing == Stopped
      ensures loc == (if kind == Podcast then old(realUrl) else old(loc))
      ensures streamLoc == (if IsStreamTrack(kind) then None else old(streamLoc))
      ensures engine == null ==> connections == old(connections) && submitting == old(submitting)
      ensures engine != null ==> Control() == Apply(old(Control()), Action.Stop, kind).0
      ensures engine != null ==> engine.state == GstReady && engine.uri == old(engine.uri)
      ensures engine != null ==> forall h :: h in engine.handlers <==> h in old(engine.handlers) && h !in old(connections)
      ensures engine != null ==> Wired(engine)
      ensures engine != null && old(engine.Valid()) ==> engine.Valid()
    {
      if kind == Podcast {
        loc := realUrl;
      }
      if IsStreamTrack(kind) {
        streamLoc := None;
      }
      playing := Stopped;
      if engine == null {
        return;
      }
      for i := 0 to |connections|
        invariant forall h :: h in engine.handlers <==> h in old(engine.handlers) && h !in connections[..i]
        modifies engine`handlers
      {
        assert connections[..i + 1] == connections[..i] + [connections[i]];
        engine.Disconnect(connections[i]);
      }
      assert connections[..|connections|] == connections;
      connections := [];
      engine.state := GstReady;
      if TypeName(kind) == "stream" {
        submitting := false;
      }
    }

    /** seek: nothing without a player; otherwise a flushing seek to the
        given (possibly fractional) second, remembered as the last position
        in nanoseconds. No range check is made. */
    method Seek(engine: Engine?, seconds: real)
      modifies this`lastPosition, Player(engine)`seekTarget
      ensures engine == null ==> lastPosition == old(lastPosition)
      ensures engine != null ==> lastPosition == seconds * (Second as real) && engine.seekTarget == Some(seconds * (Second as real))
    {
      if engine == null {
        return;
      }
      var value := seconds * (Second as real);
      engine.seekTarget := Some(value);
      lastPosition := value;
    }

    /** submit_to_scrobbler: with a session (`hasSession`), a non-empty
        title and artist, no submission in flight and a type other than
        'stream', the flag is set and a submission started. */
    method SubmitToScrobbler(hasSession: bool) returns (spawned: bool)
      modifies this`submitting
      ensures spawned == ScrobbleAllowed(old(submitting), kind, tags.title, tags.artist, hasSession)
      ensures (Control(), spawned) == Apply(old(Control()), Submit(tags.title != "" && tags.artist != "" && hasSession), kind)
    {
      if submitting || TypeName(kind) == "stream" {
        return false;
      }
      if tags.title == "" || tags.artist == "" {
        return false;
      }
      if !hasSession {
        return false;
      }
      submitting := true;
      spawned := true;
    }

    /** found_tag_cb of the track's class, over the tag list in the order
        it is visited. */
    method FoundTagCallback(found: seq<FoundTag>) returns (raised: bool)
      modifies this`tags
      ensures (tags, raised) == FoundTagResult(old(tags), found, kind, loc)
    {
      var i := 0;
      raised := false;
      while i < |found|
        invariant 0 <= i <= |found|
        invariant ApplyTags(tags, found[i..], kind) == ApplyTags(old(tags), found, kind)
      {
        match TagStep(tags, found[i], kind)
        case None =>
          raised := true;
          break;
        case Some(t) =>
          assert found[i..][1..] == found[i + 1..];
          tags := t;
        i := i + 1;
      }
      if kind == Stream {
        tags := tags.(album := loc);
      }
    }
  }
}
