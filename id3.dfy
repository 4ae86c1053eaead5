// The ID3v2 side of MP3Track (xl/media.py): the frame-id table IDS and its
// inverse SDI, the "N/M" codec of the TRCK frame, and the effect of
// write_tag/read_tag on a file's frames, viewed as a map from frame id to
// frame text. mutagen itself, the file, length and bitrate are not modelled.

module Id3 {
  import opened PyText

  /** MP3Track.IDS: frame id to track field name. */
  const IDS: map<string, string> := map[
    "TIT2" := "title", "TPE1" := "artist", "TALB" := "album",
    "TRCK" := "track", "TDRC" := "year", "TCON" := "genre"]

  /** MP3Track.SDI: field name back to frame id. */
  function Sdi(): (m: map<string, string>)
    ensures forall f :: f in IDS ==> IDS[f] in m && m[IDS[f]] == f
    ensures forall v :: v in m ==> m[v] in IDS && IDS[m[v]] == v
  {
    map["title" := "TIT2", "artist" := "TPE1", "album" := "TALB",
        "track" := "TRCK", "year" := "TDRC", "genre" := "TCON"]
  }

  /** The fields of a track that write_tag puts into frames; `track` is what
      the `track` property yields (get_track, an int), `discId` the stored
      disc_id as it is. */
  datatype TagFields = TagFields(
    title: string, artist: string, album: string, genre: string, year: string,
    track: int, discId: PyValue)

  /** Python 2 `disc_id > -1`: an int compares by value, a str is greater
      than every int, None is smaller than every int. */
  predicate DiscAboveMinusOne(v: PyValue)
  {
    match v
    case PyInt(i) => i > -1
    case PyStr(_) => true
    case PyNone => false
  }

  /** The TRCK text write_tag emits: None when track <= -1, else "track" or
      "track/disc_id". */
  function TrckText(track: int, discId: PyValue): (r: Option<string>)
    ensures r.None? <==> track <= -1
    ensures r.Some? ==> StartsWith(r.value, ShowInt(track))
    ensures r.Some? && DiscAboveMinusOne(discId) ==> r.value[|ShowInt(track)|..] == "/" + Str(discId)
    ensures r.Some? && !DiscAboveMinusOne(discId) ==> r.value == ShowInt(track)
  {
    if track > -1 then
      Some(if DiscAboveMinusOne(discId) then ShowInt(track) + "/" + Str(discId) else ShowInt(track))
    else None
  }

  /** Index of the first '/' in s, as s.find('/'); -1 when there is none. */
  function SlashIndex(s: string): (k: int)
    ensures -1 <= k < |s|
    ensures k == -1 <==> '/' !in s
    ensures k >= 0 ==> s[k] == '/' && '/' !in s[..k]
  {
    if s == [] then -1
    else if s[0] == '/' then 0
    else
      var k := SlashIndex(s[1..]);
      assert s[1..][..if k < 0 then 0 else k] == s[1..if k < 0 then 1 else k + 1];
      if k == -1 then -1 else k + 1
  }

  /** The track number and disc id that reading a TRCK frame leaves behind. */
  datatype TrackDisc = TrackDisc(track: int, discId: PyValue)

  /** get_track applied to a str: its int value, or -1. */
  function TrackOfText(s: string): int
  {
    match ParseInt(s)
    case Some(n) => n
    case None => -1
  }

  /** MP3Track.read_tag on the TRCK text, as written. With a '/', the text
      must split into exactly two parts (else ValueError). The first part
      goes through the `track` property, whose getter turns a non-integer
      into -1 without raising; only a non-integer second part raises. Every
      ValueError sets both fields to -1. Without a '/', a non-integer text
      raises; an integer sets the track and keeps `discId`. */
  function ParseTrck(text: string, discId: PyValue): (r: TrackDisc)
    ensures '/' !in text ==> r == (match ParseInt(text)
                                   case Some(n) => TrackDisc(n, discId)
                                   case None => TrackDisc(-1, PyInt(-1)))
  {
    var k := SlashIndex(text);
    if k == -1 then
      match ParseInt(text)
      case Some(n) => TrackDisc(n, discId)
      case None => TrackDisc(-1, PyInt(-1))
    else if '/' in text[k + 1..] then TrackDisc(-1, PyInt(-1))
    else
      match ParseInt(text[k + 1..])
      case Some(d) => TrackDisc(TrackOfText(text[..k]), PyInt(d))
      case None => TrackDisc(-1, PyInt(-1))
  }

  /** The evidently intended reading: any non-integer part, an empty text
      or a second '/' gives the "unknown" pair (-1, -1). */
  function ParseTrckStrict(text: string, discId: PyValue): (r: TrackDisc)
  {
    var k := SlashIndex(text);
    if k == -1 then
      match ParseInt(text)
      case Some(n) => TrackDisc(n, discId)
      case None => TrackDisc(-1, PyInt(-1))
    else if '/' in text[k + 1..] then TrackDisc(-1, PyInt(-1))
    else
      match (ParseInt(text[..k]), ParseInt(text[k + 1..]))
      case (Some(n), Some(d)) => TrackDisc(n, PyInt(d))
      case _ => TrackDisc(-1, PyInt(-1))
  }

  /** read_tag's TRCK parse of a text "a/b" whose first '/' separates a
      from b: a second '/' (split gives three parts) or a part b that is not
      an integer gives the unknown pair; otherwise the disc is int(b) and the
      track is what the `track` getter makes of a, -1 when a is not an
      integer. */
  lemma ParseTrckParts(a: string, b: string, discId: PyValue)
    requires '/' !in a
    ensures '/' in b ==> ParseTrck(a + "/" + b, discId) == TrackDisc(-1, PyInt(-1))
    ensures '/' !in b && ParseInt(b).None? ==> ParseTrck(a + "/" + b, discId) == TrackDisc(-1, PyInt(-1))
    ensures '/' !in b && ParseInt(b).Some? ==>
      ParseTrck(a + "/" + b, discId) == TrackDisc(TrackOfText(a), PyInt(ParseInt(b).value))
  {
    var text := a + "/" + b;
    assert text[..|a|] == a;
    assert text[|a|] == '/';
    assert text[|a| + 1..] == b;
    SlashIndexAt(text, |a|);
  }

  /** With one '/', the strict reading gives the unknown pair when either
      part is not an integer, and otherwise agrees with the as-written one
      on both numbers. */
  lemma ParseTrckStrictSpec(text: string, discId: PyValue, k: int)
    requires k == SlashIndex(text) && k >= 0 && '/' !in text[k + 1..]
    ensures ParseInt(text[..k]).None? || ParseInt(text[k + 1..]).None?
            ==> ParseTrckStrict(text, discId) == TrackDisc(-1, PyInt(-1))
    ensures ParseInt(text[..k]).Some? && ParseInt(text[k + 1..]).Some?
            ==> ParseTrckStrict(text, discId) == ParseTrck(text, discId)
                == TrackDisc(ParseInt(text[..k]).value, PyInt(ParseInt(text[k + 1..]).value))
  {
  }

  /** As written, a non-integer track part beside an integer disc part keeps
      the disc: "x/3" reads as track -1, disc 3, not the unknown pair. */
  lemma ParseTrckKeepsDiscOnBadTrack()
    ensures ParseTrck("x/3", PyNone) == TrackDisc(-1, PyInt(3))
    ensures ParseTrckStrict("x/3", PyNone) == TrackDisc(-1, PyInt(-1))
  {
    var text := "x/3";
    SlashIndexAt(text, 1);
    assert text[2..] == ShowInt(3);
    ParseShowInt(3);
    assert text[..1] == "x";
    StripUnpadded("x");
  }

  lemma ShowNatHasNoSlash(n: nat)
    ensures '/' !in ShowInt(n)
  {
  }

  /** Re-reading the TRCK text of a written track recovers the track, and
      the disc when one was written; without a disc part the disc id the
      track had before reading is kept. */
  lemma TrckRoundTrip(track: int, discId: int, before: PyValue)
    requires track > -1
    ensures discId > -1 ==>
      ParseTrck(TrckText(track, PyInt(discId)).value, before) == TrackDisc(track, PyInt(discId))
    ensures discId > -1 ==>
      ParseTrckStrict(TrckText(track, PyInt(discId)).value, before) == TrackDisc(track, PyInt(discId))
    ensures discId <= -1 ==>
      ParseTrck(TrckText(track, PyInt(discId)).value, before) == TrackDisc(track, before)
    ensures discId <= -1 ==>
      ParseTrckStrict(TrckText(track, PyInt(discId)).value, before) == TrackDisc(track, before)
  {
    if discId > -1 {
      TrckWithDisc(track, discId, before);
    } else {
      ShowNatHasNoSlash(track);
      ParseShowInt(track);
    }
  }

  lemma TrckWithDisc(track: nat, discId: nat, before: PyValue)
    ensures ParseTrck(ShowInt(track) + "/" + ShowInt(discId), before) == TrackDisc(track, PyInt(discId))
    ensures ParseTrckStrict(ShowInt(track) + "/" + ShowInt(discId), before) == TrackDisc(track, PyInt(discId))
  {
    var t := ShowInt(track);
    var text := t + "/" + ShowInt(discId);
    ShowNatHasNoSlash(track);
    ShowNatHasNoSlash(discId);
    assert text[..|t|] == t;
    assert text[|t| + 1..] == ShowInt(discId);
    SlashIndexAt(text, |t|);
    ParseShowInt(track);
    ParseShowInt(discId);
  }

  lemma SlashIndexAt(s: string, k: nat)
    requires k < |s| && s[k] == '/' && '/' !in s[..k]
    ensures SlashIndex(s) == k
  {
  }

  /** MP3Track.get_tag: the frame's text with newlines turned into spaces,
      or "" when the frame is absent. */
  function GetTag(frames: map<string, string>, id: string): (r: string)
    ensures id !in frames ==> r == ""
    ensures id in frames ==> |r| == |frames[id]|
    ensures id in frames ==> forall i :: 0 <= i < |r| ==>
      r[i] == frames[id][i] || (r[i] == ' ' && (frames[id][i] == '\n' || frames[id][i] == '\r'))
    ensures '\n' !in r && '\r' !in r
  {
    if id !in frames then ""
    else seq(|frames[id]|, i requires 0 <= i < |frames[id]| =>
               if frames[id][i] == '\n' || frames[id][i] == '\r' then ' ' else frames[id][i])
  }

  /** MP3Track.write_tag on the frames of an existing file: every frame named
      in IDS is deleted, the five text frames are written from the fields and
      TRCK is written only when track > -1. Other frames stay. */
  function Mp3Write(frames: map<string, string>, t: TagFields): (r: map<string, string>)
    ensures forall id :: id in frames && id !in IDS ==> id in r && r[id] == frames[id]
    ensures forall id :: id in r && id !in IDS ==> id in frames
    ensures "TRCK" in r <==> t.track > -1
  {
    var kept := map id | id in frames && id !in IDS :: frames[id];
    var text := kept["TIT2" := t.title]["TPE1" := t.artist]["TALB" := t.album]
                    ["TDRC" := t.year]["TCON" := t.genre];
    match TrckText(t.track, t.discId)
    case Some(trck) => text["TRCK" := trck]
    case None => text
  }

  /** MP3Track.read_tag: the fields a file's frames give a track whose disc
      id was `discIdBefore`, with the TRCK frame read as written (ParseTrck). */
  function Mp3Read(frames: map<string, string>, discIdBefore: PyValue): (r: TagFields)
    ensures r.title == GetTag(frames, "TIT2") && r.artist == GetTag(frames, "TPE1")
    ensures r.album == GetTag(frames, "TALB") && r.genre == GetTag(frames, "TCON") && r.year == GetTag(frames, "TDRC")
    ensures "TRCK" in frames ==> TrackDisc(r.track, r.discId) == ParseTrck(GetTag(frames, "TRCK"), discIdBefore)
    ensures "TRCK" !in frames ==> r.track == -1 && r.discId == PyInt(-1)
  {
    var td := ParseTrck(GetTag(frames, "TRCK"), discIdBefore);
    assert "TRCK" !in frames ==> ParseInt(GetTag(frames, "TRCK")) == None;
    TagFields(GetTag(frames, "TIT2"), GetTag(frames, "TPE1"), GetTag(frames, "TALB"),
              GetTag(frames, "TCON"), GetTag(frames, "TDRC"), td.track, td.discId)
  }

  lemma Mp3WriteFrames(frames: map<string, string>, t: TagFields)
    ensures var w := Mp3Write(frames, t);
      && "TIT2" in w && w["TIT2"] == t.title && "TPE1" in w && w["TPE1"] == t.artist
      && "TALB" in w && w["TALB"] == t.album && "TDRC" in w && w["TDRC"] == t.year
      && "TCON" in w && w["TCON"] == t.genre
      && (t.track > -1 ==> "TRCK" in w && w["TRCK"] == TrckText(t.track, t.discId).value)
  {
  }

  predicate OneLine(s: string)
  {
    '\n' !in s && '\r' !in s
  }

  lemma GetTagOneLine(frames: map<string, string>, id: string)
    requires id in frames && OneLine(frames[id])
    ensures GetTag(frames, id) == frames[id]
  {
  }

  /** Writing an MP3 track's tags and reading them back reproduces title,
      artist, album, genre, year, track and disc id, provided no text field
      holds a line break (read_tag turns those into spaces). */
  lemma Mp3RoundTrip(frames: map<string, string>, t: TagFields, discIdBefore: PyValue)
    requires OneLine(t.title) && OneLine(t.artist) && OneLine(t.album)
    requires OneLine(t.genre) && OneLine(t.year)
    requires t.track > -1 && t.discId.PyInt? && t.discId.i > -1
    ensures Mp3Read(Mp3Write(frames, t), discIdBefore) == t
  {
    var w := Mp3Write(frames, t);
    Mp3WriteFrames(frames, t);
    GetTagOneLine(w, "TIT2");
    GetTagOneLine(w, "TPE1");
    GetTagOneLine(w, "TALB");
    GetTagOneLine(w, "TCON");
    GetTagOneLine(w, "TDRC");
    TrckReadBack(w, t.track, t.discId.i, discIdBefore);
  }

  lemma TrckReadBack(w: map<string, string>, track: int, discId: int, discIdBefore: PyValue)
    requires track > -1 && discId > -1
    requires "TRCK" in w && w["TRCK"] == TrckText(track, PyInt(discId)).value
    ensures ParseTrck(GetTag(w, "TRCK"), discIdBefore) == TrackDisc(track, PyInt(discId))
  {
    var text := ShowInt(track) + "/" + ShowInt(discId);
    assert w["TRCK"] == text;
    ShowNatHasNoSlash(track);
    ShowNatHasNoSlash(discId);
    assert OneLine(text);
    GetTagOneLine(w, "TRCK");
    TrckWithDisc(track, discId, discIdBefore);
  }

  /** A track with no known number (track <= -1) gets no TRCK frame, so
      reading it back gives the unknown pair, whatever the disc id was. */
  lemma Mp3UnknownTrackRoundTrip(frames: map<string, string>, t: TagFields, discIdBefore: PyValue)
    requires t.track <= -1
    ensures Mp3Read(Mp3Write(frames, t), discIdBefore).track == -1
    ensures Mp3Read(Mp3Write(frames, t), discIdBefore).discId == PyInt(-1)
  {
  }

  /** A track whose disc id is the str "" (what Track.__init__ leaves there,
      see TrackValues.InitToSetInfo) and whose number is 5 is written with
      TRCK "5/", since a str is greater than -1; reading "5/" back fails on
      int("") and gives the unknown pair, so the number is lost. */
  lemma EmptyDiscLosesTrack(before: PyValue)
    ensures TrckText(5, PyStr("")) == Some("5/")
    ensures ParseTrck("5/", before) == TrackDisc(-1, PyInt(-1))
  {
    assert ShowInt(5) == "5";
    ParseTrckParts("5", "", before);
    assert "5" + "/" + "" == "5/";
    assert Strip("") == "";
  }
}
