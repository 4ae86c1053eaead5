// OGGTrack and FLACTrack (xl/media.py): their write_tag fills a fresh
// Vorbis comment block and their read_tag takes fields back from it. The
// block is viewed as a map from key to its first value; the files and
// mutagen are not modelled.

module Vorbis {
  import opened PyText
  import TrackValues

  /** The track fields these handlers read and write. Text fields come back
      as text; the track number and disc id are stored as read. `title` is
      the value of the `title` property, that is get_title with its
      basename fallback (TrackValues.GetTitle), which is what write_tag
      stores. */
  datatype VorbisFields = VorbisFields(
    artist: string, album: string, title: string, genre: string, year: string,
    track: PyValue, discId: PyValue)

  /** get_tag of both handlers: the first value of a key, or "" when the
      key is missing. */
  function Comment(c: map<string, string>, key: string): (r: string)
    ensures key !in c ==> r == ""
  {
    if key in c then c[key] else ""
  }

  /** OGGTrack.write_tag: the block is cleared, then seven keys are set; the
      number is the `track` property (get_track) as text. */
  function OggWrite(f: VorbisFields): (r: map<string, string>)
    ensures r.Keys == {"artist", "album", "title", "genre", "tracknumber", "tracktotal", "date"}
    ensures r["artist"] == f.artist && r["album"] == f.album && r["title"] == f.title
    ensures r["genre"] == f.genre && r["date"] == f.year
    ensures r["tracknumber"] == ShowInt(TrackValues.GetTrack(f.track)) && r["tracktotal"] == Str(f.discId)
  {
    map["artist" := f.artist, "album" := f.album, "title" := f.title, "genre" := f.genre,
        "tracknumber" := ShowInt(TrackValues.GetTrack(f.track)),
        "tracktotal" := Str(f.discId), "date" := f.year]
  }

  /** OGGTrack.read_tag. */
  function OggRead(c: map<string, string>): (r: VorbisFields)
    ensures r.track == PyStr(Comment(c, "tracknumber")) && r.discId == PyStr(Comment(c, "tracktotal"))
  {
    VorbisFields(Comment(c, "artist"), Comment(c, "album"), Comment(c, "title"),
                 Comment(c, "genre"), Comment(c, "date"),
                 PyStr(Comment(c, "tracknumber")), PyStr(Comment(c, "tracktotal")))
  }

  /** FLACTrack.write_tag: the block is emptied and seven keys are set.
      Unlike the OGG handler, disc_id is stored as it is, without str(), so
      a FLAC block holds Python values rather than texts; the number goes
      under the key "track". */
  function FlacWrite(f: VorbisFields): (r: map<string, PyValue>)
    ensures r.Keys == {"artist", "album", "title", "tracktotal", "genre", "track", "date"}
    ensures r["artist"] == PyStr(f.artist) && r["album"] == PyStr(f.album) && r["title"] == PyStr(f.title)
    ensures r["genre"] == PyStr(f.genre) && r["date"] == PyStr(f.year)
    ensures r["tracktotal"] == f.discId
    ensures r["track"] == PyStr(ShowInt(TrackValues.GetTrack(f.track)))
  {
    map["artist" := PyStr(f.artist), "album" := PyStr(f.album), "title" := PyStr(f.title),
        "tracktotal" := f.discId, "genre" := PyStr(f.genre),
        "track" := PyStr(ShowInt(TrackValues.GetTrack(f.track))), "date" := PyStr(f.year)]
  }

  /** FLACTrack.get_tag: unicode() of the first value of a key, or "" when
      the key is missing. */
  function FlacComment(c: map<string, PyValue>, key: string): (r: string)
    ensures key !in c ==> r == ""
    ensures key in c && c[key].PyStr? ==> r == c[key].s
  {
    if key in c then Str(c[key]) else ""
  }

  /** FLACTrack.read_tag: the number is read from "tracknumber". */
  function FlacRead(c: map<string, PyValue>): (r: VorbisFields)
    ensures r.track == PyStr(FlacComment(c, "tracknumber"))
    ensures r.discId == PyStr(FlacComment(c, "tracktotal"))
  {
    VorbisFields(FlacComment(c, "artist"), FlacComment(c, "album"), FlacComment(c, "title"),
                 FlacComment(c, "genre"), FlacComment(c, "date"),
                 PyStr(FlacComment(c, "tracknumber")), PyStr(FlacComment(c, "tracktotal")))
  }

  /** An OGG round trip keeps every text field, the track number as
      get_track sees it and the disc id's text. */
  lemma OggRoundTrip(f: VorbisFields)
    ensures var g := OggRead(OggWrite(f));
      g.artist == f.artist && g.album == f.album && g.title == f.title
      && g.genre == f.genre && g.year == f.year
      && TrackValues.GetTrack(g.track) == TrackValues.GetTrack(f.track)
      && g.discId == PyStr(Str(f.discId))
  {
    TrackValues.GetTrackOfText(TrackValues.GetTrack(f.track));
  }

  /** A FLAC round trip keeps the text fields and the disc id's text but
      loses the track number: it is written under "track" and looked for
      under "tracknumber", so it reads back as "" and get_track reports -1. */
  lemma FlacLosesTrackNumber(f: VorbisFields)
    ensures var g := FlacRead(FlacWrite(f));
      g.artist == f.artist && g.album == f.album && g.title == f.title
      && g.genre == f.genre && g.year == f.year
      && g.track == PyStr("") && TrackValues.GetTrack(g.track) == -1
      && g.discId == PyStr(Str(f.discId))
  {
    assert "tracknumber" !in FlacWrite(f);
    assert Strip("") == "";
  }
}
