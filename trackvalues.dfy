// The value-level accessors of Track and its subclasses in xl/media.py:
// get_track, get_bitrate (Track and RadioTrack), get_title with its
// basename fallback, get_duration and the stream length text, and the way
// Track.__init__ hands its arguments to set_info.

module TrackValues {
  import opened PyText
  import Formats

  /** The Track classes, as far as playback and accessors tell them apart:
      Generic is Track itself and DeviceTrack, Tagged the per-format
      handlers, then StreamTrack, RadioTrack, PodcastTrack and CDTrack. */
  datatype Kind = Generic | Tagged(handler: Formats.Handler) | Stream | Radio | Podcast | CD

  /** The `type` attribute each class sets. */
  function TypeName(k: Kind): string
  {
    match k
    case Stream => "stream"
    case Radio => "stream"
    case Podcast => "podcast"
    case CD => "cd"
    case _ => "track"
  }

  /** isinstance(track, StreamTrack). */
  predicate IsStreamTrack(k: Kind)
  {
    k.Stream? || k.Radio? || k.Podcast?
  }

  /** Track.get_track: the stored track number as an int, or the sentinel
      -1 when int() of it raises. */
  function GetTrack(stored: PyValue): (r: int)
    ensures IntOf(stored).Some? ==> r == IntOf(stored).value
    ensures IntOf(stored).None? ==> r == -1
  {
    match IntOf(stored)
    case Some(n) => n
    case None => -1
  }

  /** What set_info stores for a track number: int(track) when that
      succeeds, the value itself otherwise. */
  function SetInfoTrack(track: PyValue): (r: PyValue)
    ensures IntOf(track).Some? ==> r == PyInt(IntOf(track).value)
    ensures IntOf(track).None? ==> r == track
  {
    match IntOf(track)
    case Some(n) => PyInt(n)
    case None => track
  }

  /** Converting at set_info time never changes what get_track reports. */
  lemma SetInfoTrackKeepsNumber(track: PyValue)
    ensures GetTrack(SetInfoTrack(track)) == GetTrack(track)
  {
  }

  /** A track number stored as its decimal text reads back as itself. */
  lemma GetTrackOfText(n: int)
    ensures GetTrack(PyStr(ShowInt(n))) == n
  {
    ParseShowInt(n);
  }

  /** Track.get_bitrate: for a stored value int() accepts, the whole number
      of kilobits (Python 2 floor division by 1000) followed by "k", or ""
      when that is 0; any other stored value is returned unchanged. */
  function GetBitrate(stored: PyValue): (r: PyValue)
    ensures IntOf(stored).None? ==> r == stored
    ensures IntOf(stored).Some? ==> r.PyStr?
  {
    match IntOf(stored)
    case None => stored
    case Some(n) =>
      var rate := n / 1000;
      if rate != 0 then PyStr(ShowInt(rate) + "k") else PyStr("")
  }

  /** The text get_bitrate shows is empty exactly for rates under 1000 bit/s
      (and at least 0); otherwise it is a number of kilobits k with
      k * 1000 <= rate < (k + 1) * 1000, followed by "k". */
  lemma BitrateInKilobits(n: int)
    ensures GetBitrate(PyInt(n)) == PyStr("") <==> 0 <= n < 1000
    ensures var t := GetBitrate(PyInt(n)).s;
      t != "" ==> (t[|t| - 1] == 'k' && ParseInt(t[..|t| - 1]).Some?
                   && ParseInt(t[..|t| - 1]).value * 1000 <= n < (ParseInt(t[..|t| - 1]).value + 1) * 1000)
  {
    var t := GetBitrate(PyInt(n)).s;
    if n / 1000 != 0 {
      assert t[..|t| - 1] == ShowInt(n / 1000);
      ParseShowInt(n / 1000);
    }
  }

  /** re.sub("\D", "", s): the decimal digits of s, in order. */
  function KeepDigits(s: string): (r: string)
    ensures AllDigits(r) && |r| <= |s|
    ensures forall c :: IsDigit(c) ==> multiset(r)[c] == multiset(s)[c]
  {
    if s == [] then []
    else
      assert s == [s[0]] + s[1..];
      if IsDigit(s[0]) then [s[0]] + KeepDigits(s[1..])
      else KeepDigits(s[1..])
  }

  lemma {:induction false} KeepDigitsOfDigits(s: string)
    requires AllDigits(s)
    ensures KeepDigits(s) == s
  {
    if s != [] {
      KeepDigitsOfDigits(s[1..]);
    }
  }

  /** re.sub("\D", "", s) keeps the digits in their order: on a
      concatenation it is the digits of the first part followed by those
      of the second. */
  lemma {:induction false} KeepDigitsAppend(s: string, t: string)
    ensures KeepDigits(s + t) == KeepDigits(s) + KeepDigits(t)
  {
    if s == [] {
      assert s + t == t;
    } else {
      assert (s + t)[1..] == s[1..] + t;
      KeepDigitsAppend(s[1..], t);
    }
  }

  /** RadioTrack.set_bitrate: what it stores for a rate, the digits of
      str(rate) in order. */
  function RadioSetBitrate(rate: PyValue): (r: string)
    ensures AllDigits(r)
    ensures r == KeepDigits(Str(rate))
  {
    KeepDigits(Str(rate))
  }

  /** RadioTrack.get_bitrate returns the text and also rewrites the stored
      value to its digits. */
  datatype RadioBitrate = RadioBitrate(text: string, stored: string)

  function RadioGetBitrate(stored: PyValue): (r: RadioBitrate)
    ensures AllDigits(r.stored) && r.stored == KeepDigits(Str(stored))
    ensures r.text == "" <==> r.stored == ""
    ensures r.stored != "" ==> r.text == r.stored + "k"
  {
    var digits := KeepDigits(Str(stored));
    RadioBitrate(if digits != "" then digits + "k" else "", digits)
  }

  /** After set_bitrate, get_bitrate shows the digits of the rate with a
      "k", leaves the stored value as it was, and so shows the same text
      every time. */
  lemma RadioBitrateStable(rate: PyValue)
    ensures var d := RadioSetBitrate(rate);
      RadioGetBitrate(PyStr(d)) == RadioBitrate(if d == "" then "" else d + "k", d)
  {
    KeepDigitsOfDigits(RadioSetBitrate(rate));
  }

  /** The stream's bitrate tag, divided by 1000 in RadioTrack.found_tag_cb,
      is shown as that many kilobits even when it is 0. */
  lemma RadioTagBitrate(bits: nat)
    ensures RadioGetBitrate(PyStr(RadioSetBitrate(PyInt(bits / 1000)))).text == ShowNat(bits / 1000) + "k"
  {
    KeepDigitsOfDigits(ShowNat(bits / 1000));
  }

  /** The regex substitution of get_title (".*" then os.sep, with os.sep
      taken as '/', replaced by ""): on each line, everything up to and including
      the line's last '/' is removed ('.' does not match a newline). `line`
      is the part of the current line kept so far. */
  function StripDirs(s: string, line: string): string
  {
    if s == [] then line
    else if s[0] == '/' then StripDirs(s[1..], "")
    else if s[0] == '\n' then line + "\n" + StripDirs(s[1..], "")
    else StripDirs(s[1..], line + [s[0]])
  }

  /** The part of a line kept by the substitution has no '/'. */
  lemma {:induction false} StripDirsNoSlash(s: string, line: string)
    requires '\n' !in s && '/' !in line
    ensures '/' !in StripDirs(s, line)
  {
    if s != [] {
      assert '\n' !in s[1..] by {
        assert forall c :: c in s[1..] ==> c in s;
      }
      if s[0] == '/' {
        StripDirsNoSlash(s[1..], "");
      } else {
        assert s[0] != '\n';
        StripDirsNoSlash(s[1..], line + [s[0]]);
      }
    }
  }

  /** On one line, what the substitution keeps is a suffix of the line
      (the part kept so far followed by the rest of the text). */
  lemma {:induction false} StripDirsSuffix(s: string, line: string)
    requires '\n' !in s
    ensures EndsWith(line + s, StripDirs(s, line))
  {
    if s != [] {
      assert '\n' !in s[1..] by {
        assert forall c :: c in s[1..] ==> c in s;
      }
      if s[0] == '/' {
        StripDirsSuffix(s[1..], "");
        assert "" + s[1..] == s[1..];
        assert (line + s)[|line| + 1..] == s[1..];
        EndsWithTrans(line + s, s[1..], StripDirs(s, line));
      } else {
        assert s[0] != '\n';
        StripDirsSuffix(s[1..], line + [s[0]]);
        assert line + [s[0]] + s[1..] == line + s;
      }
    }
  }

  /** A suffix of a suffix is a suffix. */
  lemma EndsWithTrans(a: string, b: string, c: string)
    requires EndsWith(a, b) && EndsWith(b, c)
    ensures EndsWith(a, c)
  {
    assert a[|a| - |c|..] == a[|a| - |b|..][|b| - |c|..];
  }

  /** `r`, a suffix of `all`, is either all of it or preceded by a '/'. */
  predicate CutAtSlashOrWhole(all: string, r: string)
  {
    |r| < |all| ==> all[|all| - |r| - 1] == '/'
  }

  /** On one line, when the substitution drops something, the character
      right before what it keeps is a '/'. */
  lemma {:induction false} StripDirsCut(s: string, line: string)
    requires '\n' !in s
    ensures CutAtSlashOrWhole(line + s, StripDirs(s, line))
  {
    if s != [] {
      assert '\n' !in s[1..] by {
        assert forall c :: c in s[1..] ==> c in s;
      }
      if s[0] == '/' {
        var r := StripDirs(s[1..], "");
        assert StripDirs(s, line) == r;
        assert "" + s[1..] == s[1..];
        StripDirsCut(s[1..], "");
        StripDirsSuffix(s[1..], "");
        CutAtSlash(line, s, r);
      } else {
        assert s[0] != '\n';
        var line' := line + [s[0]];
        StripDirsCut(s[1..], line');
        assert StripDirs(s, line) == StripDirs(s[1..], line');
        assert line' + s[1..] == line + s;
      }
    }
  }

  /** The step of StripDirsCut at a '/': a suffix of what follows the '/'
      that is either all of it or preceded by a '/' is preceded by a '/'
      in the whole text. */
  lemma CutAtSlash(line: string, s: string, r: string)
    requires s != [] && s[0] == '/' && EndsWith(s[1..], r)
    requires CutAtSlashOrWhole(s[1..], r)
    ensures CutAtSlashOrWhole(line + s, r)
  {
    var all := line + s;
    var i := |all| - |r| - 1;
    assert all[i] == s[i - |line|];
    if |r| < |s[1..]| {
      assert s[i - |line|] == s[1..][|s[1..]| - |r| - 1];
    }
  }

  /** On one line, the substitution keeps exactly the part after the last '/'. */
  lemma StripDirsOneLine(s: string, line: string)
    requires '\n' !in s && '/' !in line
    ensures var r := StripDirs(s, line); var all := line + s;
      '/' !in r && EndsWith(all, r) && (|r| < |all| ==> all[|all| - |r| - 1] == '/')
  {
    StripDirsNoSlash(s, line);
    StripDirsSuffix(s, line);
    StripDirsCut(s, line);
  }

  /** The basename fallback of get_title, for a location on one line: the
      longest suffix without a '/', so that either it is the whole location
      or a '/' comes right before it. */
  lemma {:induction false} BasenameOfLocation(loc: string)
    requires '\n' !in loc
    ensures var r := StripDirs(loc, "");
      '/' !in r && EndsWith(loc, r) && (|r| < |loc| ==> loc[|loc| - |r| - 1] == '/')
  {
    StripDirsOneLine(loc, "");
    assert "" + loc == loc;
  }

  /** Track.get_title: the stored title, except that a track with empty
      title, album and artist is named after its location's basename.
      (The utf-8 decode is the identity on this model's strings.) */
  function GetTitle(title: string, album: string, artist: string, loc: string): (r: string)
    ensures title != "" || album != "" || artist != "" ==> r == title
    ensures title == "" && album == "" && artist == "" && '\n' !in loc ==>
      '/' !in r && EndsWith(loc, r) && (|r| < |loc| ==> loc[|loc| - |r| - 1] == '/')
  {
    if title == "" && album == "" && artist == "" then
      if '\n' !in loc then BasenameOfLocation(loc); StripDirs(loc, "") else StripDirs(loc, "")
    else title
  }

  /** The duration a track reports, with the `stream` flag of timetype. */
  datatype Duration = Duration(seconds: int, stream: bool)

  /** get_duration: a stream, radio or podcast track reports 0 flagged as a
      stream (StreamTrack.get_duration); the others report their length. */
  function GetDuration(k: Kind, length: int): (r: Duration)
    ensures r.stream <==> IsStreamTrack(k)
    ensures r.stream ==> r.seconds == 0
    ensures !r.stream ==> r.seconds == length
  {
    if IsStreamTrack(k) then Duration(0, true) else Duration(length, false)
  }

  /** The `length` property of StreamTrack and RadioTrack: "N/A". Other
      kinds format their length as minutes:seconds through the clock, which
      is not modelled (None). */
  function StreamLengthText(k: Kind): (r: Option<string>)
    ensures r.Some? <==> k.Stream? || k.Radio?
    ensures r.Some? ==> r.value == "N/A"
  {
    if k.Stream? || k.Radio? then Some("N/A") else None
  }

  /** The parameters of Track.set_info, in set_info's order and by its
      names. */
  datatype TrackArgs = TrackArgs(
    loc: string, title: string, artist: string, album: string,
    discId: PyValue, genre: PyValue, track: PyValue, length: PyValue,
    bitrate: PyValue, year: PyValue, modified: PyValue, userRating: PyValue,
    blacklisted: PyValue, timeAdded: PyValue)

  /** Track.__init__ as written: it passes its arguments to set_info
      positionally but leaves out disc_id, so each argument from genre on
      lands one parameter early and time_added falls back to ''. */
  function InitToSetInfo(a: TrackArgs): (r: TrackArgs)
    ensures r.loc == a.loc && r.title == a.title && r.artist == a.artist && r.album == a.album
    ensures r.discId == a.genre && r.genre == a.track && r.track == a.length && r.length == a.bitrate
    ensures r.bitrate == a.year && r.year == a.modified && r.timeAdded == PyStr("")
  {
    TrackArgs(a.loc, a.title, a.artist, a.album,
              a.genre, a.track, a.length, a.bitrate, a.year, a.modified,
              a.userRating, a.blacklisted, a.timeAdded, PyStr(""))
  }

  /** What __init__ evidently means: every argument reaches the set_info
      parameter of the same name. */
  function InitToSetInfoIntended(a: TrackArgs): (r: TrackArgs)
    ensures r.discId == a.discId && r.genre == a.genre && r.track == a.track
    ensures r.length == a.length && r.bitrate == a.bitrate && r.year == a.year
    ensures r.timeAdded == a.timeAdded
  {
    a
  }

  /** The arguments of Track(loc): __init__'s defaults. */
  function InitDefaults(loc: string): (a: TrackArgs)
    ensures a.loc == loc && a.discId == PyInt(0) && a.genre == PyStr("") && a.track == PyInt(0)
  {
    TrackArgs(loc, "", "", "", PyInt(0), PyStr(""), PyInt(0), PyInt(0), PyInt(0), PyStr(""),
              PyInt(0), PyInt(0), PyInt(0), PyStr(""))
  }

  /** As written, Track(loc) stores the default genre "" as its disc id
      and the default track 0 as its genre, where the intended call keeps
      disc id 0 and genre "". */
  lemma DefaultInitDiscId(loc: string)
    ensures InitToSetInfo(InitDefaults(loc)).discId == PyStr("")
    ensures InitToSetInfo(InitDefaults(loc)).genre == PyInt(0)
    ensures InitToSetInfoIntended(InitDefaults(loc)).discId == PyInt(0)
  {
  }

  /** CDTrack(3, length=245) calls Track.__init__(3, length=245): as
      written its track number becomes 245 and its length 0; the intended
      call keeps track number 0 and length 245. */
  lemma CDTrackInitShift()
    ensures var a := TrackArgs("3", "", "", "", PyInt(0), PyStr(""), PyInt(0), PyInt(245),
                               PyInt(0), PyStr(""), PyInt(0), PyInt(0), PyInt(0), PyStr(""));
      && GetTrack(SetInfoTrack(InitToSetInfo(a).track)) == 245
      && InitToSetInfo(a).length == PyInt(0)
      && GetTrack(SetInfoTrack(InitToSetInfoIntended(a).track)) == 0
      && InitToSetInfoIntended(a).length == PyInt(245)
  {
  }
}
