// The extension registry FORMAT built at the end of xl/media.py, and the
// audio-sink name normalisation of set_audio_sink.

module Formats {
  import opened PyText

  /** The track classes FORMAT maps extensions to. */
  datatype Handler = GSTTrack | MP3Track | OGGTrack | FLACTrack | WMATrack | M4ATrack

  /** GSTTrack.write_tag and WMATrack.write_tag raise MetaIOException; the
      others write through their tag library. */
  predicate WritesTags(h: Handler)
  {
    !(h == GSTTrack || h == WMATrack)
  }

  const SupportedMedia: set<string> := {".mpc", ".aac", ".m4a", ".m4b", ".wma", ".flac", ".ogg", ".mp3"}

  /** The module-level loop and assignments that fill FORMAT: the five
      extensions the loop visits start on the generic GStreamer handler,
      .flac/.ogg/.mp3 get their own, and .m4a/.wma move to their own handler
      only when the optional library imported. */
  method BuildFormat(m4aAvailable: bool, wmaInfoAvailable: bool) returns (format: map<string, Handler>)
    ensures format.Keys == SupportedMedia
    ensures format[".flac"] == FLACTrack && format[".ogg"] == OGGTrack && format[".mp3"] == MP3Track
    ensures format[".mpc"] == GSTTrack && format[".aac"] == GSTTrack && format[".m4b"] == GSTTrack
    ensures format[".m4a"] == (if m4aAvailable then M4ATrack else GSTTrack)
    ensures format[".wma"] == (if wmaInfoAvailable then WMATrack else GSTTrack)
  {
    var generic := [".mpc", ".aac", ".m4a", ".m4b", ".wma"];
    format := map[];
    for i := 0 to |generic|
      invariant forall e :: e in format <==> e in generic[..i]
      invariant forall e :: e in format ==> format[e] == GSTTrack
    {
      format := format[generic[i] := GSTTrack];
    }
    assert generic[..|generic|] == generic;
    format := format[".flac" := FLACTrack];
    format := format[".ogg" := OGGTrack];
    format := format[".mp3" := MP3Track];
    if m4aAvailable {
      format := format[".m4a" := M4ATrack];
    }
    if wmaInfoAvailable {
      format := format[".wma" := WMATrack];
    }
  }

  /** Whichever libraries are present, every supported extension has a handler;
      .m4a and .wma can have their tags written only when their library
      imported, and the three formats with a native handler always can. */
  lemma RegistryWriteSupport(format: map<string, Handler>, m4aAvailable: bool, wmaInfoAvailable: bool)
    requires format.Keys == SupportedMedia
    requires format[".flac"] == FLACTrack && format[".ogg"] == OGGTrack && format[".mp3"] == MP3Track
    requires format[".mpc"] == GSTTrack && format[".aac"] == GSTTrack && format[".m4b"] == GSTTrack
    requires format[".m4a"] == (if m4aAvailable then M4ATrack else GSTTrack)
    requires format[".wma"] == (if wmaInfoAvailable then WMATrack else GSTTrack)
    ensures forall e :: e in SupportedMedia ==> e in format
    ensures WritesTags(format[".m4a"]) <==> m4aAvailable
    ensures !WritesTags(format[".wma"])
    ensures forall e :: e in {".flac", ".ogg", ".mp3"} ==> WritesTags(format[e])
  {
  }

  /** The element name set_audio_sink asks GStreamer for: an empty choice
      means "GConf"; any name containing "auto" (ignoring case) becomes
      autoaudiosink, else any containing "gconf" becomes gconfaudiosink;
      anything else is used as given. */
  function SinkName(sink: string): (r: string)
    ensures Occurs(Lower(sink), "auto") ==> r == "autoaudiosink"
    ensures !Occurs(Lower(sink), "auto") && Occurs(Lower(sink), "gconf") ==> r == "gconfaudiosink"
    ensures sink != "" && !Occurs(Lower(sink), "auto") && !Occurs(Lower(sink), "gconf") ==> r == sink
  {
    var s := if sink == "" then "GConf" else sink;
    var low := Lower(s);
    if Occurs(low, "auto") then "autoaudiosink"
    else if Occurs(low, "gconf") then "gconfaudiosink"
    else s
  }

  /** A text cannot contain a string one of whose characters it lacks. */
  lemma AbsentCharBlocks(s: string, sub: string, k: nat)
    requires k < |sub| && sub[k] !in s
    ensures !Occurs(s, sub)
  {
    if s != [] {
      assert s[1..] <= s[1..];
      assert forall c :: c in s[1..] ==> c in s;
      AbsentCharBlocks(s[1..], sub, k);
    }
    if |sub| <= |s| {
      assert s[k] in s;
      assert s[..|sub|][k] != sub[k];
    }
  }

  lemma NoSinkIsGConf()
    ensures SinkName("") == "gconfaudiosink"
  {
    assert Lower("GConf") == "gconf";
    AbsentCharBlocks("gconf", "auto", 0);
    assert Occurs("gconf", "gconf");
  }

  lemma AutoSinkFixed()
    ensures SinkName("autoaudiosink") == "autoaudiosink"
  {
    assert Lower("autoaudiosink") == "autoaudiosink";
    assert StartsWith("autoaudiosink", "auto");
  }

  lemma GConfSinkFixed()
    ensures SinkName("gconfaudiosink") == "gconfaudiosink"
  {
    assert Lower("gconfaudiosink") == "gconfaudiosink";
    AbsentCharBlocks("gconfaudiosink", "auto", 2);
    assert StartsWith("gconfaudiosink", "gconf");
  }

  /** Normalising an already normalised name changes nothing. */
  lemma SinkNameIdempotent(sink: string)
    ensures SinkName(SinkName(sink)) == SinkName(sink)
  {
    var r := SinkName(sink);
    if r == "autoaudiosink" {
      AutoSinkFixed();
    } else if r == "gconfaudiosink" {
      GConfSinkFixed();
    } else {
      assert sink != "" by {
        if sink == "" {
          NoSinkIsGConf();
        }
      }
      assert r == sink;
    }
  }

  /** set_audio_sink: on a platform whose name contains "win" nothing
      happens (None); otherwise the normalised sink, or autoaudiosink when
      GStreamer has no element of that name. */
  function SetAudioSink(platform: string, sink: string, available: set<string>): (r: Option<string>)
    ensures r.None? <==> Occurs(platform, "win")
    ensures r.Some? ==> r.value in {SinkName(sink), "autoaudiosink"}
    ensures r.Some? && SinkName(sink) in available ==> r.value == SinkName(sink)
    ensures r.Some? && SinkName(sink) !in available ==> r.value == "autoaudiosink"
  {
    if Occurs(platform, "win") then None
    else if SinkName(sink) in available then Some(SinkName(sink))
    else Some("autoaudiosink")
  }
}
