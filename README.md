# Exaile media core, modelled in Dafny

This project models three parts of the Exaile music player (Python 2):

- the track layer of `xl/media.py`:
  - the `Track` class and its Stream, Radio, Podcast and CD subclasses;
  - their play/pause/stop/seek state machine over the GStreamer playbin;
  - the tag callbacks;
  - the accessors (`get_track`, `get_bitrate`, `get_title`, `get_duration`);
  - the MP3, OGG and FLAC tag codecs;
  - the `FORMAT` extension registry and the audio-sink choice;
- the selection and persistence rules of the main window in `xlgui/main.py`:
  - the progress bar's seek handlers;
  - saving and reloading the playlist tabs;
  - the tab label;
  - the stop-after-this-track toggle;
  - the dynamic-fill request count;
- the MPRIS 1.0 `/Player` object of `plugins/mpris/mpris_player.py`.

Modules:

- `PyText`: the Python 2 string and integer semantics the code relies on: `int()` parsing with surrounding whitespace, `str()`, `strip`, `lower`, and substring search.
- `Id3`: the ID3 frame table `IDS` and its inverse `SDI`, the `N/M` TRCK text, and MP3 `write_tag`/`read_tag`. Frames are a map from frame id to frame text.
- `Vorbis`: OGG and FLAC comment blocks.
- `TrackValues`: the value-level accessors, and how `Track.__init__` hands its arguments to `set_info`.
- `Formats`: the `FORMAT` registry and `set_audio_sink`.
- `Pls`: the playlist-file scan of `RadioTrack._play`.
- `Playback`: the play/pause/stop/scrobble state machine as pure functions, `on_message`, and the URI `play` hands to GStreamer.
- `Media`: the imperative part.
  - `Engine` is the module-level playbin and its bus: URI, state, connected handlers, seek target, volume.
  - `Track` is one object of any track class. Its methods are proved to follow `Playback`.
- `Tabs`: `save_current_tabs`, `load_saved_tabs` and the part of `add_playlist` they depend on.
- `Gui`: the progress bar, `on_spat_clicked` and `_get_dynamic_tracks`.
- `Mpris`: the `/Player` methods. Each command is recorded as the call it forwards.

Python 2 semantics are written out where they matter:

- `int()` of text accepts surrounding whitespace and a sign.
- `/` on ints is floor division in `xl/media.py`. In the MPRIS plugin it is true division (`from __future__ import division`), and `int()` of the result truncates toward zero.
- A `str` compares greater than every `int`.
- An empty `Playlist` is falsy.
- `re.sub` removes non-overlapping matches from left to right.

Where the code departs from its own documentation, the model follows the code:

- `set_volume` does not clamp to the documented range.
- `VolumeSet`'s range check has an empty body.
- `add_playlist` makes a new tab the queue's playlist whenever the queue's playlist is falsy, including an empty playlist. So an untagged tab can become the queue's playlist (`Tabs.UntaggedTabFillsEmptyQueue`).
- `load_saved_tabs` reopens a "current." tab only while the queue has no playlist at all (`== None`, not falsy), and selects pages by saved index (see Findings).

## Model

| member | source | states |
|---|---|---|
| PyText.ParseIntAccepts | xl/media.py:298-306 | int() accepts exactly a stripped text of an optional sign and at least one digit, and gives the digits' value with the sign applied |
| PyText.ParseShowInt | xl/media.py:298-306 | int(str(n)) == n for every int n |
| PyText.DigitsAllDigits | xl/media.py:298-306 | the digit reader accepts exactly the all-digit texts, with their decimal value |
| PyText.ShowNatValue | xl/media.py:298-306 | the decimal text of a natural number denotes that number |
| Id3.Sdi | xl/media.py:920-928 | SDI is the exact inverse of IDS: every frame id's field maps back to it, and every field maps to a frame that names it |
| Id3.TrckText | xl/media.py:957-964 | no TRCK text at all exactly when the track number is -1 or less; otherwise the track number, followed by "/" and str(disc id) exactly when the disc id is above -1 (a str disc id always is) |
| Id3.SlashIndex | xl/media.py:994-1006 | the position of the first '/', or -1 exactly when there is none |
| Id3.ParseTrck | xl/media.py:994-1006 | read_tag's TRCK parse as written, for text without '/': its integer with the disc id kept, or the unknown pair (-1, -1) when not an integer |
| Id3.ParseTrckParts | xl/media.py:994-1006 | for "a/b" with no '/' in a: a second '/' or a non-integer b gives (-1, -1); otherwise the track property's reading of a and int(b) |
| Id3.ParseTrckStrictSpec | xl/media.py:994-1006 | the corrected parser gives (-1, -1) whenever either part is not an integer, and agrees with the as-written parser on well-formed text |
| Id3.ParseTrckKeepsDiscOnBadTrack | xl/media.py:994-1006 | as written, "x/3" reads as track -1 with disc 3; the corrected parser gives (-1, -1) |
| Id3.TrckRoundTrip | xl/media.py:957-1006 | reading back the TRCK text of a known track recovers the track, and the disc when one was written, under both parsers; without a disc part the earlier disc id stays |
| Id3.TrckWithDisc | xl/media.py:994-1006 | "n/d" for naturals n and d parses back to (n, d) under both parsers |
| Id3.GetTag | xl/media.py:969-978 | a missing frame gives ""; otherwise the frame text of the same length with each line break replaced by a space and every other character kept |
| Id3.Mp3Write | xl/media.py:936-967 | frames outside IDS are kept unchanged; no frame is invented outside IDS; TRCK is present exactly when the track is known |
| Id3.Mp3Read | xl/media.py:980-1017 | as written: title, artist, album, genre and year come from TIT2, TPE1, TALB, TCON and TDRC; a present TRCK frame gives the track and disc that ParseTrck reads from it; without a TRCK frame the track and disc are (-1, -1) |
| Id3.Mp3WriteFrames | xl/media.py:936-967 | each of the five text frames holds its field, and TRCK holds the N/M text of a known track |
| Id3.GetTagOneLine | xl/media.py:969-978 | a frame without line breaks is read back unchanged |
| Id3.Mp3RoundTrip | xl/media.py:936-1017 | writing then reading an MP3 track's tags returns every field when no text has a line break and track and disc are known |
| Id3.Mp3UnknownTrackRoundTrip | xl/media.py:957-1006 | a track without a number reads back as track -1, disc -1, whatever its disc id was |
| Id3.EmptyDiscLosesTrack | xl/media.py:957-1006 | a track written with an empty disc id (Track's default, see TrackValues.DefaultInitDiscId) is stored as "5/" and reads back as (-1, -1) |
| Vorbis.Comment | xl/media.py:1029-1036 | a missing key reads as "" |
| Vorbis.OggWrite | xl/media.py:1038-1056 | the block holds exactly the seven keys write_tag sets |
| Vorbis.OggRead | xl/media.py:1058-1076 | track number and disc id are the texts stored under tracknumber and tracktotal |
| Vorbis.FlacWrite | xl/media.py:1112-1128 | the block holds exactly seven keys: the text fields as given, the disc id stored raw under "tracktotal", and str(get_track) under "track" |
| Vorbis.FlacComment | xl/media.py:1088-1095 | a missing key reads as ""; a text value reads as itself |
| Vorbis.FlacRead | xl/media.py:1097-1110 | the track is the text under "tracknumber" and the disc id the text under "tracktotal", "" when missing |
| Vorbis.OggRoundTrip | xl/media.py:1038-1076 | an OGG write/read keeps every text field, the track number as get_track sees it, and the disc id's text |
| Vorbis.FlacLosesTrackNumber | xl/media.py:1097-1128 | a FLAC write/read keeps the text fields and the disc id's text, but the track number comes back as "" (get_track -1) |
| Formats.BuildFormat | xl/media.py:1217-1227 | FORMAT's keys are exactly SUPPORTED_MEDIA; .flac/.ogg/.mp3 have their own handler; .m4a and .wma have theirs only when their library is present; the rest use GSTTrack |
| Formats.RegistryWriteSupport | xl/media.py:1217-1227 | every supported extension has a handler in FORMAT; .m4a tags are writable exactly when its library is present; .wma tags never are; .flac/.ogg/.mp3 tags always are |
| Formats.SinkName | xl/media.py:86-106 | a name containing "auto" (any case) gives autoaudiosink; else one containing "gconf" gives gconfaudiosink; any other non-empty name is kept |
| Formats.NoSinkIsGConf | xl/media.py:86-106 | an empty sink setting means gconfaudiosink |
| Formats.SinkNameIdempotent | xl/media.py:86-106 | normalising a normalised name changes nothing |
| Formats.SetAudioSink | xl/media.py:86-106 | nothing happens exactly on a platform named with "win"; otherwise the normalised sink when GStreamer has it, and autoaudiosink when it does not |
| TrackValues.GetTrack | xl/media.py:298-306 | the stored number when int() accepts it, else -1 |
| TrackValues.SetInfoTrack | xl/media.py:173-203 | set_info stores int(track) when that succeeds, the value itself otherwise |
| TrackValues.SetInfoTrackKeepsNumber | xl/media.py:173-306 | converting at set_info time never changes what get_track reports |
| TrackValues.GetTrackOfText | xl/media.py:298-306 | a number stored as its decimal text reads back as itself |
| TrackValues.GetBitrate | xl/media.py:309-319 | a value int() rejects is returned unchanged; otherwise a text |
| TrackValues.BitrateInKilobits | xl/media.py:309-319 | the text is empty exactly for 0 to 999 bit/s; otherwise it is k followed by "k", with k*1000 <= rate < (k+1)*1000 |
| TrackValues.KeepDigits | xl/media.py:780-787 | the result holds only digits, each digit as many times as the input holds it |
| TrackValues.KeepDigitsOfDigits | xl/media.py:780-787 | digits are kept as they are |
| TrackValues.KeepDigitsAppend | xl/media.py:780-787 | filtering a concatenation filters each part |
| TrackValues.RadioSetBitrate | xl/media.py:780-787 | a radio track stores the digits of str(rate), in order, and nothing else |
| TrackValues.RadioGetBitrate | xl/media.py:771-778 | the stored value becomes the digits of its str(); the text is empty exactly when no digit is left, and otherwise those digits followed by "k" |
| TrackValues.RadioBitrateStable | xl/media.py:771-787 | after set_bitrate, get_bitrate shows the digits with "k" and leaves the stored value unchanged |
| TrackValues.RadioTagBitrate | xl/media.py:707-718 | a bitrate tag is shown as its thousands with "k", even when that is 0 |
| TrackValues.StripDirsOneLine | xl/media.py:335-345 | on one line, the substitution keeps exactly the part after the last '/' |
| TrackValues.StripDirsNoSlash | xl/media.py:335-345 | on one line, what the substitution keeps has no '/' |
| TrackValues.StripDirsSuffix | xl/media.py:335-345 | on one line, what the substitution keeps is a suffix of the line |
| TrackValues.StripDirsCut | xl/media.py:335-345 | on one line, when the substitution drops something, a '/' comes right before what it keeps |
| TrackValues.BasenameOfLocation | xl/media.py:335-345 | the fallback title is the location's longest suffix without a '/' |
| TrackValues.GetTitle | xl/media.py:335-345 | the stored title unless title, album and artist are all empty; then the location's basename |
| TrackValues.GetDuration | xl/media.py:384-389 | stream kinds report 0, flagged as a stream; the others report their length |
| TrackValues.StreamLengthText | xl/media.py:640-646 | stream and radio tracks show "N/A" |
| TrackValues.InitToSetInfo | xl/media.py:153-175 | as written, set_info receives genre as disc id, track as genre, length as track number, bitrate as length, year as bitrate and modified as year |
| TrackValues.InitToSetInfoIntended | xl/media.py:153-175 | every argument reaches the set_info parameter of its own name |
| TrackValues.InitDefaults | xl/media.py:153-171 | Track(loc) has disc id 0, genre "" and track 0 as its defaults |
| TrackValues.DefaultInitDiscId | xl/media.py:153-175 | as written, Track(loc) stores "" as its disc id and 0 as its genre; the intended call keeps disc id 0 |
| TrackValues.CDTrackInitShift | xl/media.py:652-658 | CDTrack(3, length=245) gets track number 245 and length 0 as written; the intended call gives track 0 and length 245 |
| Pls.DigitRun | xl/media.py:747-765 | the length of the leading run of digits |
| Pls.FileTagLength | xl/media.py:747-765 | a match exactly when the text is "File", at least one digit, then '='; its length is 5 plus the number of digits |
| Pls.RemoveFileTags | xl/media.py:747-765 | the substitution never lengthens the text (Pls.RemoveNoFileTag: it keeps a text with no match) |
| Pls.RemoveNoFileTag | xl/media.py:747-765 | a text with no File<n>= match is unchanged |
| Pls.FirstChosen | xl/media.py:747-765 | the index of the first line the scan stops at, with no earlier line qualifying; -1 when none does |
| Pls.Located | xl/media.py:747-765 | no qualifying line gives the empty location |
| Pls.ScanPlaylist | xl/media.py:747-765 | the loop settles on the first stripped line with '=' that starts with "File", with its File<n>= tags removed, or on ""; this is the value of Located |
| Pls.M3uYieldsNothing | xl/media.py:747-765 | a playlist with no '=' on any line yields no location |
| Pls.DigitRunOfDigits | xl/media.py:747-765 | the digit run of a number followed by a non-digit is the number's length |
| Pls.PlsEntry | xl/media.py:747-765 | a "File<n>=url" line yields the url |
| Playback.Code | xl/media.py:448-462 | the playing field is 1 exactly when playing and 2 exactly when paused |
| Playback.Apply | xl/media.py:425-542 | play leads to playing, pause to paused, stop to stopped with no bus connection; a scrobble starts only on a submit when none was in flight |
| Playback.OneScrobblePerSession | xl/media.py:425-542 | within one playback session at most one scrobble starts, and none if one was in flight |
| Playback.StreamNeverScrobbles | xl/media.py:529-542 | a 'stream' type track never starts a scrobble |
| Playback.RunAppend | xl/media.py:425-504 | running a trace and then one more action is that action applied to the run's result |
| Playback.StopThenPlay | xl/media.py:425-504 | after stop the track is stopped with no connection; a following play opens exactly one and clears the scrobble flag |
| Playback.PauseResume | xl/media.py:425-489 | pause then play returns to playing with the same connections and flag |
| Playback.OnMessage | xl/media.py:254-266 | tags go to found_tag_cb exactly for stream kinds and GSTTrack; end of stream schedules the continuation exactly when not reading tags, not paused, and there is one |
| Playback.PlayUri | xl/media.py:425-446 | cdda:// plus the number for a CD; file:// plus the quoted location for a file; stream_loc (or the location) for a stream, with file:// only for a podcast |
| Media.TagStep | xl/media.py:234-252 | raises only for a radio bitrate int() rejects; a podcast ignores tags; only a title tag changes the title |
| Media.ApplyTagsAppend | xl/media.py:234-252 | the callback over two tag lists is the callback over the first, then the second from where it stopped |
| Media.NoTitleKeepsTitle | xl/media.py:234-252 | tags other than title leave the title alone |
| Media.LastTitleWins | xl/media.py:234-252 | when the callback does not raise, the last title tag sets the title |
| Media.RadioRaisesOnlyOnBadBitrate | xl/media.py:707-718 | a radio track's callback does not raise when every bitrate it reaches is a number |
| Media.PlayLocation | xl/media.py:740-820 | only radio and podcast tracks move; a .pls/.m3u location is replaced by the scanned entry |
| Media.Engine.SetVolume | xl/media.py:108-113 | nothing on a "win" platform; otherwise the volume is stored as given; only the volume may change |
| Media.Engine.Connect | xl/media.py:425-446 | a fresh handler id, not connected before, is added; only the handlers and the id counter change, and every connected id stays below the counter |
| Media.Engine.Disconnect | xl/media.py:491-504 | exactly that handler is removed; nothing else changes |
| Media.Track.SetInfo | xl/media.py:173-203 | the fields take the arguments, the track number through int() when possible; the track is stopped with no connections |
| Media.Track.constructor | xl/media.py:153-171 | as written (InitToSetInfo): a stopped track with genre in disc id, track in genre, length in track, bitrate in length and modified in year; a Stream track is titled "Stream: " plus its location with its location as album and an empty track; a CD track "Track " plus its number |
| Media.Track.IsPlaying | xl/media.py:448-454 | true exactly when the playing code is 1 |
| Media.Track.IsPaused | xl/media.py:456-462 | true exactly when the playing code is 2 |
| Media.Track.ResolveLocation | xl/media.py:740-820 | the location becomes PlayLocation of the old one; a scanned location is also stored as `location`; nothing else changes |
| Media.Track.Start | xl/media.py:425-446 | the control fields follow Playback.Apply for play and the pipeline is playing; a non-resume play sets the URI and the continuation and connects one new handler, a resume changes neither; the engine stays valid and the track's handlers connected, and tags, locations and position are untouched |
| Media.Track.Play | xl/media.py:425-446 | the location becomes PlayLocation of the old one; the control fields follow Playback.Apply for play; a non-resume play connects one new handler and hands the pipeline PlayUri; the engine stays valid, the handlers connected, and the tags untouched, so play can follow pause or stop |
| Media.Track.Pause | xl/media.py:477-489 | with a player, the state follows Playback.Apply for pause and the pipeline goes to NULL for a stream kind and to PAUSED otherwise; only the playing state and the pipeline state change |
| Media.Track.Stop | xl/media.py:491-504 | the track is stopped; a podcast returns to its URL; stream_loc is dropped; with a player every held handler is disconnected, the pipeline goes to READY, and the engine stays valid; tags, continuation and position are untouched |
| Media.Track.Seek | xl/media.py:464-475 | with a player, both the position and the seek target are the (possibly fractional) seconds times gst.SECOND, with no range check; only those two change |
| Media.Track.SubmitToScrobbler | xl/media.py:529-542 | a submission starts exactly when the scrobble guard holds, following Playback.Apply; only the scrobble flag changes |
| Media.Track.FoundTagCallback | xl/media.py:234-252 | the tags and the raise are those of FoundTagResult over the tag list; only the tags change |
| Tabs.TabLabel | xlgui/main.py:324-326 | a name of at most 20 characters is kept; a longer one becomes its first 20 plus "..." |
| Tabs.TabLabelIdempotent | xlgui/main.py:324-326 | labels are at most 23 long and labelling a label changes nothing |
| Tabs.TagFor | xlgui/main.py:294-311 | "playing." exactly for the queue's tab; "current." exactly for the current page when it is not the queue's |
| Tabs.SaveCurrentTabs | xlgui/main.py:294-311 | one saved name per tab, carrying its order, its tag and its name |
| Tabs.RemoveOrderTags | xlgui/main.py:254-292 | the substitution never lengthens the text |
| Tabs.RemoveNoOrderTag | xlgui/main.py:254-292 | a name without an order tag is unchanged |
| Tabs.RemoveAfterPlainPrefix | xlgui/main.py:254-292 | a prefix without 'o' is kept and the rest is substituted alone |
| Tabs.DecodeSavedName | xlgui/main.py:254-311 | for tab indices 0 to 9, decoding a saved name recovers the name and its tag |
| Tabs.TenthTabKeepsOrderTag | xlgui/main.py:254-311 | the eleventh tab's "order10." prefix is not removed |
| Tabs.LoadSavedTabs | xlgui/main.py:254-292 | the loop, as written, yields exactly LoadResult without reopening a "current." tab reached while the queue has a playlist |
| Tabs.LastTagged | xlgui/main.py:254-292 | the last saved tab with the given tag, or -1 |
| Tabs.LoadOneShape | xlgui/main.py:254-292 | an iteration that opens a tab appends its decoded name and emptiness; a "current." tab reached while the queue has a playlist is not opened, and tabs and queue stay as they were |
| Tabs.QueueNoneOnlyAtStart | xlgui/main.py:254-339 | the queue has no playlist after loading exactly when it had none and nothing was loaded |
| Tabs.Kept | xlgui/main.py:254-292 | the opened saved tabs are a subsequence of the saved ones, every one except a "current." tab reached after the first while the queue has a playlist |
| Tabs.KeptAll | xlgui/main.py:254-292 | the corrected load opens every saved tab |
| Tabs.KeptNoCurrent | xlgui/main.py:254-292 | without "current." tabs every saved tab is opened |
| Tabs.KeptAppendPlain | xlgui/main.py:254-292 | saved tabs without a "current." tag are all opened after the ones before them |
| Tabs.KeptOneCurrent | xlgui/main.py:254-292 | with one "current." tab, at c, all saved tabs are opened, or all but tab c when it is dropped |
| Tabs.KeptSnoc | xlgui/main.py:254-292 | one more saved tab is opened exactly when KeepsAt holds |
| Tabs.LoadSnoc | xlgui/main.py:254-292 | one more saved tab appends its decoded name and emptiness exactly when it is opened |
| Tabs.LoadOneQueue | xlgui/main.py:254-292 | a "playing." tab takes the queue; any other tab leaves a non-empty playlist in place |
| Tabs.LoadOneCounts | xlgui/main.py:254-292 | an iteration records the saved tab's number (not the opened tab's position) in count for "current." and in count2 for "playing." |
| Tabs.LoadNames | xlgui/main.py:254-292 | after loading, the tabs are the decoded names of the opened saved tabs (Kept), in order |
| Tabs.DecodedNamesAt | xlgui/main.py:254-292 | name k of the decoded names is saved tab k's decoded name |
| Tabs.LoadEmpties | xlgui/main.py:254-292 | one tab per opened saved tab, and tab k's emptiness is that saved tab's |
| Tabs.LoadShape | xlgui/main.py:254-292 | tab k holds the decoded name and emptiness of opened saved tab k |
| Tabs.LoadCounts | xlgui/main.py:254-292 | count is the last "current." saved index (or -1) and count2 the last "playing." saved index (or 0) |
| Tabs.LastTaggedIs | xlgui/main.py:254-292 | characterises the last tagged index |
| Tabs.LastTaggedNone | xlgui/main.py:254-292 | no tagged tab gives -1 |
| Tabs.PageSelection | xlgui/main.py:254-292 | the page is the saved index of the last "current." tab, else of the last "playing." tab, else 0 |
| Tabs.QueueHeld | xlgui/main.py:254-339 | a non-empty "playing." saved tab j holds the queue to the end when no later "playing." tab comes; its tab is the one after the tabs opened before it |
| Tabs.QueueStepKept | xlgui/main.py:254-339 | a tab that is not "playing." leaves a non-empty tab in the queue |
| Tabs.QueueStepTaken | xlgui/main.py:254-339 | a non-empty "playing." tab is opened and takes the queue |
| Tabs.PlayingTabHoldsQueue | xlgui/main.py:254-339 | the last non-empty "playing." saved tab ends as the queue's playlist, at its opened position |
| Tabs.QueueKeptWithoutPlayingTab | xlgui/main.py:254-339 | a queue with a non-empty playlist keeps it when no tab is tagged "playing." |
| Tabs.UntaggedTabFillsEmptyQueue | xlgui/main.py:254-339 | an untagged tab becomes the queue's playlist whenever the queue's playlist is none or empty, and leaves a non-empty one alone |
| Tabs.SaveLoadRoundTrip | xlgui/main.py:254-311 | as written, saving up to ten tabs and loading them selects the same page number, but reopens the selected tab only when it is the queue's tab or the first tab loaded into an empty queue; otherwise it is left out and the queue's tab after it moves down by one |
| Tabs.SavedDecodes | xlgui/main.py:254-311 | up to ten saved plain names decode back to their names and tags |
| Tabs.SavedPage | xlgui/main.py:254-311 | reloading saved tabs, as written or corrected, selects the saved page number |
| Tabs.SavedTabs | xlgui/main.py:254-311 | reloading reopens all saved names, or all but the selected one when loading as written drops it |
| Tabs.SavedQueue | xlgui/main.py:254-339 | the queue gets the saved queue tab back, moved down by one when loading as written drops the selected tab before it |
| Tabs.SaveLoadRoundTripCorrected | xlgui/main.py:254-311 | with every saved tab reopened, saving up to ten tabs and loading them reopens the same names, selects the same page and hands the queue its tab |
| Tabs.SelectedTabLost | xlgui/main.py:254-311 | tabs a, b, c saved with the queue on a and c selected reload as written as a, b with page 2 and the queue on a; the corrected load reopens a, b, c |
| Gui.Clamp | xlgui/main.py:52-87 | the result is in [0, 1], equals the input inside it, and is 0 or 1 outside |
| Gui.ClampMonotone | xlgui/main.py:52-87 | clamping keeps order and is idempotent |
| Gui.ProgressBar.SeekBegin | xlgui/main.py:49-50 | a drag starts; nothing else changes |
| Gui.ProgressBar.SeekEnd | xlgui/main.py:52-69 | a zero width fails; for a local track the player seeks to the clamped fraction of the duration and the drag ends; otherwise nothing changes |
| Gui.ProgressBar.SeekMotion | xlgui/main.py:71-87 | only for a local track, and only with a width, the bar shows the clamped fraction; no seek is sent |
| Gui.ProgressBar.PlaybackStart | xlgui/main.py:89-90 | the timer is recorded |
| Gui.ProgressBar.PlaybackEnd | xlgui/main.py:92-96 | the timer is removed and the bar emptied |
| Gui.SpatToggle | xlgui/main.py:474-488 | with a selection, its first track becomes the stop track, or is cleared when it already was |
| Gui.SpatTwice | xlgui/main.py:474-488 | choosing the same selection twice restores an absent or equal stop track and clears a different one |
| Gui.PlayQueue.OnSpatClicked | xlgui/main.py:474-488 | the stop track follows SpatToggle |
| Gui.DynamicCount | xlgui/main.py:696-714 | nothing without a playlist or providers; otherwise enough to reach 5 tracks, and 1 at 5 or more |
| Mpris.GetCaps | plugins/mpris/mpris_player.py:35-54 | all seven capability bits and no other |
| Mpris.GetStatus | plugins/mpris/mpris_player.py:121-150 | none without a playlist; playing 0/1/2 for playing, paused and stopped; random and repeat flags; go-to-next 0 |
| Mpris.StatusOfPlayState | plugins/mpris/mpris_player.py:121-150 | the MPRIS playing field is the track's playing code shifted round by two |
| Mpris.StatusDecodes | plugins/mpris/mpris_player.py:121-150 | the status struct decodes back to the state and flags it came from |
| Mpris.PositionGet | plugins/mpris/mpris_player.py:197-202 | nanoseconds to milliseconds, truncated toward zero |
| Mpris.PositionGetAfterSeek | plugins/mpris/mpris_player.py:186-202 | a position set in milliseconds reads back unchanged; a negative position truncates toward zero |
| Mpris.GetMetadata | plugins/mpris/mpris_player.py:153-159 | empty without a current track, the converter's map otherwise |
| Mpris.MprisPlayer.Next | plugins/mpris/mpris_player.py:75-79 | forwards next to the queue |
| Mpris.MprisPlayer.Prev | plugins/mpris/mpris_player.py:82-86 | forwards prev to the queue |
| Mpris.MprisPlayer.Pause | plugins/mpris/mpris_player.py:89-93 | forwards toggle_pause |
| Mpris.MprisPlayer.Stop | plugins/mpris/mpris_player.py:96-100 | forwards stop |
| Mpris.MprisPlayer.Play | plugins/mpris/mpris_player.py:103-111 | while playing, restarts the current track; otherwise asks the queue to play |
| Mpris.MprisPlayer.Repeat | plugins/mpris/mpris_player.py:114-118 | changes nothing |
| Mpris.MprisPlayer.VolumeSet | plugins/mpris/mpris_player.py:169-176 | stores volume/100 for any volume |
| Mpris.MprisPlayer.PositionSet | plugins/mpris/mpris_player.py:186-194 | fails without a current track; seeks to millisec/1000 seconds exactly when 0 <= millisec <= length*1000; otherwise ignored |
| Mpris.PositionSetRange | plugins/mpris/mpris_player.py:186-194 | the accepted range is exactly 0 to length*1000, and a seek stays inside the track |

## Left out

- Media.Track.constructor: the Radio and Podcast constructors that read an info dictionary, and the attributes the constructor sets but nothing modelled reads (time_played, read_from_db, ipod_playlist, type), are not modelled.
- Media.Track.Start: threads are sequential steps; `urllib.quote` is a `quote` parameter and `urlopen` a `fetch` parameter (Media.Track.ResolveLocation).
- Media.Track.Seek: the target is kept as an exact real number of nanoseconds; how `gst.event_new_seek` converts a fractional value to its 64-bit time, and what the pipeline then does, are not modelled.
- Media.Track.SubmitToScrobbler: the submission thread and its network call (`submit`) are not modelled; `hasSession` stands for a successful `get_scrobbler_session`.
- get_scrobbler_session (xl/media.py:65-84): Last.fm authentication is network I/O.
- get_volume (xl/media.py:116-120): it only reads the player's property; the volume field is the model of it.
- Track.get_position, current_position, full_status, get_len/set_len: floating point and the wall clock (time.localtime).
- Track.ipod_track, the database `write_tag`, `__str__`, get_rating/set_rating: database and device layers, not part of the playback core.
- GSTTrack.read_tag: a polling loop on the GStreamer bus with a timeout; GStreamer is not modelled.
- WMATrack and M4ATrack tag codecs: they wrap foreign libraries (mmpython, mutagen MP4) whose key tables are outside this source.
- Mp3/Ogg/Flac length and bitrate reading: they come from the audio libraries.
- Media.TagStep: GStreamer tag values for title, artist and album are taken through `str()`; the order of keys in the tag dictionary is the order of the input sequence.
- main.py `load_saved_tabs` sorts the stored names; the model takes them in stored order. This is the same order for the at most ten tabs the round-trip lemma covers.
- Tabs.LoadSavedTabs: `set_current_page` is modelled as the number passed; what the notebook does with a number past its last page is not modelled.
- Tabs.SaveCurrentTabs: the source renames each live playlist in place and saves it to the store; the model returns the saved names instead, so the renamed playlists left open until quit are not modelled.
- Python 2 `str` is a byte string, and the model treats text as a sequence of characters. So `len(name) > 20` in `add_playlist` (xlgui/main.py:324-326) counts bytes, not characters, for non-ASCII names; `get_title` decodes the title as UTF-8; and in MP3 `write_tag` (xl/media.py:943-948) `unicode()` of a non-ASCII value raises and the bare `except` skips that frame. None of these is modelled.
- Vorbis.FlacWrite: the disc id is handed to mutagen raw; how mutagen stores or rejects a value that is not a `str` (an int disc id) is outside this source.
- Media.Track.constructor: for Radio and Podcast tracks only the StreamTrack part is modelled, so the title, album, artist and bitrate RadioTrack.__init__ then copies from its info dictionary (xl/media.py:693-700) are not; the constructor's "Stream: " title is promised for Stream tracks only.
- `set_current_playlist` is modelled as a plain assignment, and the main window's queue as the player's queue.
- timer_update and _set_bar_text (xlgui/main.py:98-145): they format times from floating-point positions.
- Mpris VolumeGet (plugins/mpris/mpris_player.py:179-184): it reads the settings store. The D-Bus signals and their callbacks (204-251) are transport only.
- Mpris.GetMetadata: the tag converter is a function parameter.
- last_audio_sink and the timetype class are not modelled.

## Findings

| source | as written | input that shows it | evidently intended | confidence | as-written member | corrected member |
|---|---|---|---|---|---|---|
| xl/media.py:994-1006 | the track part of "N/M" goes through the `track` property, whose getter turns a non-integer into -1 without raising, so the disc part is still stored | TRCK text "x/3" gives track -1 and disc 3 | any non-integer part gives the unknown pair (-1, -1) | not executed | Id3.ParseTrckKeepsDiscOnBadTrack | Id3.ParseTrckStrictSpec |
| xlgui/main.py:273-278 | a "current." tab is opened (add_playlist) only inside `if self.queue.current_playlist == None`, so once the queue has a playlist the selected tab is not reopened, while count still records its saved index | tabs a, b, c saved with the queue on a and c selected reload as a, b with page 2 selected | every saved tab is reopened, and only the queue assignment depends on the test | not executed | Tabs.SelectedTabLost | Tabs.SaveLoadRoundTripCorrected |
| xl/media.py:153-175 | `__init__` passes its arguments to `set_info` by position but leaves out `disc_id`, so from genre on each argument lands one parameter early | CDTrack(3, length=245) stores track number 245 and length 0 | each argument reaches the parameter of its own name | not executed | TrackValues.CDTrackInitShift | TrackValues.InitToSetInfoIntended |

The operations themselves are modelled as written: `Id3.Mp3Read` parses TRCK with `Id3.ParseTrck`, `Media.Track.constructor` goes through `TrackValues.InitToSetInfo`, and `Tabs.LoadSavedTabs` is `Tabs.LoadResult` without reopening. The corrected definitions (`Id3.ParseTrckStrict`, `TrackValues.InitToSetInfoIntended`, `Tabs.LoadResult` with reopening) stand beside them with their intended properties proved.
