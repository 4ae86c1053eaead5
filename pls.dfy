// The playlist-file scan of RadioTrack._play (xl/media.py): when a radio
// location ends in .pls or .m3u, the fetched file's lines are searched for
// the first playable entry. Fetching the URL is not modelled: the lines are
// the input.

module Pls {
  import opened PyText

  /** The number of decimal digits s starts with. */
  function DigitRun(s: string): (n: nat)
    ensures n <= |s| && AllDigits(s[..n])
    ensures n < |s| ==> !IsDigit(s[n])
  {
    if s != [] && IsDigit(s[0]) then
      var n := 1 + DigitRun(s[1..]);
      assert s[..n] == [s[0]] + s[1..][..n - 1];
      n
    else 0
  }

  /** The length of a match of the pattern File, digits, '=' at the start
      of s; 0 when there is none. */
  function FileTagLength(s: string): (n: nat)
    ensures n <= |s|
    ensures n > 0 ==> n >= 6 && StartsWith(s, "File") && s[n - 1] == '='
    ensures n > 0 <==> StartsWith(s, "File") && DigitRun(s[4..]) > 0
                       && 4 + DigitRun(s[4..]) < |s| && s[4 + DigitRun(s[4..])] == '='
    ensures n > 0 ==> n == 5 + DigitRun(s[4..])
  {
    if StartsWith(s, "File") then
      var d := DigitRun(s[4..]);
      if d > 0 && 4 + d < |s| && s[4 + d] == '=' then 5 + d else 0
    else 0
  }

  /** re.sub("File\d+=", "", s): every non-overlapping match, scanning left
      to right, is removed. */
  function RemoveFileTags(s: string): (r: string)
    ensures |r| <= |s|
    decreases |s|
  {
    if s == [] then []
    else
      var m := FileTagLength(s);
      if m > 0 then RemoveFileTags(s[m..]) else [s[0]] + RemoveFileTags(s[1..])
  }

  /** No match of File, digits, '=' starts anywhere in s. */
  predicate NoFileTag(s: string)
  {
    forall i :: 0 <= i < |s| ==> FileTagLength(s[i..]) == 0
  }

  /** Without a match the substitution leaves the text unchanged. */
  lemma {:induction false} RemoveNoFileTag(s: string)
    requires NoFileTag(s)
    ensures RemoveFileTags(s) == s
  {
    if s != [] {
      assert s[0..] == s;
      forall i | 0 <= i < |s[1..]|
        ensures FileTagLength(s[1..][i..]) == 0
      {
        assert s[1..][i..] == s[i + 1..];
      }
      RemoveNoFileTag(s[1..]);
    }
  }

  /** A stripped line the scan stops at: it holds '=' and starts with
      "File". Comment lines ("#...") and the "[playlist]" header can never
      be one, nor can any line without '='. */
  predicate Chosen(line: string)
  {
    var l := Strip(line);
    '=' in l && StartsWith(l, "File")
  }

  /** What the scan keeps of a chosen line. */
  function Entry(line: string): string
  {
    RemoveFileTags(Strip(line))
  }

  /** The index of the first chosen line, or -1. */
  function FirstChosen(lines: seq<string>): (k: int)
    ensures -1 <= k < |lines|
    ensures k >= 0 ==> Chosen(lines[k])
    ensures forall j :: 0 <= j < |lines| && (k < 0 || j < k) ==> !Chosen(lines[j])
  {
    if lines == [] then -1
    else if Chosen(lines[0]) then 0
    else
      var k := FirstChosen(lines[1..]);
      assert forall j :: 1 <= j < |lines| ==> lines[j] == lines[1..][j - 1];
      if k < 0 then -1 else k + 1
  }

  /** The scan's two skip rules never skip a chosen line: a comment cannot
      start with "File" and the header holds no '='. */
  lemma SkippedNotChosen(line: string)
    requires StartsWith(Strip(line), "#") || Strip(line) == "[playlist]"
    ensures !Chosen(line)
  {
    var l := Strip(line);
    if StartsWith(l, "#") {
      assert l[0] == '#';
      if |l| >= 4 {
        assert l[..4][0] == '#';
      }
    } else {
      assert '=' !in "[playlist]";
    }
  }

  lemma FirstChosenAt(lines: seq<string>, i: nat)
    requires i < |lines| && Chosen(lines[i])
    requires forall j :: 0 <= j < i ==> !Chosen(lines[j])
    ensures FirstChosen(lines) == i
  {
  }

  /** The location the scan settles on. */
  function Located(lines: seq<string>): (loc: string)
    ensures FirstChosen(lines) < 0 ==> loc == ""
  {
    var k := FirstChosen(lines);
    if k < 0 then "" else Entry(lines[k])
  }

  /** The loop of RadioTrack._play: the location it settles on is the first
      line that holds '=' and starts with "File" (after strip), with its
      File<n>= tags removed, or "" when no line qualifies. */
  method ScanPlaylist(lines: seq<string>) returns (loc: string)
    ensures FirstChosen(lines) < 0 ==> loc == ""
    ensures FirstChosen(lines) >= 0 ==> loc == Entry(lines[FirstChosen(lines)])
    ensures loc == Located(lines)
  {
    loc := "";
    var i := 0;
    while i < |lines|
      invariant 0 <= i <= |lines|
      invariant forall j :: 0 <= j < i ==> !Chosen(lines[j])
      invariant loc == ""
    {
      var line := Strip(lines[i]);
      if StartsWith(line, "#") || line == "[playlist]" {
        SkippedNotChosen(lines[i]);
        i := i + 1;
        continue;
      }
      if '=' in line {
        if !StartsWith(line, "File") {
          i := i + 1;
          continue;
        }
        FirstChosenAt(lines, i);
        loc := RemoveFileTags(line);
        return;
      }
      i := i + 1;
    }
  }

  /** A plain m3u file (URLs without '=') never yields a location. */
  lemma M3uYieldsNothing(lines: seq<string>)
    requires forall i :: 0 <= i < |lines| ==> '=' !in Strip(lines[i])
    ensures FirstChosen(lines) == -1
  {
  }

  lemma {:induction false} DigitRunOfDigits(s: string, rest: string)
    requires AllDigits(s)
    requires rest == [] || !IsDigit(rest[0])
    ensures DigitRun(s + rest) == |s|
  {
    if s != [] {
      assert (s + rest)[1..] == s[1..] + rest;
      DigitRunOfDigits(s[1..], rest);
    } else {
      assert s + rest == rest;
    }
  }

  /** A standard .pls entry "File<n>=<url>" yields the url, with any further
      File<m>= occurrences in it removed too. */
  lemma PlsEntry(n: nat, url: string)
    ensures RemoveFileTags("File" + ShowNat(n) + "=" + url) == RemoveFileTags(url)
  {
    var s := "File" + ShowNat(n) + "=" + url;
    var d := |ShowNat(n)|;
    assert s[4..] == ShowNat(n) + ("=" + url);
    DigitRunOfDigits(ShowNat(n), "=" + url);
    assert s[..4] == "File";
    assert s[4 + d] == '=';
    assert FileTagLength(s) == 5 + d;
    assert s[5 + d..] == url;
  }
}
