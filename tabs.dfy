// The playlist-tab persistence of MainWindow (xlgui/main.py): on quit each
// open tab is saved under "order<i>.<tag><name>", and on start the saved
// names are decoded, the tabs reopened, the queue's playlist chosen and a
// page selected. The playlist store and the notebook widget are not
// modelled: saving returns the stored names and loading takes them in the
// order the store lists them.

module Tabs {
  import opened PyText

  /** add_playlist's tab label: a name over 20 characters is cut to its
      first 20 and "..." appended. */
  function TabLabel(name: string): (r: string)
    ensures |name| <= 20 ==> r == name
    ensures |name| > 20 ==> |r| == 23 && r[..20] == name[..20] && r[20..] == "..."
  {
    if |name| > 20 then name[..20] + "..." else name
  }

  /** Labels are at most 23 characters and labelling a label changes
      nothing. */
  lemma TabLabelIdempotent(name: string)
    ensures |TabLabel(name)| <= 23
    ensures TabLabel(TabLabel(name)) == TabLabel(name)
  {
    var r := TabLabel(name);
    if |name| > 20 {
      assert r[..20] + r[20..] == r;
    }
  }

  /** The tag a saved name carries after its order prefix. */
  datatype Tag = NoTag | CurrentTag | PlayingTag

  function TagText(t: Tag): string
  {
    match t
    case NoTag => ""
    case CurrentTag => "current."
    case PlayingTag => "playing."
  }

  /** The name tab i is saved under. */
  function SavedName(i: nat, t: Tag, name: string): string
  {
    "order" + ShowNat(i) + "." + TagText(t) + name
  }

  /** save_current_tabs' choice of tag: "playing." for the queue's current
      playlist (`queueTab`, when it is one of the tabs), otherwise
      "current." for the selected page, otherwise none. */
  function TagFor(i: nat, currentPage: int, queueTab: Option<nat>): (t: Tag)
    ensures t == PlayingTag <==> queueTab == Some(i)
    ensures t == CurrentTag <==> queueTab != Some(i) && i == currentPage
  {
    if queueTab == Some(i) then PlayingTag
    else if i == currentPage then CurrentTag
    else NoTag
  }

  /** save_current_tabs: the stored names, one per tab in page order. */
  method SaveCurrentTabs(names: seq<string>, currentPage: int, queueTab: Option<nat>) returns (saved: seq<string>)
    ensures |saved| == |names|
    ensures forall i :: 0 <= i < |names| ==> saved[i] == SavedName(i, TagFor(i, currentPage, queueTab), names[i])
  {
    saved := [];
    for i := 0 to |names|
      invariant |saved| == i
      invariant forall j :: 0 <= j < i ==> saved[j] == SavedName(j, TagFor(j, currentPage, queueTab), names[j])
    {
      var tag := NoTag;
      if queueTab == Some(i) {
        tag := PlayingTag;
      } else if i == currentPage {
        tag := CurrentTag;
      }
      saved := saved + [SavedName(i, tag, names[i])];
    }
  }

  /** A match of the pattern order, one digit, '.' at the start of s. */
  predicate OrderTagAt(s: string)
  {
    |s| >= 7 && s[..5] == "order" && IsDigit(s[5]) && s[6] == '.'
  }

  /** re.sub(r'order\d\.', '', s): every non-overlapping match, scanning
      left to right, is removed. */
  function RemoveOrderTags(s: string): (r: string)
    ensures |r| <= |s|
    decreases |s|
  {
    if s == [] then []
    else if OrderTagAt(s) then RemoveOrderTags(s[7..])
    else [s[0]] + RemoveOrderTags(s[1..])
  }

  predicate NoOrderTag(s: string)
  {
    forall i :: 0 <= i < |s| ==> !OrderTagAt(s[i..])
  }

  lemma {:induction false} RemoveNoOrderTag(s: string)
    requires NoOrderTag(s)
    ensures RemoveOrderTags(s) == s
  {
    if s != [] {
      assert s[0..] == s;
      forall i | 0 <= i < |s[1..]|
        ensures !OrderTagAt(s[1..][i..])
      {
        assert s[1..][i..] == s[i + 1..];
      }
      RemoveNoOrderTag(s[1..]);
    }
  }

  /** A prefix without the letter 'o' holds no match and cannot start one. */
  lemma {:induction false} RemoveAfterPlainPrefix(p: string, s: string)
    requires 'o' !in p
    ensures RemoveOrderTags(p + s) == p + RemoveOrderTags(s)
  {
    if p != [] {
      assert (p + s)[0] == p[0];
      RemoveAfterPlainChar(p + s);
      assert (p + s)[1..] == p[1..] + s;
      assert 'o' !in p[1..] by {
        assert forall c :: c in p[1..] ==> c in p;
      }
      RemoveAfterPlainPrefix(p[1..], s);
      assert [p[0]] + (p[1..] + RemoveOrderTags(s)) == p + RemoveOrderTags(s);
    } else {
      assert p + s == s;
    }
  }

  /** A first character other than 'o' starts no match and is kept. */
  lemma RemoveAfterPlainChar(s: string)
    requires s != [] && s[0] != 'o'
    ensures RemoveOrderTags(s) == [s[0]] + RemoveOrderTags(s[1..])
  {
    assert !OrderTagAt(s) by {
      if |s| >= 7 {
        assert s[..5][0] == s[0];
      }
    }
  }

  /** load_saved_tabs' decoding: order tags removed, then a leading
      "current." or "playing." taken off as the tab's tag. */
  function DecodeName(raw: string): (r: (string, Tag))
  {
    var n := RemoveOrderTags(raw);
    if StartsWith(n, "current.") then (n[8..], CurrentTag)
    else if StartsWith(n, "playing.") then (n[8..], PlayingTag)
    else (n, NoTag)
  }

  /** A name that decodes to itself: no order tag inside, and no
      "current." or "playing." at its start. */
  predicate PlainName(name: string)
  {
    NoOrderTag(name) && !StartsWith(name, "current.") && !StartsWith(name, "playing.")
  }

  /** Saving then decoding recovers the name and its tag for tab indices 0
      to 9, when the name holds no order tag and, if untagged, does not
      itself start like a tag. */
  lemma DecodeSavedName(i: nat, t: Tag, name: string)
    requires i <= 9 && NoOrderTag(name)
    requires t == NoTag ==> !StartsWith(name, "current.") && !StartsWith(name, "playing.")
    ensures DecodeName(SavedName(i, t, name)) == (name, t)
  {
    var s := SavedName(i, t, name);
    assert ShowNat(i) == [DigitChar(i)];
    assert s == "order" + [DigitChar(i)] + "." + (TagText(t) + name);
    assert OrderTagAt(s);
    assert s[7..] == TagText(t) + name;
    RemoveAfterPlainPrefix(TagText(t), name);
    RemoveNoOrderTag(name);
    var n := TagText(t) + name;
    assert RemoveOrderTags(s) == n;
    match t
    case NoTag =>
      assert n == name;
    case CurrentTag =>
      assert n[..8] == "current." && n[8..] == name;
    case PlayingTag =>
      assert n[..8] == "playing." && n[8..] == name;
      assert n[0] == 'p';
  }

  /** The eleventh tab (index 10) is not recovered: "order10." is no
      match, so the whole saved name comes back. */
  lemma TenthTabKeepsOrderTag()
    ensures DecodeName(SavedName(10, NoTag, "x")) == ("order10.x", NoTag)
  {
    TenthSavedName();
    TenthNameHasNoMatch();
    var s := "order10.x";
    assert !StartsWith(s, "current.") && !StartsWith(s, "playing.") by {
      assert s[0] == 'o';
    }
  }

  lemma TenthSavedName()
    ensures SavedName(10, NoTag, "x") == "order10.x"
  {
    assert ShowNat(10) == ShowNat(1) + [DigitChar(0)];
  }

  /** "order10." is no match: the digit is followed by another digit. */
  lemma TenthNameHasNoMatch()
    ensures RemoveOrderTags("order10.x") == "order10.x"
  {
    var s := "order10.x";
    assert !OrderTagAt(s) by {
      assert s[6] == '0';
    }
    var rest := "rder10.x";
    assert s[1..] == rest + "";
    RemoveAfterPlainPrefix(rest, "");
  }

  /** A saved tab as the store returns it, and whether its playlist is
      empty (an empty playlist is false in Python). */
  datatype SavedTab = SavedTab(name: string, empty: bool)

  /** The queue's current playlist: none, one that is not a tab, or the
      playlist of tab i. */
  datatype QueueRef = NoPlaylist | Other(empty: bool) | Tab(index: nat)

  /** The variables of load_saved_tabs: the opened tabs' names and
      emptiness, count, count2, and the queue's current playlist. */
  datatype LoadState = LoadState(tabs: seq<string>, empties: seq<bool>, count: int, count2: int, queue: QueueRef)

  function Start(queue0: Option<bool>): LoadState
  {
    LoadState([], [], -1, 0, match queue0 case None => NoPlaylist case Some(e) => Other(e))
  }

  /** `not queue.current_playlist`: none, or an empty playlist. */
  predicate Falsy(q: QueueRef, empties: seq<bool>)
  {
    match q
    case NoPlaylist => true
    case Other(e) => e
    case Tab(i) => i < |empties| && empties[i]
  }

  /** add_playlist: the tab is appended, and becomes the queue's playlist
      when the queue's playlist is false. */
  function AddTab(s: LoadState, name: string, empty: bool): LoadState
  {
    s.(tabs := s.tabs + [name], empties := s.empties + [empty],
       queue := if Falsy(s.queue, s.empties) then Tab(|s.tabs|) else s.queue)
  }

  /** The decoded tag of a saved tab. */
  function TagOf(t: SavedTab): Tag
  {
    DecodeName(t.name).1
  }

  /** Whether an iteration opens a tab. As written (`reopen` false) a
      "current." tab is opened only while the queue has no playlist at all
      (`== None`); the corrected loop (`reopen` true) opens every tab. */
  predicate Opens(s: LoadState, t: SavedTab, reopen: bool)
  {
    TagOf(t) != CurrentTag || reopen || s.queue == NoPlaylist
  }

  /** One iteration of load_saved_tabs over saved tab number i. */
  function LoadOne(s: LoadState, t: SavedTab, i: nat, reopen: bool): LoadState
  {
    var (name, tag) := DecodeName(t.name);
    match tag
    case CurrentTag =>
      if s.queue == NoPlaylist then AddTab(s.(count := i), name, t.empty).(queue := Tab(|s.tabs|))
      else if reopen then AddTab(s.(count := i), name, t.empty)
      else s.(count := i)
    case PlayingTag =>
      AddTab(s.(count2 := i), name, t.empty).(queue := Tab(|s.tabs|))
    case NoTag =>
      AddTab(s, name, t.empty)
  }

  /** The loop over the first |stored| saved tabs. */
  function LoadAll(init: LoadState, stored: seq<SavedTab>, reopen: bool): LoadState
    decreases |stored|
  {
    if stored == [] then init
    else LoadOne(LoadAll(init, stored[..|stored| - 1], reopen), stored[|stored| - 1], |stored| - 1, reopen)
  }

  /** The page selected at the end: count, or count2 when no tab was
      tagged "current.". */
  function Page(s: LoadState): int
  {
    if s.count == -1 then s.count2 else s.count
  }

  /** What loading leaves: the tab names, the page passed to
      set_current_page and the queue's playlist. */
  datatype Loaded = Loaded(tabs: seq<string>, page: int, queue: QueueRef)

  /** load_saved_tabs: without the open-last option or saved tabs, one new
      empty playlist named `freshName` is opened. */
  function LoadResult(openLast: bool, stored: seq<SavedTab>, queue0: Option<bool>, freshName: string, reopen: bool): Loaded
  {
    if !openLast || stored == [] then
      var s := AddTab(Start(queue0), freshName, true);
      Loaded(s.tabs, 0, s.queue)
    else
      var s := LoadAll(Start(queue0), stored, reopen);
      Loaded(s.tabs, Page(s), s.queue)
  }

  lemma LoadAllStep(init: LoadState, stored: seq<SavedTab>, i: nat, reopen: bool)
    requires i < |stored|
    ensures LoadAll(init, stored[..i + 1], reopen) == LoadOne(LoadAll(init, stored[..i], reopen), stored[i], i, reopen)
  {
    assert stored[..i + 1][..i] == stored[..i];
  }

  /** load_saved_tabs as written. */
  method LoadSavedTabs(openLast: bool, stored: seq<SavedTab>, queue0: Option<bool>, freshName: string)
    returns (r: Loaded)
    ensures r == LoadResult(openLast, stored, queue0, freshName, false)
  {
    var queue := match queue0 case None => NoPlaylist case Some(e) => Other(e);
    var tabs: seq<string> := [];
    var empties: seq<bool> := [];
    if !openLast || stored == [] {
      if Falsy(queue, empties) {
        queue := Tab(0);
      }
      return Loaded([freshName], 0, queue);
    }
    var count := -1;
    var count2 := 0;
    for i := 0 to |stored|
      invariant LoadState(tabs, empties, count, count2, queue) == LoadAll(Start(queue0), stored[..i], false)
    {
      LoadAllStep(Start(queue0), stored, i, false);
      // the order tag is removed, then a "current." or "playing." prefix
      var (name, tag) := DecodeName(stored[i].name);
      var add := true;
      var takeQueue := false;
      if tag == CurrentTag {
        count := i;
        add := queue == NoPlaylist;
        takeQueue := add;
      } else if tag == PlayingTag {
        count2 := i;
        takeQueue := true;
      }
      if add {
        var at := |tabs|;
        // add_playlist, then set_current_playlist for a tagged tab
        if Falsy(queue, empties) {
          queue := Tab(at);
        }
        tabs := tabs + [name];
        empties := empties + [stored[i].empty];
        if takeQueue {
          queue := Tab(at);
        }
      }
    }
    assert stored[..|stored|] == stored;
    if count == -1 {
      count := count2;
    }
    r := Loaded(tabs, count, queue);
  }

  /** The index of the last saved tab with the given tag, or -1. */
  function LastTagged(stored: seq<SavedTab>, tag: Tag): (k: int)
    ensures -1 <= k < |stored|
    ensures k >= 0 ==> TagOf(stored[k]) == tag
    ensures forall j :: k < j < |stored| ==> TagOf(stored[j]) != tag
    decreases |stored|
  {
    if stored == [] then -1
    else if TagOf(stored[|stored| - 1]) == tag then |stored| - 1
    else LastTagged(stored[..|stored| - 1], tag)
  }

  /** One iteration either appends the decoded name and the emptiness, or,
      for a "current." tab it does not open, leaves tabs and queue as they
      were. */
  lemma LoadOneShape(s: LoadState, t: SavedTab, i: nat, reopen: bool)
    ensures Opens(s, t, reopen) ==>
      LoadOne(s, t, i, reopen).tabs == s.tabs + [DecodeName(t.name).0]
      && LoadOne(s, t, i, reopen).empties == s.empties + [t.empty]
    ensures !Opens(s, t, reopen) ==>
      LoadOne(s, t, i, reopen).tabs == s.tabs && LoadOne(s, t, i, reopen).empties == s.empties
      && LoadOne(s, t, i, reopen).queue == s.queue
  {
  }

  /** The queue has no playlist after loading exactly when it had none
      before and nothing was loaded: every opened tab fills a false queue,
      and the first saved tab is always opened while it has none. */
  lemma {:induction false} QueueNoneOnlyAtStart(q0: Option<bool>, stored: seq<SavedTab>, reopen: bool)
    ensures LoadAll(Start(q0), stored, reopen).queue == NoPlaylist <==> q0 == None && stored == []
    decreases |stored|
  {
    if stored != [] {
      QueueNoneOnlyAtStart(q0, stored[..|stored| - 1], reopen);
    }
  }

  /** The saved tabs that are opened, in order: every one but a "current."
      tab reached while the queue already has a playlist, unless
      `reopen`. The queue has none only before the first tab (see
      QueueNoneOnlyAtStart). */
  function Kept(q0: Option<bool>, stored: seq<SavedTab>, reopen: bool): (r: seq<SavedTab>)
    ensures |r| <= |stored|
    decreases |stored|
  {
    if stored == [] then []
    else
      var k := |stored| - 1;
      var rest := Kept(q0, stored[..k], reopen);
      if KeepsAt(q0, stored[k], k, reopen) then rest + [stored[k]] else rest
  }

  /** Whether saved tab number k is opened. */
  predicate KeepsAt(q0: Option<bool>, t: SavedTab, k: nat, reopen: bool)
  {
    TagOf(t) != CurrentTag || reopen || (q0 == None && k == 0)
  }

  lemma KeptSnoc(q0: Option<bool>, init: seq<SavedTab>, t: SavedTab, reopen: bool)
    ensures Kept(q0, init + [t], reopen) ==
      Kept(q0, init, reopen) + (if KeepsAt(q0, t, |init|, reopen) then [t] else [])
  {
    assert (init + [t])[..|init|] == init;
  }

  /** One more saved tab appends its decoded name and emptiness exactly
      when it is kept. */
  lemma LoadSnoc(q0: Option<bool>, init: seq<SavedTab>, t: SavedTab, reopen: bool)
    ensures var s := LoadAll(Start(q0), init, reopen); var s' := LoadAll(Start(q0), init + [t], reopen);
      s'.tabs == s.tabs + (if KeepsAt(q0, t, |init|, reopen) then [DecodeName(t.name).0] else [])
      && s'.empties == s.empties + (if KeepsAt(q0, t, |init|, reopen) then [t.empty] else [])
  {
    assert (init + [t])[..|init|] == init;
    QueueNoneOnlyAtStart(q0, init, reopen);
    LoadOneShape(LoadAll(Start(q0), init, reopen), t, |init|, reopen);
  }

  /** The corrected loop opens every saved tab. */
  lemma {:induction false} KeptAll(q0: Option<bool>, stored: seq<SavedTab>)
    ensures Kept(q0, stored, true) == stored
    decreases |stored|
  {
    if stored != [] {
      var init := stored[..|stored| - 1];
      assert init + [stored[|stored| - 1]] == stored;
      KeptAll(q0, init);
      KeptSnoc(q0, init, stored[|stored| - 1], true);
    }
  }

  /** Without "current." tabs every saved tab is opened. */
  lemma {:induction false} KeptNoCurrent(q0: Option<bool>, stored: seq<SavedTab>, reopen: bool)
    requires forall k :: 0 <= k < |stored| ==> TagOf(stored[k]) != CurrentTag
    ensures Kept(q0, stored, reopen) == stored
    decreases |stored|
  {
    if stored != [] {
      var init := stored[..|stored| - 1];
      assert forall k :: 0 <= k < |init| ==> init[k] == stored[k];
      assert init + [stored[|stored| - 1]] == stored;
      KeptNoCurrent(q0, init, reopen);
      KeptSnoc(q0, init, stored[|stored| - 1], reopen);
    }
  }

  /** Whether the "current." tab at c is left closed. */
  predicate Dropped(q0: Option<bool>, stored: seq<SavedTab>, c: nat, reopen: bool)
    requires c < |stored|
  {
    TagOf(stored[c]) == CurrentTag && !reopen && !(q0 == None && c == 0)
  }

  /** Appending saved tabs none of which is "current." appends them all
      to the opened ones. */
  lemma {:induction false} KeptAppendPlain(q0: Option<bool>, pre: seq<SavedTab>, post: seq<SavedTab>, reopen: bool)
    requires forall k :: 0 <= k < |post| ==> TagOf(post[k]) != CurrentTag
    ensures Kept(q0, pre + post, reopen) == Kept(q0, pre, reopen) + post
    decreases |post|
  {
    if post == [] {
      assert pre + post == pre;
    } else {
      var m := |post| - 1;
      var init := post[..m];
      assert pre + post == (pre + init) + [post[m]];
      assert init + [post[m]] == post;
      KeptAppendPlain(q0, pre, init, reopen);
      KeptSnoc(q0, pre + init, post[m], reopen);
    }
  }

  /** With at most one "current." tab, at c, the opened tabs are all saved
      tabs, or all but that one when it is dropped. */
  lemma KeptOneCurrent(q0: Option<bool>, stored: seq<SavedTab>, c: nat, reopen: bool)
    requires c < |stored|
    requires forall k :: 0 <= k < |stored| && k != c ==> TagOf(stored[k]) != CurrentTag
    ensures Kept(q0, stored, reopen) == if Dropped(q0, stored, c, reopen) then stored[..c] + stored[c + 1..] else stored
  {
    var pre := stored[..c];
    var post := stored[c + 1..];
    assert stored == (pre + [stored[c]]) + post;
    KeptNoCurrent(q0, pre, reopen);
    KeptSnoc(q0, pre, stored[c], reopen);
    KeptAppendPlain(q0, pre + [stored[c]], post, reopen);
    assert KeepsAt(q0, stored[c], c, reopen) == !Dropped(q0, stored, c, reopen);
  }

  /** The decoded names of the saved tabs, in order. */
  function DecodedNames(stored: seq<SavedTab>): (r: seq<string>)
    ensures |r| == |stored|
    decreases |stored|
  {
    if stored == [] then []
    else DecodedNames(stored[..|stored| - 1]) + [DecodeName(stored[|stored| - 1].name).0]
  }

  /** Name k of DecodedNames is saved tab k's decoded name. */
  lemma {:induction false} DecodedNamesAt(stored: seq<SavedTab>)
    ensures forall k :: 0 <= k < |stored| ==> DecodedNames(stored)[k] == DecodeName(stored[k].name).0
    decreases |stored|
  {
    if stored != [] {
      var init := stored[..|stored| - 1];
      DecodedNamesAt(init);
      forall k | 0 <= k < |init|
        ensures DecodedNames(stored)[k] == DecodeName(stored[k].name).0
      {
        assert init[k] == stored[k];
      }
    }
  }

  /** After loading, the tabs are the decoded names of the opened saved
      tabs, in order. */
  lemma {:induction false} LoadNames(q0: Option<bool>, stored: seq<SavedTab>, reopen: bool)
    ensures LoadAll(Start(q0), stored, reopen).tabs == DecodedNames(Kept(q0, stored, reopen))
    decreases |stored|
  {
    if stored != [] {
      var k := |stored| - 1;
      var init := stored[..k];
      assert init + [stored[k]] == stored;
      LoadNames(q0, init, reopen);
      LoadSnoc(q0, init, stored[k], reopen);
      KeptSnoc(q0, init, stored[k], reopen);
      var rest := Kept(q0, init, reopen);
      assert (rest + [stored[k]])[..|rest|] == rest;
    }
  }

  /** After loading, there is one tab per opened saved tab, and tab k's
      emptiness is that saved tab's. */
  lemma {:induction false} LoadEmpties(q0: Option<bool>, stored: seq<SavedTab>, reopen: bool)
    ensures var s := LoadAll(Start(q0), stored, reopen); var kept := Kept(q0, stored, reopen);
      |s.tabs| == |kept| && |s.empties| == |kept|
      && forall k :: 0 <= k < |kept| ==> s.empties[k] == kept[k].empty
    decreases |stored|
  {
    if stored != [] {
      var k := |stored| - 1;
      var init := stored[..k];
      assert init + [stored[k]] == stored;
      LoadEmpties(q0, init, reopen);
      LoadSnoc(q0, init, stored[k], reopen);
      KeptSnoc(q0, init, stored[k], reopen);
    }
  }

  /** After loading, tab k holds the decoded name and emptiness of opened
      saved tab k. */
  lemma LoadShape(q0: Option<bool>, stored: seq<SavedTab>, reopen: bool)
    ensures var s := LoadAll(Start(q0), stored, reopen); var kept := Kept(q0, stored, reopen);
      |s.tabs| == |kept| && |s.empties| == |kept|
      && (forall k :: 0 <= k < |kept| ==> s.tabs[k] == DecodeName(kept[k].name).0)
      && (forall k :: 0 <= k < |kept| ==> s.empties[k] == kept[k].empty)
  {
    LoadNames(q0, stored, reopen);
    DecodedNamesAt(Kept(q0, stored, reopen));
    LoadEmpties(q0, stored, reopen);
  }

  /** One iteration records the saved tab's number in count for a
      "current." tab and in count2 for a "playing." tab. */
  lemma LoadOneCounts(s: LoadState, t: SavedTab, i: nat, reopen: bool)
    ensures LoadOne(s, t, i, reopen).count == (if TagOf(t) == CurrentTag then i else s.count)
    ensures LoadOne(s, t, i, reopen).count2 == (if TagOf(t) == PlayingTag then i else s.count2)
  {
  }

  /** count is the last "current." saved index (or -1) and count2 the
      last "playing." saved index (or 0): indices into the saved list, not
      into the opened tabs. */
  lemma {:induction false} LoadCounts(q0: Option<bool>, stored: seq<SavedTab>, reopen: bool)
    ensures var s := LoadAll(Start(q0), stored, reopen);
      s.count == LastTagged(stored, CurrentTag)
      && s.count2 == (if LastTagged(stored, PlayingTag) >= 0 then LastTagged(stored, PlayingTag) else 0)
    decreases |stored|
  {
    if stored != [] {
      var k := |stored| - 1;
      LoadCounts(q0, stored[..k], reopen);
      LoadOneCounts(LoadAll(Start(q0), stored[..k], reopen), stored[k], k, reopen);
    }
  }

  lemma LastTaggedIs(stored: seq<SavedTab>, tag: Tag, k: nat)
    requires k < |stored| && TagOf(stored[k]) == tag
    requires forall j :: k < j < |stored| ==> TagOf(stored[j]) != tag
    ensures LastTagged(stored, tag) == k
  {
  }

  lemma LastTaggedNone(stored: seq<SavedTab>, tag: Tag)
    requires forall j :: 0 <= j < |stored| ==> TagOf(stored[j]) != tag
    ensures LastTagged(stored, tag) == -1
  {
  }

  /** Page selection: the saved index of the last "current." tab, else of
      the last "playing." tab, else 0. */
  lemma PageSelection(stored: seq<SavedTab>, q0: Option<bool>, freshName: string, reopen: bool)
    requires stored != []
    ensures var cur := LastTagged(stored, CurrentTag); var pl := LastTagged(stored, PlayingTag);
      LoadResult(true, stored, q0, freshName, reopen).page == (if cur >= 0 then cur else if pl >= 0 then pl else 0)
  {
    LoadCounts(q0, stored, reopen);
  }

  /** Once a non-empty "playing." saved tab j is opened it holds the queue
      while no later "playing." tab comes: its tab is the one after the
      tabs opened before it. */
  lemma {:induction false} QueueHeld(q0: Option<bool>, stored: seq<SavedTab>, j: nat, reopen: bool)
    requires j < |stored|
    requires TagOf(stored[j]) == PlayingTag && !stored[j].empty
    requires forall m :: j < m < |stored| ==> TagOf(stored[m]) != PlayingTag
    ensures var s := LoadAll(Start(q0), stored, reopen); var p := |Kept(q0, stored[..j], reopen)|;
      s.queue == Tab(p) && p < |s.empties| && !s.empties[p]
    decreases |stored|
  {
    var n := |stored| - 1;
    var prefix := stored[..n];
    var s := LoadAll(Start(q0), prefix, reopen);
    assert LoadAll(Start(q0), stored, reopen) == LoadOne(s, stored[n], n, reopen);
    if n > j {
      assert forall m :: j < m < |prefix| ==> prefix[m] == stored[m];
      assert prefix[j] == stored[j] && prefix[..j] == stored[..j];
      QueueHeld(q0, prefix, j, reopen);
      QueueStepKept(s, stored[n], n, reopen, |Kept(q0, stored[..j], reopen)|);
    } else {
      assert prefix == stored[..j];
      LoadEmpties(q0, prefix, reopen);
      QueueStepTaken(s, stored[n], n, reopen);
    }
  }

  /** A tab that is not "playing." leaves a non-empty tab in the queue. */
  lemma QueueStepKept(s: LoadState, t: SavedTab, i: nat, reopen: bool, p: nat)
    requires s.queue == Tab(p) && p < |s.empties| && !s.empties[p] && TagOf(t) != PlayingTag
    ensures var s' := LoadOne(s, t, i, reopen); s'.queue == Tab(p) && p < |s'.empties| && !s'.empties[p]
  {
  }

  /** A non-empty "playing." tab is opened and takes the queue. */
  lemma QueueStepTaken(s: LoadState, t: SavedTab, i: nat, reopen: bool)
    requires TagOf(t) == PlayingTag && !t.empty && |s.empties| == |s.tabs|
    ensures var s' := LoadOne(s, t, i, reopen);
      s'.queue == Tab(|s.tabs|) && |s.tabs| < |s'.empties| && !s'.empties[|s.tabs|]
  {
  }

  /** How one iteration changes the queue: a "playing." tab takes it; any
      other tab leaves a non-empty playlist in place. */
  lemma LoadOneQueue(s: LoadState, t: SavedTab, i: nat, reopen: bool)
    ensures TagOf(t) == PlayingTag ==> LoadOne(s, t, i, reopen).queue == Tab(|s.tabs|)
    ensures TagOf(t) != PlayingTag && s.queue != NoPlaylist && !Falsy(s.queue, s.empties) ==>
      LoadOne(s, t, i, reopen).queue == s.queue
  {
  }

  /** The last "playing." saved tab becomes and stays the queue's
      playlist, unless its playlist is empty. */
  lemma PlayingTabHoldsQueue(q0: Option<bool>, stored: seq<SavedTab>, reopen: bool)
    requires LastTagged(stored, PlayingTag) >= 0 && !stored[LastTagged(stored, PlayingTag)].empty
    ensures var j := LastTagged(stored, PlayingTag);
      LoadAll(Start(q0), stored, reopen).queue == Tab(|Kept(q0, stored[..j], reopen)|)
  {
    QueueHeld(q0, stored, LastTagged(stored, PlayingTag), reopen);
  }

  /** A queue that already has a non-empty playlist keeps it when no saved
      tab is tagged "playing.". */
  lemma {:induction false} QueueKeptWithoutPlayingTab(stored: seq<SavedTab>, reopen: bool)
    requires forall k :: 0 <= k < |stored| ==> TagOf(stored[k]) != PlayingTag
    ensures LoadAll(Start(Some(false)), stored, reopen).queue == Other(false)
    decreases |stored|
  {
    if stored != [] {
      QueueKeptWithoutPlayingTab(stored[..|stored| - 1], reopen);
    }
  }

  /** An untagged tab becomes the queue's playlist when the queue's
      playlist is false (none, or an empty one), since add_playlist fills a
      false queue; otherwise the queue is left alone. */
  lemma UntaggedTabFillsEmptyQueue(s: LoadState, t: SavedTab, i: nat, reopen: bool)
    requires TagOf(t) == NoTag
    ensures Falsy(s.queue, s.empties) ==> LoadOne(s, t, i, reopen).queue == Tab(|s.tabs|)
    ensures !Falsy(s.queue, s.empties) ==> LoadOne(s, t, i, reopen).queue == s.queue
  {
  }

  /** Saved names as save_current_tabs writes them. */
  predicate SavedFrom(stored: seq<SavedTab>, names: seq<string>, currentPage: int, queueTab: Option<nat>)
  {
    |stored| == |names|
    && forall i :: 0 <= i < |names| ==> stored[i].name == SavedName(i, TagFor(i, currentPage, queueTab), names[i])
  }

  /** Up to ten saved plain names decode to the names and their tags. */
  lemma SavedDecodes(names: seq<string>, currentPage: int, queueTab: Option<nat>, stored: seq<SavedTab>)
    requires SavedFrom(stored, names, currentPage, queueTab) && |names| <= 10
    requires forall i :: 0 <= i < |names| ==> PlainName(names[i])
    ensures forall i :: 0 <= i < |names| ==> DecodeName(stored[i].name).0 == names[i]
    ensures forall i :: 0 <= i < |names| ==> TagOf(stored[i]) == TagFor(i, currentPage, queueTab)
  {
    forall i | 0 <= i < |names|
      ensures DecodeName(stored[i].name) == (names[i], TagFor(i, currentPage, queueTab))
    {
      DecodeSavedName(i, TagFor(i, currentPage, queueTab), names[i]);
    }
  }

  /** Saved tabs whose decoded names are given names, one by one, decode
      to those names. */
  lemma DecodedNamesAre(stored: seq<SavedTab>, names: seq<string>)
    requires |stored| == |names|
    requires forall k :: 0 <= k < |stored| ==> DecodeName(stored[k].name).0 == names[k]
    ensures DecodedNames(stored) == names
  {
    DecodedNamesAt(stored);
  }

  /** Whether loading as written leaves the selected page's tab closed: it
      is tagged "current." (it is not the queue's tab) and the queue has a
      playlist by the time it is reached. */
  predicate SelectedDropped(currentPage: int, queueTab: Option<nat>, q0: Option<bool>)
  {
    queueTab != Some(currentPage) && !(q0 == None && currentPage == 0)
  }

  /** Loading saved tabs, as written or corrected, selects the saved
      page number. */
  lemma SavedPage(names: seq<string>, currentPage: int, queueTab: Option<nat>,
                  stored: seq<SavedTab>, q0: Option<bool>, freshName: string, reopen: bool)
    requires |stored| == |names| && 0 <= currentPage < |names|
    requires forall i :: 0 <= i < |names| ==> TagOf(stored[i]) == TagFor(i, currentPage, queueTab)
    ensures LoadResult(true, stored, q0, freshName, reopen).page == currentPage
  {
    LoadCounts(q0, stored, reopen);
    if queueTab == Some(currentPage) {
      LastTaggedIs(stored, PlayingTag, currentPage);
      LastTaggedNone(stored, CurrentTag);
    } else {
      LastTaggedIs(stored, CurrentTag, currentPage);
    }
  }

  /** The tabs reopened from saved tabs: all names, or all but the
      selected one when loading as written drops it. */
  lemma SavedTabs(names: seq<string>, currentPage: int, queueTab: Option<nat>,
                  stored: seq<SavedTab>, q0: Option<bool>, freshName: string, reopen: bool)
    requires |stored| == |names| && 0 <= currentPage < |names|
    requires forall i :: 0 <= i < |names| ==> DecodeName(stored[i].name).0 == names[i]
    requires forall i :: 0 <= i < |names| ==> TagOf(stored[i]) == TagFor(i, currentPage, queueTab)
    ensures var drop := !reopen && SelectedDropped(currentPage, queueTab, q0);
      LoadResult(true, stored, q0, freshName, reopen).tabs ==
        (if drop then names[..currentPage] + names[currentPage + 1..] else names)
  {
    var c := currentPage;
    var drop := !reopen && SelectedDropped(c, queueTab, q0);
    KeptOneCurrent(q0, stored, c, reopen);
    assert Dropped(q0, stored, c, reopen) == drop;
    LoadNames(q0, stored, reopen);
    if drop {
      NamesWithout(stored, names, c);
    } else {
      DecodedNamesAre(stored, names);
    }
  }

  /** Leaving saved tab c out leaves its name out of the decoded names. */
  lemma NamesWithout(stored: seq<SavedTab>, names: seq<string>, c: nat)
    requires |stored| == |names| && c < |names|
    requires forall k :: 0 <= k < |stored| ==> DecodeName(stored[k].name).0 == names[k]
    ensures DecodedNames(stored[..c] + stored[c + 1..]) == names[..c] + names[c + 1..]
  {
    var kept := stored[..c] + stored[c + 1..];
    var want := names[..c] + names[c + 1..];
    forall k | 0 <= k < |kept|
      ensures DecodeName(kept[k].name).0 == want[k]
    {
      if k < c {
        assert kept[k] == stored[k] && want[k] == names[k];
      } else {
        assert kept[k] == stored[k + 1] && want[k] == names[k + 1];
      }
    }
    DecodedNamesAre(kept, want);
  }

  /** The queue's tab after reopening saved tabs: the saved queue tab,
      moved down by one when loading as written drops the selected tab
      before it. */
  lemma SavedQueue(names: seq<string>, currentPage: int, queueTab: Option<nat>,
                   stored: seq<SavedTab>, q0: Option<bool>, freshName: string, reopen: bool)
    requires |stored| == |names| && 0 <= currentPage < |names|
    requires forall i :: 0 <= i < |names| ==> TagOf(stored[i]) == TagFor(i, currentPage, queueTab)
    requires queueTab.Some? && queueTab.value < |names| && !stored[queueTab.value].empty
    ensures var drop := !reopen && SelectedDropped(currentPage, queueTab, q0); var v := queueTab.value;
      LoadResult(true, stored, q0, freshName, reopen).queue == Tab(if drop && v > currentPage then v - 1 else v)
  {
    var c := currentPage;
    var v := queueTab.value;
    LastTaggedIs(stored, PlayingTag, v);
    PlayingTabHoldsQueue(q0, stored, reopen);
    var before := stored[..v];
    if c < v {
      KeptOneCurrent(q0, before, c, reopen);
      assert Dropped(q0, before, c, reopen) == (!reopen && SelectedDropped(c, queueTab, q0));
    } else {
      KeptNoCurrent(q0, before, reopen);
    }
  }

  /** Saving up to ten tabs and loading them back as written: the same
      page number is selected, but the selected tab itself is reopened only
      when it is the queue's tab or the first tab loaded into a queue with
      no playlist; otherwise the other tabs are reopened without it, so the
      page number points one tab further on, and the queue's tab moves
      down by one when it came after it. */
  lemma SaveLoadRoundTrip(names: seq<string>, currentPage: int, queueTab: Option<nat>,
                          stored: seq<SavedTab>, q0: Option<bool>, freshName: string)
    requires SavedFrom(stored, names, currentPage, queueTab)
    requires |names| <= 10 && 0 <= currentPage < |names|
    requires forall i :: 0 <= i < |names| ==> PlainName(names[i])
    ensures var r := LoadResult(true, stored, q0, freshName, false);
      var drop := SelectedDropped(currentPage, queueTab, q0);
      r.page == currentPage
      && r.tabs == (if drop then names[..currentPage] + names[currentPage + 1..] else names)
      && (queueTab.Some? && queueTab.value < |names| && !stored[queueTab.value].empty ==>
            r.queue == Tab(if drop && queueTab.value > currentPage then queueTab.value - 1 else queueTab.value))
  {
    SavedDecodes(names, currentPage, queueTab, stored);
    SavedPage(names, currentPage, queueTab, stored, q0, freshName, false);
    SavedTabs(names, currentPage, queueTab, stored, q0, freshName, false);
    if queueTab.Some? && queueTab.value < |names| && !stored[queueTab.value].empty {
      SavedQueue(names, currentPage, queueTab, stored, q0, freshName, false);
    }
  }

  /** The corrected load, opening every saved tab: saving up to ten tabs
      and loading them back reopens the same names, selects the same page
      and, when the queue's playlist was a non-empty tab, gives it back to
      the queue. */
  lemma SaveLoadRoundTripCorrected(names: seq<string>, currentPage: int, queueTab: Option<nat>,
                                   stored: seq<SavedTab>, q0: Option<bool>, freshName: string)
    requires SavedFrom(stored, names, currentPage, queueTab)
    requires |names| <= 10 && 0 <= currentPage < |names|
    requires forall i :: 0 <= i < |names| ==> PlainName(names[i])
    ensures var r := LoadResult(true, stored, q0, freshName, true);
      r.tabs == names && r.page == currentPage
      && (queueTab.Some? && queueTab.value < |names| && !stored[queueTab.value].empty ==> r.queue == Tab(queueTab.value))
  {
    SavedDecodes(names, currentPage, queueTab, stored);
    SavedPage(names, currentPage, queueTab, stored, q0, freshName, true);
    SavedTabs(names, currentPage, queueTab, stored, q0, freshName, true);
    if queueTab.Some? && queueTab.value < |names| && !stored[queueTab.value].empty {
      SavedQueue(names, currentPage, queueTab, stored, q0, freshName, true);
    }
  }

  /** Three tabs a, b, c with the queue playing a and c selected are saved
      as "order0.playing.a", "order1.b", "order2.current.c". Loaded as
      written, c is not reopened and page 2 is selected among two tabs;
      the corrected load reopens all three. */
  lemma SelectedTabLost(a: string, b: string, c: string, q0: Option<bool>)
    requires PlainName(a) && PlainName(b) && PlainName(c)
    ensures var stored := [SavedTab(SavedName(0, PlayingTag, a), false), SavedTab(SavedName(1, NoTag, b), false),
                           SavedTab(SavedName(2, CurrentTag, c), false)];
      var r := LoadResult(true, stored, q0, "", false);
      r.tabs == [a, b] && r.page == 2 && r.queue == Tab(0)
      && LoadResult(true, stored, q0, "", true).tabs == [a, b, c]
  {
    var names := [a, b, c];
    var stored := [SavedTab(SavedName(0, PlayingTag, a), false), SavedTab(SavedName(1, NoTag, b), false),
                   SavedTab(SavedName(2, CurrentTag, c), false)];
    assert SavedFrom(stored, names, 2, Some(0));
    SaveLoadRoundTrip(names, 2, Some(0), stored, q0, "");
    SaveLoadRoundTripCorrected(names, 2, Some(0), stored, q0, "");
    assert names[..2] + names[3..] == [a, b];
  }
}
