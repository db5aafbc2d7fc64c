/**
 * The music-profile text handed to the model: the user's own words for the
 * manual source, or the names of their top artists and tracks for Spotify.
 */
module MusicProfile {
  import opened Wrappers
  import opened Json

  /** Python's `sep.join(xs)`. */
  function Join(sep: string, xs: seq<string>): string {
    if |xs| == 0 then ""
    else if |xs| == 1 then xs[0]
    else xs[0] + sep + Join(sep, xs[1..])
  }

  /** Where `xs[i]` starts in `Join(sep, xs)`. */
  function Offset(sep: string, xs: seq<string>, i: nat): nat
    requires i <= |xs|
  {
    if i == 0 then 0 else |xs[0]| + |sep| + Offset(sep, xs[1..], i - 1)
  }

  /** A slice of the second part of `a + b`. */
  lemma SliceAfter(a: string, b: string, lo: nat, hi: nat)
    requires lo <= hi <= |b|
    ensures |a| + hi <= |a + b|
    ensures (a + b)[|a| + lo..|a| + hi] == b[lo..hi]
  {
  }

  /** Every element appears verbatim, in its original order, at its offset. */
  lemma {:induction false} JoinAt(sep: string, xs: seq<string>, i: nat)
    requires i < |xs|
    ensures Offset(sep, xs, i) + |xs[i]| <= |Join(sep, xs)|
    ensures Join(sep, xs)[Offset(sep, xs, i)..Offset(sep, xs, i) + |xs[i]|] == xs[i]
  {
    if |xs| == 1 {
      assert Join(sep, xs) == xs[0];
    } else {
      var head, rest := xs[0] + sep, Join(sep, xs[1..]);
      assert Join(sep, xs) == head + rest;
      if i == 0 {
        assert (head + rest)[..|xs[0]|] == xs[0];
      } else {
        JoinAt(sep, xs[1..], i - 1);
        var o := Offset(sep, xs[1..], i - 1);
        assert Offset(sep, xs, i) == |head| + o;
        assert xs[1..][i - 1] == xs[i];
        SliceAfter(head, rest, o, o + |xs[i]|);
      }
    }
  }

  /** Each element but the last is followed by exactly one `sep`. */
  lemma {:induction false} JoinSeparatorAt(sep: string, xs: seq<string>, i: nat)
    requires i + 1 < |xs|
    ensures Offset(sep, xs, i) + |xs[i]| + |sep| <= |Join(sep, xs)|
    ensures Join(sep, xs)[Offset(sep, xs, i) + |xs[i]|..Offset(sep, xs, i) + |xs[i]| + |sep|] == sep
  {
    var head := xs[0] + sep;
    assert Join(sep, xs) == head + Join(sep, xs[1..]);
    if i == 0 {
      assert (head + Join(sep, xs[1..]))[|xs[0]|..|head|] == sep;
    } else {
      JoinSeparatorAt(sep, xs[1..], i - 1);
      var e := Offset(sep, xs[1..], i - 1) + |xs[i]|;
      assert Offset(sep, xs, i) + |xs[i]| == |head| + e;
      assert xs[1..][i - 1] == xs[i];
      SliceAfter(head, Join(sep, xs[1..]), e, e + |sep|);
    }
  }

  /** The joined text ends where the last element ends: nothing follows it. */
  lemma {:induction false} JoinLength(sep: string, xs: seq<string>)
    ensures |xs| == 0 ==> Join(sep, xs) == ""
    ensures |xs| > 0 ==> |Join(sep, xs)| == Offset(sep, xs, |xs| - 1) + |xs[|xs| - 1]|
  {
    if |xs| > 1 {
      JoinLength(sep, xs[1..]);
    }
  }

  /** The next element starts right after the current one and its separator. */
  lemma {:induction false} OffsetNext(sep: string, xs: seq<string>, i: nat)
    requires i < |xs|
    ensures Offset(sep, xs, i + 1) == Offset(sep, xs, i) + |xs[i]| + |sep|
  {
    if i > 0 {
      OffsetNext(sep, xs[1..], i - 1);
    }
  }

  /** An item of a top-artists or top-tracks page that `item['name']` can be read from. */
  predicate HasNameField(item: Json) {
    item.JObj? && "name" in item.fields
  }

  /** An item whose name can also be joined: `str.join` accepts only strings. */
  predicate HasName(item: Json) {
    HasNameField(item) && item.fields["name"].JStr?
  }

  /** `[a['name'] for a in items]`: None when some item has no name to read (the code raises there). */
  function NameValues(items: seq<Json>): (r: Option<seq<Json>>)
    ensures r.Some? <==> forall i :: 0 <= i < |items| ==> HasNameField(items[i])
    ensures r.Some? ==> |r.value| == |items|
    ensures r.Some? ==> forall i :: 0 <= i < |items| ==> r.value[i] == items[i].fields["name"]
  {
    if items == [] then Some([])
    else if !HasNameField(items[0]) then None
    else match NameValues(items[1..])
      case None => None
      case Some(names) => Some([items[0].fields["name"]] + names)
  }

  /**
   * `page['items']` as the list comprehension iterates it: the list itself, or
   * nothing for an empty string or dictionary. None when the page is not a
   * dictionary with `items`, or when iterating `items` yields values whose `name`
   * cannot be read (the characters of a string, the keys of a dictionary); the
   * code raises in both cases.
   */
  function PageItems(page: Json): (r: Option<seq<Json>>)
    ensures r.Some? ==> page.JObj? && "items" in page.fields
    ensures page.JObj? && "items" in page.fields && page.fields["items"].JArr? ==>
      r == Some(page.fields["items"].items)
    ensures r.Some? && !page.fields["items"].JArr? ==> r.value == []
  {
    if !page.JObj? || "items" !in page.fields then None
    else match page.fields["items"]
      case JArr(xs) => Some(xs)
      case JStr(t) => if t == "" then Some([]) else None
      case JObj(m) => if m == map[] then Some([]) else None
      case _ => None
  }

  /** `[a['name'] for a in page['items']]`. */
  function PageNames(page: Json): (r: Option<seq<Json>>)
    ensures r.Some? <==> PageItems(page).Some? && NameValues(PageItems(page).value).Some?
    ensures r.Some? ==> r == NameValues(PageItems(page).value)
  {
    match PageItems(page)
    case None => None
    case Some(items) => NameValues(items)
  }

  /** The check `', '.join(names)` makes: None when some name is not a string (the code raises there). */
  function Texts(values: seq<Json>): (r: Option<seq<string>>)
    ensures r.Some? <==> forall i :: 0 <= i < |values| ==> values[i].JStr?
    ensures r.Some? ==> |r.value| == |values|
    ensures r.Some? ==> forall i :: 0 <= i < |values| ==> r.value[i] == values[i].s
  {
    if values == [] then Some([])
    else if !values[0].JStr? then None
    else match Texts(values[1..])
      case None => None
      case Some(rest) => Some([values[0].s] + rest)
  }

  /** Both steps together: the joinable names of a page, in the order the service returned them. */
  function NameList(items: seq<Json>): (r: Option<seq<string>>)
    ensures r.Some? <==> forall i :: 0 <= i < |items| ==> HasName(items[i])
    ensures r.Some? ==> |r.value| == |items|
    ensures r.Some? ==> forall i :: 0 <= i < |items| ==> r.value[i] == items[i].fields["name"].s
  {
    match NameValues(items)
    case None => None
    case Some(values) => Texts(values)
  }

  const InputSeparator := " input: "

  /** `f"{username} input: {music_input}"`, with None rendered as "None". */
  function ManualProfile(username: Option<string>, musicInput: Option<string>): string {
    Str(username) + InputSeparator + Str(musicInput)
  }

  const ArtistsLabel := "Top artists: "
  const TracksLabel := ", Top tracks: "
  const NameSeparator := ", "

  /** The Spotify music profile: both name lists, in the order the service returned them. */
  function SpotifyProfile(artists: seq<string>, tracks: seq<string>): string {
    ArtistsLabel + Join(NameSeparator, artists) + TracksLabel + Join(NameSeparator, tracks)
  }

  /** Where the track names start in `SpotifyProfile(artists, tracks)`. */
  function TracksAt(artists: seq<string>): nat {
    |ArtistsLabel| + |Join(NameSeparator, artists)| + |TracksLabel|
  }

  /** A slice of the middle part of `a + m + b`. */
  lemma SliceOfMiddle(a: string, m: string, b: string, lo: nat, hi: nat)
    requires lo <= hi <= |m|
    ensures |a| + hi <= |a + m + b|
    ensures (a + m + b)[|a| + lo..|a| + hi] == m[lo..hi]
  {
  }

  /** A slice of the first part of `a + b`. */
  lemma SliceBefore(a: string, b: string, lo: nat, hi: nat)
    requires lo <= hi <= |a|
    ensures (a + b)[lo..hi] == a[lo..hi]
  {
  }

  /** An element of a joined list stays at its offset, shifted by the text before the list. */
  lemma JoinedAfter(before: string, sep: string, xs: seq<string>, i: nat)
    requires i < |xs|
    ensures var at := |before| + Offset(sep, xs, i);
      && at + |xs[i]| <= |before + Join(sep, xs)|
      && (before + Join(sep, xs))[at..at + |xs[i]|] == xs[i]
  {
    JoinAt(sep, xs, i);
    var o := Offset(sep, xs, i);
    SliceAfter(before, Join(sep, xs), o, o + |xs[i]|);
  }

  /** The same with two more texts after the list. */
  lemma JoinedBetween(before: string, sep: string, xs: seq<string>, a1: string, a2: string, i: nat)
    requires i < |xs|
    ensures var at := |before| + Offset(sep, xs, i);
      && at + |xs[i]| <= |before + Join(sep, xs) + a1 + a2|
      && (before + Join(sep, xs) + a1 + a2)[at..at + |xs[i]|] == xs[i]
  {
    JoinAt(sep, xs, i);
    var o := Offset(sep, xs, i);
    SliceOfMiddle(before, Join(sep, xs), a1, o, o + |xs[i]|);
    SliceBefore(before + Join(sep, xs) + a1, a2, |before| + o, |before| + o + |xs[i]|);
  }

  /** Each artist name appears verbatim at its offset after the artists label. */
  lemma SpotifyProfileListsArtists(artists: seq<string>, tracks: seq<string>, i: nat)
    requires i < |artists|
    ensures |ArtistsLabel| + Offset(NameSeparator, artists, i) + |artists[i]| <= |SpotifyProfile(artists, tracks)|
    ensures SpotifyProfile(artists, tracks)[|ArtistsLabel| + Offset(NameSeparator, artists, i)..
                                            |ArtistsLabel| + Offset(NameSeparator, artists, i) + |artists[i]|] == artists[i]
  {
    JoinedBetween(ArtistsLabel, NameSeparator, artists, TracksLabel, Join(NameSeparator, tracks), i);
  }

  /** Each track name appears verbatim at its offset after the tracks label. */
  lemma SpotifyProfileListsTracks(artists: seq<string>, tracks: seq<string>, j: nat)
    requires j < |tracks|
    ensures TracksAt(artists) + Offset(NameSeparator, tracks, j) + |tracks[j]| <= |SpotifyProfile(artists, tracks)|
    ensures SpotifyProfile(artists, tracks)[TracksAt(artists) + Offset(NameSeparator, tracks, j)..
                                            TracksAt(artists) + Offset(NameSeparator, tracks, j) + |tracks[j]|] == tracks[j]
  {
    JoinedAfter(ArtistsLabel + Join(NameSeparator, artists) + TracksLabel, NameSeparator, tracks, j);
  }
}
