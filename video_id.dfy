/** The YouTube video-ID pattern that the controllers share,
      (?:youtube\.com\/watch\?v=|youtu\.be\/|youtube\.com\/embed\/)([^&\n?#]+)
    applied with `url.match(...)` and its first capture group, and the URLs built from
    an ID. */
module VideoId {
  import opened JsValues
  import opened JsStrings

  const WatchPrefix: string := "youtube.com/watch?v="
  const ShortPrefix: string := "youtu.be/"
  const EmbedPrefix: string := "youtube.com/embed/"

  /** The canonical watch page of a video, from which the noembed lookup starts. */
  const WatchPage: string := "https://www.youtube.com/watch?v="
  const NoembedEndpoint: string := "https://noembed.com/embed?url="

  const UrlRequired: string := "YouTube URL is required"
  const InvalidUrl: string := "Invalid YouTube URL"

  /** The capture group's class `[^&\n?#]`. */
  predicate IsIdChar(c: char) {
    c != '&' && c != '\n' && c != '?' && c != '#'
  }

  /** What the capture group can hold: at least one character, none of `& \n ? #`. */
  predicate IsVideoId(id: string) {
    id != [] && forall i :: 0 <= i < |id| ==> IsIdChar(id[i])
  }

  /** The greedy `[^&\n?#]+` run at the start of `s` (empty when it cannot start). */
  function IdRun(s: string): (r: string)
    ensures |r| <= |s| && r == s[..|r|]
    ensures forall i :: 0 <= i < |r| ==> IsIdChar(r[i])
    ensures |r| < |s| ==> !IsIdChar(s[|r|])
    decreases |s|
  {
    if s != [] && IsIdChar(s[0]) then [s[0]] + IdRun(s[1..]) else []
  }

  /** One alternative tried at index `i`: its literal text is there and at least one
      ID character follows it. */
  predicate AltMatches(url: string, i: nat, prefix: string) {
    OccursAt(url, prefix, i) && i + |prefix| < |url| && IsIdChar(url[i + |prefix|])
  }

  /** Some alternative matches at index `i`. */
  predicate MatchesAt(url: string, i: nat) {
    AltMatches(url, i, WatchPrefix) || AltMatches(url, i, ShortPrefix)
      || AltMatches(url, i, EmbedPrefix)
  }

  /** The pattern tried at index `i`: the alternatives in their written order, the
      capture group greedy. */
  function MatchAt(url: string, i: nat): Option<string> {
    if AltMatches(url, i, WatchPrefix) then Some(IdRun(url[i + |WatchPrefix|..]))
    else if AltMatches(url, i, ShortPrefix) then Some(IdRun(url[i + |ShortPrefix|..]))
    else if AltMatches(url, i, EmbedPrefix) then Some(IdRun(url[i + |EmbedPrefix|..]))
    else None
  }

  /** The unanchored search: the leftmost index at which the pattern matches. */
  function SearchFrom(url: string, i: nat): Option<string>
    decreases |url| - i
  {
    if i >= |url| then None
    else if MatchAt(url, i).Some? then MatchAt(url, i)
    else SearchFrom(url, i + 1)
  }

  /** `url.match(pattern)?.[1]`: the video ID, or None when the pattern does not match. */
  function ExtractVideoId(url: string): Option<string> {
    SearchFrom(url, 0)
  }

  /** What one successful try at index `i` captures: an ID that immediately follows one
      of the three prefixes and runs up to a stop character or the end of the URL. */
  lemma MatchAtFound(url: string, i: nat) returns (prefix: string)
    requires MatchAt(url, i).Some?
    ensures var id := MatchAt(url, i).value;
      && IsVideoId(id)
      && prefix in {WatchPrefix, ShortPrefix, EmbedPrefix}
      && OccursAt(url, prefix + id, i)
      && (i + |prefix| + |id| == |url| || !IsIdChar(url[i + |prefix| + |id|]))
  {
    prefix := if AltMatches(url, i, WatchPrefix) then WatchPrefix
      else if AltMatches(url, i, ShortPrefix) then ShortPrefix
      else EmbedPrefix;
    var rest := url[i + |prefix|..];
    var id := IdRun(rest);
    assert id != [] by {
      assert rest[0] == url[i + |prefix|];
    }
    assert url[i..i + |prefix| + |id|] == url[i..i + |prefix|] + rest[..|id|];
  }

  lemma MatchAtNone(url: string, i: nat)
    ensures MatchAt(url, i).None? <==> !MatchesAt(url, i)
  {
  }

  /** Skipping indices where nothing matches does not change the search. */
  lemma {:induction false} SearchSkips(url: string, i: nat, k: nat)
    requires i <= k
    requires forall j :: i <= j < k ==> !MatchesAt(url, j)
    ensures SearchFrom(url, i) == SearchFrom(url, k)
    decreases k - i
  {
    if i < k {
      MatchAtNone(url, i);
      SearchSkips(url, i + 1, k);
    }
  }

  /** A search that finds an ID found it at the leftmost matching index. */
  lemma {:induction false} SearchFound(url: string, i: nat) returns (k: nat)
    requires SearchFrom(url, i).Some?
    ensures i <= k < |url| && MatchesAt(url, k) && MatchAt(url, k) == SearchFrom(url, i)
    ensures forall j :: i <= j < k ==> !MatchesAt(url, j)
    decreases |url| - i
  {
    MatchAtNone(url, i);
    if MatchAt(url, i).Some? {
      k := i;
    } else {
      k := SearchFound(url, i + 1);
    }
  }

  /** A search that finds nothing passed no matching index. */
  lemma {:induction false} SearchNone(url: string, i: nat)
    ensures SearchFrom(url, i).None? <==> forall j :: i <= j ==> !MatchesAt(url, j)
    decreases |url| - i
  {
    MatchAtNone(url, i);
    if i < |url| {
      SearchNone(url, i + 1);
    }
  }

  /** An extracted ID is non-empty, holds none of `& ? # \n`, immediately follows
      `youtube.com/watch?v=`, `youtu.be/` or `youtube.com/embed/` at the leftmost index
      where the pattern matches, and extends as far as the class allows. */
  lemma ExtractedIdShape(url: string) returns (i: nat, prefix: string)
    requires ExtractVideoId(url).Some?
    ensures var id := ExtractVideoId(url).value;
      && IsVideoId(id)
      && prefix in {WatchPrefix, ShortPrefix, EmbedPrefix}
      && OccursAt(url, prefix + id, i)
      && (i + |prefix| + |id| == |url| || !IsIdChar(url[i + |prefix| + |id|]))
    ensures forall j :: 0 <= j < i ==> !MatchesAt(url, j)
  {
    i := SearchFound(url, 0);
    prefix := MatchAtFound(url, i);
  }

  /** Extraction fails exactly when no alternative followed by an ID character occurs
      anywhere in the URL. */
  lemma ExtractNoneIff(url: string)
    ensures ExtractVideoId(url).None? <==> forall j: nat :: !MatchesAt(url, j)
  {
    SearchNone(url, 0);
  }

  lemma {:induction false} IdRunAll(s: string)
    requires forall i :: 0 <= i < |s| ==> IsIdChar(s[i])
    ensures IdRun(s) == s
    decreases |s|
  {
    if s != [] {
      IdRunAll(s[1..]);
      assert [s[0]] + s[1..] == s;
    }
  }

  lemma FirstCharOfOccurrence(s: string, pat: string, j: nat)
    requires pat != []
    ensures OccursAt(s, pat, j) ==> s[j] == pat[0]
  {
    if OccursAt(s, pat, j) {
      assert s[j..j + |pat|][0] == pat[0];
    }
  }

  /** The watch-page URL built for an ID. */
  function WatchUrl(id: string): string {
    WatchPage + id
  }

  /** Re-extracting the ID from the watch-page URL built for it returns the same ID. */
  lemma WatchUrlRoundTrip(id: string)
    requires IsVideoId(id)
    ensures ExtractVideoId(WatchUrl(id)) == Some(id)
  {
    var url := WatchUrl(id);
    assert url[..|WatchPage|] == WatchPage;
    forall j | 0 <= j < 12
      ensures !MatchesAt(url, j)
    {
      assert url[j] == WatchPage[j] != 'y';
      FirstCharOfOccurrence(url, WatchPrefix, j);
      FirstCharOfOccurrence(url, ShortPrefix, j);
      FirstCharOfOccurrence(url, EmbedPrefix, j);
    }
    SearchSkips(url, 0, 12);
    assert url[12..12 + |WatchPrefix|] == WatchPrefix;
    assert url[12 + |WatchPrefix|..] == id;
    IdRunAll(id);
  }

  /** The noembed lookup URL for an ID. The inner URL is not percent-encoded. */
  function NoembedUrl(id: string): string {
    NoembedEndpoint + WatchUrl(id)
  }
}
