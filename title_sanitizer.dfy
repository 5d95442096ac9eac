/** The title clean-up every download handler applies before naming the file,
      title.replace(/[^\w\s]/gi, "").replace(/\s+/g, "_")
    and the `Content-Disposition: attachment; filename="..."` value built from it (the
    quoted-string form of section 4.1 of RFC 6266). */
module TitleSanitizer {
  import opened JsValues
  import opened JsStrings

  predicate AllWord(s: string) {
    forall i :: 0 <= i < |s| ==> IsWordChar(s[i])
  }

  predicate IsAlnum(c: char) {
    IsWordChar(c) && c != '_'
  }

  /** The letters and digits of `s`, in order. */
  function Alnums(s: string): string
    decreases |s|
  {
    if s == [] then [] else (if IsAlnum(s[0]) then [s[0]] else []) + Alnums(s[1..])
  }

  /** `.replace(/[^\w\s]/gi, "")`: every character that is neither a word character nor
      white space is dropped. */
  function StripNonWord(s: string): (r: string)
    ensures |r| <= |s|
    ensures WordOrSpace(r)
    decreases |s|
  {
    if s == [] then []
    else (if IsWordChar(s[0]) || IsJsSpace(s[0]) then [s[0]] else []) + StripNonWord(s[1..])
  }

  predicate WordOrSpace(s: string) {
    forall i :: 0 <= i < |s| ==> IsWordChar(s[i]) || IsJsSpace(s[i])
  }

  lemma SuffixWordOrSpace(s: string, k: nat)
    requires k <= |s|
    ensures WordOrSpace(s) ==> WordOrSpace(s[k..])
  {
    if WordOrSpace(s) {
      forall i | 0 <= i < |s| - k
        ensures IsWordChar(s[k..][i]) || IsJsSpace(s[k..][i])
      {
        assert s[k..][i] == s[k + i];
      }
    }
  }

  lemma LeadingSpacesShrink(s: string)
    requires s != [] && IsJsSpace(s[0])
    ensures |TrimStart(s)| < |s|
  {
  }

  /** `.replace(/\s+/g, "_")`: every maximal run of white space becomes one `_`; it
      never lengthens its input. */
  function CollapseSpaces(s: string): (r: string)
    ensures |r| <= |s|
    decreases |s|
  {
    if s == [] then []
    else if IsJsSpace(s[0]) then
      LeadingSpacesShrink(s);
      "_" + CollapseSpaces(TrimStart(s))
    else [s[0]] + CollapseSpaces(s[1..])
  }

  /** Given only word characters and white space, the collapse yields only word
      characters. */
  lemma {:induction false} CollapseYieldsWords(s: string)
    requires WordOrSpace(s)
    ensures AllWord(CollapseSpaces(s))
    decreases |s|
  {
    if s != [] {
      if IsJsSpace(s[0]) {
        LeadingSpacesShrink(s);
        SuffixWordOrSpace(s, |s| - |TrimStart(s)|);
        assert TrimStart(s) == s[|s| - |TrimStart(s)|..];
        CollapseYieldsWords(TrimStart(s));
        AllWordConcat("_", CollapseSpaces(TrimStart(s)));
      } else {
        SuffixWordOrSpace(s, 1);
        CollapseYieldsWords(s[1..]);
        AllWordConcat([s[0]], CollapseSpaces(s[1..]));
      }
    }
  }

  lemma AllWordConcat(a: string, b: string)
    requires AllWord(a) && AllWord(b)
    ensures AllWord(a + b)
  {
    forall i | 0 <= i < |a + b|
      ensures IsWordChar((a + b)[i])
    {
      if i >= |a| {
        assert (a + b)[i] == b[i - |a|];
      }
    }
  }

  /** The file-name stem built from a video title: it holds only `[A-Za-z0-9_]` and is
      never longer than the title. */
  function SanitizeTitle(title: string): (stem: string)
    ensures AllWord(stem)
    ensures |stem| <= |title|
  {
    CollapseYieldsWords(StripNonWord(title));
    CollapseSpaces(StripNonWord(title))
  }

  lemma {:induction false} StripNonWordKeepsWord(s: string)
    requires AllWord(s)
    ensures StripNonWord(s) == s
    decreases |s|
  {
    if s != [] {
      StripNonWordKeepsWord(s[1..]);
      assert [s[0]] + s[1..] == s;
    }
  }

  lemma {:induction false} CollapseKeepsWord(s: string)
    requires AllWord(s)
    ensures CollapseSpaces(s) == s
    decreases |s|
  {
    if s != [] {
      assert !IsJsSpace(s[0]);
      CollapseKeepsWord(s[1..]);
      assert [s[0]] + s[1..] == s;
    }
  }

  /** A string of word characters is its own stem. */
  lemma SanitizeFixesWordStrings(s: string)
    requires AllWord(s)
    ensures SanitizeTitle(s) == s
  {
    StripNonWordKeepsWord(s);
    CollapseKeepsWord(s);
  }

  /** Sanitising twice is sanitising once. */
  lemma SanitizeIdempotent(title: string)
    ensures SanitizeTitle(SanitizeTitle(title)) == SanitizeTitle(title)
  {
    SanitizeFixesWordStrings(SanitizeTitle(title));
  }

  /** The strip is a filter: it works on each part of a split text independently. */
  lemma {:induction false} StripNonWordAppend(a: string, b: string)
    ensures StripNonWord(a + b) == StripNonWord(a) + StripNonWord(b)
    decreases |a|
  {
    if a == [] {
      assert a + b == b;
    } else {
      var head := if IsWordChar(a[0]) || IsJsSpace(a[0]) then [a[0]] else [];
      assert (a + b)[1..] == a[1..] + b;
      assert StripNonWord(a + b) == head + StripNonWord(a[1..] + b);
      StripNonWordAppend(a[1..], b);
      assert head + (StripNonWord(a[1..]) + StripNonWord(b))
          == (head + StripNonWord(a[1..])) + StripNonWord(b);
    }
  }

  /** Each character of the title is kept exactly when it is a word character or white
      space, in its place among the rest. */
  lemma StripNonWordFilters(a: string, c: char, b: string)
    ensures StripNonWord(a + [c] + b)
         == StripNonWord(a) + (if IsWordChar(c) || IsJsSpace(c) then [c] else []) + StripNonWord(b)
  {
    StripNonWordAppend(a + [c], b);
    StripNonWordAppend(a, [c]);
    assert [c][1..] == [];
  }

  /** Text made only of word characters and white space passes the strip unchanged. */
  lemma {:induction false} StripNonWordKeepsWordOrSpace(s: string)
    requires WordOrSpace(s)
    ensures StripNonWord(s) == s
    decreases |s|
  {
    if s != [] {
      SuffixWordOrSpace(s, 1);
      StripNonWordKeepsWordOrSpace(s[1..]);
      assert [s[0]] + s[1..] == s;
    }
  }

  predicate AllSpace(s: string) {
    forall i :: 0 <= i < |s| ==> IsJsSpace(s[i])
  }

  /** Trimming a run of white space off text that then starts with a non-space leaves
      that text. */
  lemma {:induction false} TrimSpaceRun(sp: string, t: string)
    requires AllSpace(sp)
    requires t == [] || !IsJsSpace(t[0])
    ensures TrimStart(sp + t) == t
    decreases |sp|
  {
    if sp == [] {
      assert sp + t == t;
    } else {
      assert (sp + t)[1..] == sp[1..] + t;
      TrimSpaceRun(sp[1..], t);
    }
  }

  /** A whole run of white space after a word becomes exactly one `_`, and the collapse
      goes on from the text after the run. */
  lemma {:induction false} CollapseSpacesRun(w: string, sp: string, t: string)
    requires AllWord(w)
    requires sp != [] && AllSpace(sp)
    requires t == [] || !IsJsSpace(t[0])
    ensures CollapseSpaces(w + sp + t) == w + "_" + CollapseSpaces(t)
    decreases |w|
  {
    if w == [] {
      assert w + sp + t == sp + t;
      TrimSpaceRun(sp, t);
    } else {
      assert !IsJsSpace(w[0]);
      assert (w + sp + t)[1..] == w[1..] + sp + t;
      CollapseSpacesRun(w[1..], sp, t);
      assert [w[0]] + (w[1..] + "_" + CollapseSpaces(t)) == w + "_" + CollapseSpaces(t);
    }
  }

  /** Two words separated by any run of white space are joined by one `_`. */
  lemma SanitizeJoinsWords(w: string, sp: string, t: string)
    requires AllWord(w) && AllWord(t)
    requires sp != [] && AllSpace(sp)
    ensures SanitizeTitle(w + sp + t) == w + "_" + t
  {
    assert WordOrSpace(w + sp + t) by {
      forall i | 0 <= i < |w + sp + t|
        ensures IsWordChar((w + sp + t)[i]) || IsJsSpace((w + sp + t)[i])
      {
        if i < |w| {
          assert (w + sp + t)[i] == w[i];
        } else if i < |w| + |sp| {
          assert (w + sp + t)[i] == sp[i - |w|];
        } else {
          assert (w + sp + t)[i] == t[i - |w| - |sp|];
        }
      }
    }
    StripNonWordKeepsWordOrSpace(w + sp + t);
    if t != [] {
      assert IsWordChar(t[0]);
    }
    CollapseSpacesRun(w, sp, t);
    CollapseKeepsWord(t);
  }

  lemma {:induction false} AlnumsConcat(a: string, b: string)
    ensures Alnums(a + b) == Alnums(a) + Alnums(b)
    decreases |a|
  {
    if a == [] {
      assert a + b == b;
    } else {
      var head := if IsAlnum(a[0]) then [a[0]] else [];
      assert (a + b)[1..] == a[1..] + b;
      assert Alnums(a + b) == head + Alnums(a[1..] + b);
      AlnumsConcat(a[1..], b);
      assert Alnums(a) == head + Alnums(a[1..]);
      assert head + (Alnums(a[1..]) + Alnums(b)) == (head + Alnums(a[1..])) + Alnums(b);
    }
  }

  lemma {:induction false} StripKeepsAlnums(s: string)
    ensures Alnums(StripNonWord(s)) == Alnums(s)
    decreases |s|
  {
    if s != [] {
      StripKeepsAlnums(s[1..]);
      var head := if IsWordChar(s[0]) || IsJsSpace(s[0]) then [s[0]] else [];
      AlnumsConcat(head, StripNonWord(s[1..]));
    }
  }

  lemma {:induction false} SpacesHaveNoAlnums(s: string)
    ensures Alnums(s) == Alnums(TrimStart(s))
    decreases |s|
  {
    if s != [] && IsJsSpace(s[0]) {
      SpacesHaveNoAlnums(s[1..]);
    }
  }

  lemma {:induction false} CollapseKeepsAlnums(s: string)
    ensures Alnums(CollapseSpaces(s)) == Alnums(s)
    decreases |s|
  {
    if s != [] {
      if IsJsSpace(s[0]) {
        LeadingSpacesShrink(s);
        CollapseKeepsAlnums(TrimStart(s));
        AlnumsConcat("_", CollapseSpaces(TrimStart(s)));
        SpacesHaveNoAlnums(s);
      } else {
        CollapseKeepsAlnums(s[1..]);
        AlnumsConcat([s[0]], CollapseSpaces(s[1..]));
      }
    }
  }

  /** Sanitising keeps every ASCII letter and digit of the title, in order, and adds
      none: only punctuation, other symbols, non-ASCII letters and white space change. */
  lemma SanitizeKeepsAlnums(title: string)
    ensures Alnums(SanitizeTitle(title)) == Alnums(title)
  {
    StripKeepsAlnums(title);
    CollapseKeepsAlnums(StripNonWord(title));
  }

  /** The title clean-up applied to a JavaScript value read from `expr`: only a string
      has a `replace` method; undefined and null throw on the property access, any other
      value because `replace` is not a function. */
  function SanitizeTitleValue(v: JsValue, expr: string): (r: Result<string>)
    ensures r.Ok? <==> v.Str?
    ensures v.Str? ==> r.value == SanitizeTitle(v.s)
  {
    match v
    case Str(s) => Ok(SanitizeTitle(s))
    case Undefined => Err(TypeErrorMessage(v, "replace"))
    case Null => Err(TypeErrorMessage(v, "replace"))
    case _ => Err(expr + ".replace is not a function")
  }

  /** The download's file name: the stem plus `.mp3` for audio, `.mp4` otherwise. */
  function Filename(title: string, audio: bool): string {
    SanitizeTitle(title) + (if audio then ".mp3" else ".mp4")
  }

  const DispositionPrefix: string := "attachment; filename=\""

  /** The header value `attachment; filename="<name>"`, the name interpolated as is. */
  function ContentDisposition(filename: string): string {
    DispositionPrefix + filename + "\""
  }

  /** How a recipient reads the value back: the prefix, then a quoted-string whose
      content has no quote or backslash and whose closing quote ends the value. */
  function QuotedFilename(header: string): Option<string> {
    if !StartsWith(header, DispositionPrefix) || |header| == |DispositionPrefix| then None
    else
      var rest := header[|DispositionPrefix|..];
      var content := rest[..|rest| - 1];
      if rest[|rest| - 1] == '"'
        && forall i :: 0 <= i < |content| ==> content[i] != '"' && content[i] != '\\'
      then Some(content)
      else None
  }

  /** The file name never holds a quote or a backslash, so the header is a well-formed
      quoted-string from which the recipient recovers the file name exactly. */
  lemma FilenameReadsBack(title: string, audio: bool)
    ensures var name := Filename(title, audio);
      && (forall i :: 0 <= i < |name| ==> name[i] != '"' && name[i] != '\\')
      && QuotedFilename(ContentDisposition(name)) == Some(name)
  {
    var name := Filename(title, audio);
    assert AllWord(SanitizeTitle(title));
    var header := ContentDisposition(name);
    assert header[..|DispositionPrefix|] == DispositionPrefix;
    assert header[|DispositionPrefix|..] == name + "\"";
  }

  /** What a download handler streams. */
  datatype MediaKind = Audio | Video

  function MimeType(kind: MediaKind): string {
    if kind == Audio then "audio/mpeg" else "video/mp4"
  }

  /** The headers a download handler sets before streaming: the file name is the
      sanitised title with the extension of the media kind. */
  function DownloadHeaders(stem: string, kind: MediaKind): (h: map<string, string>)
    ensures h.Keys == {"Content-Disposition", "Content-Type"}
    ensures h["Content-Disposition"] == ContentDisposition(stem + (if kind == Audio then ".mp3" else ".mp4"))
  {
    map["Content-Disposition" := ContentDisposition(stem + (if kind == Audio then ".mp3" else ".mp4")),
        "Content-Type" := MimeType(kind)]
  }

  /** The file name a recipient reads back from the headers is the sanitised title with
      the kind's extension: only `[A-Za-z0-9_]` before the dot. */
  lemma DownloadHeadersReadBack(title: string, kind: MediaKind)
    ensures QuotedFilename(DownloadHeaders(SanitizeTitle(title), kind)["Content-Disposition"])
      == Some(Filename(title, kind == Audio))
  {
    FilenameReadsBack(title, kind == Audio);
  }
}
