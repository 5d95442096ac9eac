/** The universal controller: basic metadata from the noembed service, detailed
    metadata from yt-dlp under four identities tried in order, the field-wise merge of
    the two, the duration fallback, and the download chain over three identities. */
module Universal {
  import opened JsValues
  import opened JsStrings
  import opened VideoId
  import opened TitleSanitizer
  import opened YtDlpConfig
  import opened Fallback

  /** The five metadata fields both sources provide, as JavaScript values. */
  datatype VideoInfo = VideoInfo(
    title: JsValue, thumbnail: JsValue, duration: JsValue, author: JsValue, formats: JsValue)

  /** How one `--dump-json` run of yt-dlp ends as the handler sees it: the process closed
      with an exit code (None when a signal killed it), its stderr text, and what
      `JSON.parse` made of its stdout (a value, or the SyntaxError message); or the
      process could not be spawned. */
  datatype InfoRun =
    | Exited(code: Option<nat>, stderr: string, json: Result<JsValue>)
    | SpawnFailed(message: string)

  /** How one `--get-duration` run ends. */
  datatype DurationRun = DurationClosed(code: Option<nat>, stdout: string) | DurationSpawnFailed

  /** How the promise of one download attempt settles: it resolves after a clean exit,
      rejects while no byte has been sent, or never settles (the process failed after
      the stream started, so the response is only ended). */
  datatype DownloadOutcome = Completed | Rejected | Unsettled

  /** The world the handlers talk to: whether the cookies file exists and where, the
      HTTP client, and the outcome of each yt-dlp run for a given argument list. */
  datatype Backend = Backend(
    cookiesFound: bool,
    cookiesPath: string,
    fetch: string -> FetchOutcome,
    infoRun: seq<string> -> InfoRun,
    durationRun: seq<string> -> DurationRun,
    downloadRun: seq<string> -> DownloadOutcome)

  // ---------------------------------------------------------------- noembed

  const NoembedFailedPrefix: string := "Noembed failed: "

  /** The basic metadata for a URL from the noembed service. Every failure, including the
      URL without a video ID and a null response body, is re-thrown with the
      "Noembed failed: " prefix; a success carries no duration and no formats. */
  function GetVideoInfoNoembed(url: string, fetch: string -> FetchOutcome): (r: Result<VideoInfo>)
    ensures ExtractVideoId(url).None? ==> r == Err(NoembedFailedPrefix + InvalidUrl)
    ensures r.Err? ==> StartsWith(r.message, NoembedFailedPrefix)
    ensures r.Ok? <==>
      ExtractVideoId(url).Some? && fetch(NoembedUrl(ExtractVideoId(url).value)).Fetched?
      && !fetch(NoembedUrl(ExtractVideoId(url).value)).data.Undefined?
      && !fetch(NoembedUrl(ExtractVideoId(url).value)).data.Null?
    ensures r.Ok? ==>
      var data := fetch(NoembedUrl(ExtractVideoId(url).value)).data;
      && r.value.duration == Null && r.value.formats == Arr([])
      && r.value.title == Prop(data, "title").value
      && r.value.thumbnail == Prop(data, "thumbnail_url").value
      && r.value.author == Prop(data, "author_name").value
  {
    match ExtractVideoId(url)
    case None => Err(NoembedFailedPrefix + InvalidUrl)
    case Some(id) =>
      match fetch(NoembedUrl(id))
      case FetchFailed(message) => Err(NoembedFailedPrefix + message)
      case Fetched(data) =>
        if data.Undefined? || data.Null? then Err(NoembedFailedPrefix + TypeErrorMessage(data, "title"))
        else Ok(VideoInfo(Prop(data, "title").value, Prop(data, "thumbnail_url").value, Null,
                          Prop(data, "author_name").value, Arr([])))
  }

  /** The object getVideoInfoNoembed returns. */
  function NoembedFields(ne: VideoInfo): (m: map<string, JsValue>)
    ensures m.Keys == {"title", "thumbnail", "author", "duration", "formats", "method", "reliable"}
    ensures m["method"] == Str("noembed") && m["reliable"] == Bool(true)
  {
    map["title" := ne.title, "thumbnail" := ne.thumbnail, "author" := ne.author,
        "duration" := ne.duration, "formats" := ne.formats,
        "method" := Str("noembed"), "reliable" := Bool(true)]
  }

  // ---------------------------------------------------------------- yt-dlp info

  /** One identity of the info chain. */
  datatype InfoMethod = InfoMethod(name: string, useCookies: bool, useCustomUA: bool, mobile: bool)

  const InfoMethods: seq<InfoMethod> := [
    InfoMethod("with cookies", true, false, false),
    InfoMethod("without cookies", false, false, false),
    InfoMethod("different UA", false, true, false),
    InfoMethod("mobile UA", false, true, true)
  ]

  const InfoSwitches: seq<string> := ["--dump-json", "--no-playlist", "--no-check-certificate"]

  /** The user agent of an identity: iPhone when mobile, else Mac when custom, else Windows. */
  function InfoUserAgent(m: InfoMethod): string {
    if m.mobile then IPhoneUA else if m.useCustomUA then MacUA else WindowsUA
  }

  /** The argument list of a `--dump-json` run. */
  function InfoArgs(url: string, m: InfoMethod, cookiesFound: bool, cookiesPath: string): seq<string> {
    InfoSwitches + UserAgentOption(InfoUserAgent(m)) + CookiesOption(m.useCookies, cookiesFound, cookiesPath) + [url]
  }

  /** tryYtDlpMethod's argument builder, pushing onto the list step by step. */
  method BuildInfoArgs(url: string, m: InfoMethod, cookiesFound: bool, cookiesPath: string)
    returns (args: seq<string>)
    ensures args == InfoArgs(url, m, cookiesFound, cookiesPath)
  {
    args := ["--dump-json", "--no-playlist", "--no-check-certificate"];
    if m.mobile {
      args := args + [UserAgentFlag, IPhoneUA];
    } else if m.useCustomUA {
      args := args + [UserAgentFlag, MacUA];
    } else {
      args := args + [UserAgentFlag, WindowsUA];
    }
    if m.useCookies && cookiesFound {
      args := args + [CookiesFlag, cookiesPath];
    }
    args := args + [url];
  }

  /** What yt-dlp reads from an info argument list: the three switches first, exactly one
      user agent chosen by the identity, a cookies file exactly when the identity wants
      one and it exists, and the URL last. */
  lemma InfoArgsShape(url: string, m: InfoMethod, found: bool, path: string, query: string)
    ensures var args := InfoArgs(url, m, found, path);
      var options := args[..|args| - 1];
      && args[..3] == InfoSwitches
      && args[|args| - 1] == url
      && ValuesOf(options, UserAgentFlag) == [InfoUserAgent(m)]
      && ValuesOf(options, CookiesFlag) == (if m.useCookies && found then [path] else [])
      && (HasSwitch(options, query) <==> query in InfoSwitches)
  {
    var identity := UserAgentOption(InfoUserAgent(m)) + CookiesOption(m.useCookies, found, path);
    var args := InfoArgs(url, m, found, path);
    assert args[..|args| - 1] == InfoSwitches + identity;
    InfoOptionsRead(m, found, path, UserAgentFlag);
    InfoOptionsRead(m, found, path, CookiesFlag);
    InfoOptionsRead(m, found, path, query);
  }

  lemma InfoOptionsRead(m: InfoMethod, found: bool, path: string, q: string)
    ensures var identity := UserAgentOption(InfoUserAgent(m)) + CookiesOption(m.useCookies, found, path);
      && ValuesOf(InfoSwitches + identity, q)
         == (if q == UserAgentFlag then [InfoUserAgent(m)] else [])
            + (if q == CookiesFlag && m.useCookies && found then [path] else [])
      && (HasSwitch(InfoSwitches + identity, q) <==> q in InfoSwitches)
  {
    var identity := UserAgentOption(InfoUserAgent(m)) + CookiesOption(m.useCookies, found, path);
    Switches(InfoSwitches, q);
    IdentityOptions(InfoUserAgent(m), m.useCookies, found, path, q);
    ValuesOfAppend(InfoSwitches, identity, q);
  }

  const ExitCodePrefix: string := "Exit code "
  const JsonParseFailedPrefix: string := "JSON parse failed: "
  const SpawnFailedPrefix: string := "Spawn failed: "

  /** `${code}` for the exit code of a closed process. */
  function ExitCodeText(code: Option<nat>): string {
    if code.None? then "null" else DecimalString(code.value)
  }

  /** tryYtDlpMethod: a run succeeds only after exit code 0 with stdout that parses to a
      non-null value; the result takes its fields from the parsed object, the author
      from `uploader`. Each failure has its own message. */
  function TryYtDlpMethod(run: InfoRun): (r: Result<VideoInfo>)
    ensures run.SpawnFailed? ==> r == Err(SpawnFailedPrefix + run.message)
    ensures run.Exited? && run.code != Some(0) ==>
      r == Err(ExitCodePrefix + ExitCodeText(run.code) + ": " + run.stderr)
    ensures run.Exited? && run.code == Some(0) && run.json.Err? ==>
      r == Err(JsonParseFailedPrefix + run.json.message)
    ensures r.Ok? <==>
      run.Exited? && run.code == Some(0) && run.json.Ok?
      && !run.json.value.Null? && !run.json.value.Undefined?
    ensures r.Ok? ==>
      var info := run.json.value;
      && r.value.title == Prop(info, "title").value
      && r.value.thumbnail == Prop(info, "thumbnail").value
      && r.value.duration == Prop(info, "duration").value
      && r.value.author == Prop(info, "uploader").value
      && r.value.formats == Prop(info, "formats").value
  {
    match run
    case SpawnFailed(message) => Err(SpawnFailedPrefix + message)
    case Exited(code, stderr, json) =>
      if code != Some(0) then Err(ExitCodePrefix + ExitCodeText(code) + ": " + stderr)
      else match json
        case Err(message) => Err(JsonParseFailedPrefix + message)
        case Ok(info) =>
          if info.Null? || info.Undefined? then Err(JsonParseFailedPrefix + TypeErrorMessage(info, "title"))
          else Ok(VideoInfo(Prop(info, "title").value, Prop(info, "thumbnail").value,
                            Prop(info, "duration").value, Prop(info, "uploader").value,
                            Prop(info, "formats").value))
  }

  /** A result tagged with the name of the identity that produced it. */
  datatype TaggedInfo = TaggedInfo(info: VideoInfo, methodName: string)

  const AllYtDlpFailed: string := "All yt-dlp methods failed"

  predicate Succeeded(r: Result<VideoInfo>) {
    r.Ok?
  }

  /** The argument lists of the chain's identities, in list order. */
  function InfoPlan(url: string, b: Backend): (plan: seq<seq<string>>)
    ensures |plan| == |InfoMethods|
  {
    seq(|InfoMethods|, k requires 0 <= k < |InfoMethods| =>
      InfoArgs(url, InfoMethods[k], b.cookiesFound, b.cookiesPath))
  }

  /** What each identity of the chain would yield, in list order. */
  function InfoAttempts(url: string, b: Backend): (rs: seq<Result<VideoInfo>>)
    ensures |rs| == |InfoMethods|
  {
    var plan := InfoPlan(url, b);
    seq(|InfoMethods|, k requires 0 <= k < |InfoMethods| => TryYtDlpMethod(b.infoRun(plan[k])))
  }

  /** The outcome of the info chain: the first success, tagged with its identity's name;
      "All yt-dlp methods failed" exactly when all four fail. */
  function ChainOutcome(rs: seq<Result<VideoInfo>>): (r: Result<TaggedInfo>)
    requires |rs| == |InfoMethods|
  {
    match FirstWhere(rs, Succeeded)
    case Some(k) => Ok(TaggedInfo(rs[k].value, InfoMethods[k].name))
    case None => Err(AllYtDlpFailed)
  }

  /** The chain fails exactly when every identity failed, and then with "All yt-dlp
      methods failed"; otherwise it yields the first success, named after its identity. */
  lemma ChainOutcomeFirstSuccess(rs: seq<Result<VideoInfo>>)
    requires |rs| == |InfoMethods|
    ensures var r := ChainOutcome(rs);
      && (r.Err? <==> forall k :: 0 <= k < |rs| ==> rs[k].Err?)
      && (r.Err? ==> r.message == AllYtDlpFailed)
      && (r.Ok? ==> exists k :: 0 <= k < |rs| && rs[k].Ok?
                      && r.value == TaggedInfo(rs[k].value, InfoMethods[k].name)
                      && forall j :: 0 <= j < k ==> rs[j].Err?)
  {
  }

  /** One round of the loop: the identity's arguments are built and run. */
  method TryIdentity(url: string, b: Backend, i: nat) returns (args: seq<string>, result: Result<VideoInfo>)
    requires i < |InfoMethods|
    ensures args == InfoPlan(url, b)[i]
    ensures result == InfoAttempts(url, b)[i]
  {
    args := BuildInfoArgs(url, InfoMethods[i], b.cookiesFound, b.cookiesPath);
    result := TryYtDlpMethod(b.infoRun(args));
  }

  /** The info loop: each identity's arguments are built and run in order until one run
      succeeds, whose index and result are returned; the argument lists run are returned
      in order. */
  method RunInfoAttempts(url: string, b: Backend)
    returns (stopped: Option<nat>, r: Result<TaggedInfo>, tried: seq<seq<string>>)
    ensures stopped == FirstWhere(InfoAttempts(url, b), Succeeded)
    ensures r == ChainOutcome(InfoAttempts(url, b))
    ensures r.Ok? <==> stopped.Some?
    ensures stopped.Some? ==> r.value.methodName == InfoMethods[stopped.value].name
    ensures tried == InfoPlan(url, b)[..if stopped.Some? then stopped.value + 1 else |InfoMethods|]
  {
    var rs := InfoAttempts(url, b);
    ghost var plan := InfoPlan(url, b);
    tried := [];
    var i := 0;
    while i < |InfoMethods|
      invariant 0 <= i <= |InfoMethods|
      invariant tried == plan[..i]
      invariant NoneStops(rs, Succeeded, i)
    {
      var args, result := TryIdentity(url, b, i);
      PrefixGrows(plan, i);
      tried := tried + [args];
      if result.Ok? {
        FirstWhereIs(rs, Succeeded, i);
        return Some(i), Ok(TaggedInfo(result.value, InfoMethods[i].name)), tried;
      }
      NoneStopsStep(rs, Succeeded, i);
      i := i + 1;
    }
    return None, Err(AllYtDlpFailed), tried;
  }

  /** getVideoInfoYtDlp: the identities in list order, each run at most once, stopping at
      the first success, which is returned tagged with the identity's name. `tried` lists
      the argument lists actually run. */
  method GetVideoInfoYtDlp(url: string, b: Backend) returns (r: Result<TaggedInfo>, tried: seq<seq<string>>)
    ensures r == ChainOutcome(InfoAttempts(url, b))
    ensures 1 <= |tried| <= |InfoMethods|
    ensures tried == InfoPlan(url, b)[..|tried|]
    ensures r.Ok? ==> r.value.methodName == InfoMethods[|tried| - 1].name
    ensures r.Err? ==> |tried| == |InfoMethods|
  {
    var stopped;
    stopped, r, tried := RunInfoAttempts(url, b);
    if stopped.Some? {
      assert |tried| == stopped.value + 1;
    }
  }

  // ---------------------------------------------------------------- merge

  /** The five keys merged field by field. */
  const MergedKeys: seq<string> := ["title", "thumbnail", "duration", "author", "formats"]

  function Field(info: VideoInfo, key: string): JsValue {
    if key == "title" then info.title
    else if key == "thumbnail" then info.thumbnail
    else if key == "duration" then info.duration
    else if key == "author" then info.author
    else info.formats
  }

  /** The reply after both sources answered: each of the five fields is yt-dlp's value when
      it is truthy and noembed's otherwise, `method` is the identity that succeeded, a
      fallback is flagged as available, and the whole noembed result rides along. */
  function MergedInfo(yt: TaggedInfo, ne: VideoInfo): (body: map<string, JsValue>)
    ensures body.Keys == {"title", "thumbnail", "duration", "author", "formats",
                          "method", "fallbackAvailable", "noembedBackup"}
    ensures forall i :: 0 <= i < |MergedKeys| ==>
      (Truthy(Field(yt.info, MergedKeys[i])) ==> body[MergedKeys[i]] == Field(yt.info, MergedKeys[i]))
      && (!Truthy(Field(yt.info, MergedKeys[i])) ==> body[MergedKeys[i]] == Field(ne, MergedKeys[i]))
    ensures body["method"] == Str(yt.methodName) && body["fallbackAvailable"] == Bool(true)
    ensures body["noembedBackup"] == Obj(NoembedFields(ne))
  {
    map["title" := Or(yt.info.title, ne.title),
        "thumbnail" := Or(yt.info.thumbnail, ne.thumbnail),
        "duration" := Or(yt.info.duration, ne.duration),
        "author" := Or(yt.info.author, ne.author),
        "formats" := Or(yt.info.formats, ne.formats),
        "method" := Str(yt.methodName),
        "fallbackAvailable" := Bool(true),
        "noembedBackup" := Obj(NoembedFields(ne))]
  }

  /** A merged field is never less available than either source: it is truthy exactly
      when one of the two values is. */
  lemma MergedKeepsAvailable(yt: TaggedInfo, ne: VideoInfo, key: string)
    requires key in MergedKeys
    ensures key in MergedInfo(yt, ne)
    ensures Truthy(MergedInfo(yt, ne)[key]) <==> Truthy(Field(yt.info, key)) || Truthy(Field(ne, key))
  {
    var i :| 0 <= i < |MergedKeys| && MergedKeys[i] == key;
    assert key == MergedKeys[i];
  }

  // ---------------------------------------------------------------- duration

  const ShortWindowsUA: string := "Mozilla/5.0 (Windows NT 10.0; Win64; x64) AppleWebKit/537.36"

  function DurationArgs(url: string): seq<string> {
    ["--get-duration", "--no-playlist", "--no-check-certificate", UserAgentFlag, ShortWindowsUA, url]
  }

  /** `a * k` on parseInt results: NaN stays NaN. */
  function Scale(a: Option<int>, k: int): Option<int> {
    if a.None? then None else Some(a.value * k)
  }

  /** `a + b` on parseInt results: NaN when either is. */
  function Plus(a: Option<int>, b: Option<int>): Option<int> {
    if a.None? || b.None? then None else Some(a.value + b.value)
  }

  function NumberValue(a: Option<int>): JsValue {
    if a.None? then NaN else Num(a.value)
  }

  /** The duration read from a `--get-duration` run: with exit code 0 and non-blank output,
      `m:ss` gives `m*60+s` and `h:mm:ss` gives `h*3600+m*60+s` (NaN when a part does not
      parse); any other shape, a failed exit or blank output gives null. */
  function ParseDurationOutput(code: Option<nat>, stdout: string): (d: JsValue)
    ensures d.Null? || d.NaN? || d.Num?
    ensures code != Some(0) || Trim(stdout) == [] ==> d == Null
    ensures code == Some(0) && Trim(stdout) != [] ==>
      (d.Null? <==> |Split(Trim(stdout), ':')| != 2 && |Split(Trim(stdout), ':')| != 3)
  {
    if code == Some(0) && Trim(stdout) != [] then
      var parts := Split(Trim(stdout), ':');
      if |parts| == 2 then
        NumberValue(Plus(Scale(ParseInt(parts[0]), 60), ParseInt(parts[1])))
      else if |parts| == 3 then
        NumberValue(Plus(Plus(Scale(ParseInt(parts[0]), 3600), Scale(ParseInt(parts[1]), 60)), ParseInt(parts[2])))
      else Null
    else Null
  }

  /** Digits joined by colons and followed by white space trim to themselves. */
  lemma {:induction false} TrimDigitText(text: string, pad: string)
    requires text != [] && IsDecimalDigit(text[0]) && IsDecimalDigit(text[|text| - 1])
    requires forall i :: 0 <= i < |pad| ==> IsJsSpace(pad[i])
    ensures Trim(text + pad) == text
  {
    TrimPadded(text, pad);
  }

  /** The seconds in `m:ss`. */
  function MinutesClock(m: int, s: int): int {
    m * 60 + s
  }

  /** The seconds in `h:mm:ss`. */
  function HoursClock(h: int, m: int, s: int): int {
    h * 3600 + m * 60 + s
  }

  lemma ClockMinutes(a: int, b: int)
    ensures NumberValue(Plus(Scale(Some(a), 60), Some(b))) == Num(MinutesClock(a, b))
  {
  }

  lemma ClockHours(a: int, b: int, c: int)
    ensures NumberValue(Plus(Plus(Scale(Some(a), 3600), Scale(Some(b), 60)), Some(c))) == Num(HoursClock(a, b, c))
  {
  }

  /** How the two- and three-part shapes are read. */
  lemma {:induction false} ReadParts(stdout: string, parts: seq<string>)
    requires Trim(stdout) != [] && Split(Trim(stdout), ':') == parts
    ensures |parts| == 2 ==>
      ParseDurationOutput(Some(0), stdout) == NumberValue(Plus(Scale(ParseInt(parts[0]), 60), ParseInt(parts[1])))
    ensures |parts| == 3 ==>
      ParseDurationOutput(Some(0), stdout)
      == NumberValue(Plus(Plus(Scale(ParseInt(parts[0]), 3600), Scale(ParseInt(parts[1]), 60)), ParseInt(parts[2])))
  {
  }

  /** Output whose trimmed text is `m:s` in digits. */
  lemma {:induction false} ReadMinutes(stdout: string, m: string, s: string)
    requires m != [] && AllDecimal(m) && s != [] && AllDecimal(s)
    requires Trim(stdout) == m + ":" + s
    ensures ParseDurationOutput(Some(0), stdout) == Num(MinutesClock(DigitsValue(m, 10), DigitsValue(s, 10)))
  {
    SplitNone(s, ':');
    SplitFirst(m, ':', s);
    ReadParts(stdout, [m, s]);
    ParseIntDecimal(m);
    ParseIntDecimal(s);
    ClockMinutes(DigitsValue(m, 10), DigitsValue(s, 10));
  }

  /** Output whose trimmed text is `h:m:s` in digits. */
  lemma {:induction false} ReadHours(stdout: string, h: string, m: string, s: string)
    requires h != [] && AllDecimal(h) && m != [] && AllDecimal(m) && s != [] && AllDecimal(s)
    requires Trim(stdout) == h + [':'] + (m + [':'] + s)
    ensures ParseDurationOutput(Some(0), stdout) == Num(HoursClock(DigitsValue(h, 10), DigitsValue(m, 10), DigitsValue(s, 10)))
  {
    assert Split(m + [':'] + s, ':') == [m, s] by {
      SplitNone(s, ':');
      SplitFirst(m, ':', s);
    }
    SplitFirst(h, ':', m + [':'] + s);
    ReadParts(stdout, [h, m, s]);
    ParseIntDecimal(h);
    ParseIntDecimal(m);
    ParseIntDecimal(s);
    ClockHours(DigitsValue(h, 10), DigitsValue(m, 10), DigitsValue(s, 10));
  }

  /** `m:ss` in digits, followed by any trailing white space (yt-dlp ends its line with a
      newline), reads as `m*60+s` seconds. */
  lemma {:induction false} DurationMinutes(m: string, s: string, pad: string)
    requires m != [] && AllDecimal(m) && s != [] && AllDecimal(s)
    requires forall i :: 0 <= i < |pad| ==> IsJsSpace(pad[i])
    ensures ParseDurationOutput(Some(0), m + ":" + s + pad)
      == Num(MinutesClock(DigitsValue(m, 10), DigitsValue(s, 10)))
  {
    var out := m + ":" + s + pad;
    TrimClockText(m, m + ":" + s, s, pad);
    ReadMinutes(out, m, s);
  }

  /** `h:mm:ss` in digits, followed by any trailing white space, reads as
      `h*3600+m*60+s` seconds. */
  lemma {:induction false} DurationHours(h: string, m: string, s: string, pad: string)
    requires h != [] && AllDecimal(h) && m != [] && AllDecimal(m) && s != [] && AllDecimal(s)
    requires forall i :: 0 <= i < |pad| ==> IsJsSpace(pad[i])
    ensures ParseDurationOutput(Some(0), h + ":" + m + ":" + s + pad)
      == Num(HoursClock(DigitsValue(h, 10), DigitsValue(m, 10), DigitsValue(s, 10)))
  {
    var text := h + ":" + m + ":" + s;
    TrimClockText(h, text, s, pad);
    ConcatAssoc(h + ":" + m, ":", s);
    ConcatAssoc(h + ":", m, ":" + s);
    ConcatAssoc(h, ":", m + ":" + s);
    ConcatAssoc(m, ":", s);
    ReadHours(text + pad, h, m, s);
  }

  lemma ConcatAssoc(a: string, b: string, c: string)
    ensures a + b + c == a + (b + c)
  {
  }

  /** Text that starts and ends with a digit, followed by white space, trims to itself. */
  lemma {:induction false} TrimClockText(first: string, text: string, last: string, pad: string)
    requires first != [] && AllDecimal(first) && last != [] && AllDecimal(last)
    requires StartsWith(text, first) && EndsWith(text, last)
    requires forall i :: 0 <= i < |pad| ==> IsJsSpace(pad[i])
    ensures Trim(text + pad) == text
  {
    assert text[0] == first[0] && text[|text| - 1] == last[|last| - 1];
    TrimDigitText(text, pad);
  }

  /** A plain count of seconds, without a colon, is not read at all: the duration is
      null. */
  lemma {:induction false} DurationSeconds(s: string, pad: string)
    requires s != [] && AllDecimal(s)
    requires forall i :: 0 <= i < |pad| ==> IsJsSpace(pad[i])
    ensures ParseDurationOutput(Some(0), s + pad) == Null
  {
    var out := s + pad;
    assert Trim(out) == s by {
      TrimClockText(s, s, s, pad);
    }
    assert |Split(Trim(out), ':')| == 1 by {
      SplitNone(s, ':');
    }
  }

  /** The duration of the noembed-only reply: noembed's own when truthy, otherwise what a
      `--get-duration` run yields; a run that cannot be spawned leaves noembed's. */
  function FallbackDuration(url: string, ne: VideoInfo, b: Backend): (d: JsValue)
    ensures Truthy(ne.duration) ==> d == ne.duration
    ensures !Truthy(ne.duration) && b.durationRun(DurationArgs(url)).DurationClosed? ==>
      d == ParseDurationOutput(b.durationRun(DurationArgs(url)).code, b.durationRun(DurationArgs(url)).stdout)
    ensures !Truthy(ne.duration) && b.durationRun(DurationArgs(url)).DurationSpawnFailed? ==> d == ne.duration
  {
    if Truthy(ne.duration) then ne.duration
    else match b.durationRun(DurationArgs(url))
      case DurationClosed(code, stdout) => ParseDurationOutput(code, stdout)
      case DurationSpawnFailed => ne.duration
  }

  // ---------------------------------------------------------------- info handler

  const LimitedWarning: string := "Limited functionality - using basic info only"

  /** The noembed-only reply: noembed's fields with the duration replaced, a warning, and
      the message of the failed chain. */
  function NoembedOnlyBody(ne: VideoInfo, duration: JsValue, ytDlpError: string): (body: map<string, JsValue>)
    ensures body.Keys == NoembedFields(ne).Keys + {"warning", "ytDlpError"}
    ensures body["duration"] == duration && body["ytDlpError"] == Str(ytDlpError)
    ensures forall k :: k in NoembedFields(ne) && k != "duration" ==> body[k] == NoembedFields(ne)[k]
  {
    NoembedFields(ne)["duration" := duration]["warning" := Str(LimitedWarning)]["ytDlpError" := Str(ytDlpError)]
  }

  /** The 500 reply when even noembed failed. */
  function InfoFailureBody(details: string): map<string, JsValue> {
    map["error" := Str("Unable to fetch video information"),
        "details" := Str(details),
        "suggestion" := Str("Please check the URL and try again"),
        "troubleshooting" := StrArray([
          "Make sure the video is public and not region-restricted",
          "Try a different YouTube video",
          "The service might be temporarily unavailable"])]
  }

  /** getVideoInfoUniversal: a missing URL is rejected; noembed is asked first and its
      failure is the only 500; yt-dlp's chain is tried only after noembed succeeded, and
      its failure still yields a 200 with noembed's fields. */
  method GetVideoInfoUniversal(url: Option<string>, b: Backend) returns (reply: Reply, chainRan: bool)
    ensures Missing(url) ==> reply == ErrorReply(400, UrlRequired) && !chainRan
    ensures !Missing(url) ==>
      var ne := GetVideoInfoNoembed(url.value, b.fetch);
      var yt := ChainOutcome(InfoAttempts(url.value, b));
      && (chainRan <==> ne.Ok?)
      && (ne.Err? ==> reply == Reply(500, InfoFailureBody(ne.message)))
      && (ne.Ok? && yt.Ok? ==> reply == Reply(200, MergedInfo(yt.value, ne.value)))
      && (ne.Ok? && yt.Err? ==>
            reply == Reply(200, NoembedOnlyBody(ne.value, FallbackDuration(url.value, ne.value, b), yt.message)))
  {
    chainRan := false;
    if Missing(url) {
      return ErrorReply(400, UrlRequired), chainRan;
    }
    var u := url.value;
    var ne := GetVideoInfoNoembed(u, b.fetch);
    if ne.Err? {
      return Reply(500, InfoFailureBody(ne.message)), chainRan;
    }
    var yt, _ := GetVideoInfoYtDlp(u, b);
    chainRan := true;
    if yt.Ok? {
      reply := Reply(200, MergedInfo(yt.value, ne.value));
    } else {
      var duration := ne.value.duration;
      if !Truthy(duration) {
        var run := b.durationRun(DurationArgs(u));
        if run.DurationClosed? {
          duration := ParseDurationOutput(run.code, run.stdout);
        }
      }
      reply := Reply(200, NoembedOnlyBody(ne.value, duration, yt.message));
    }
  }

  // ---------------------------------------------------------------- download

  datatype DownloadConfig = DownloadConfig(useCookies: bool, useCustomUA: bool)

  const DownloadConfigs: seq<DownloadConfig> := [
    DownloadConfig(true, false), DownloadConfig(false, false), DownloadConfig(false, true)
  ]

  const AudioFormat: string := "bestaudio[ext=m4a]/bestaudio"
  const DefaultVideoFormat: string := "bestvideo[ext=mp4]+bestaudio[ext=m4a]/best[ext=mp4]/best"
  const DownloadSwitches: seq<string> := ["-o", "-", "--no-playlist", "--no-check-certificate"]
  const AudioExtraction: seq<string> := ["--extract-audio", "--audio-format", "mp3", "--audio-quality", "0"]

  /** The selector capped at a height, as text. */
  function CappedFormat(height: string): string {
    "bestvideo[height<=" + height + "][ext=mp4]+bestaudio[ext=m4a]/best[height<=" + height
      + "][ext=mp4]/best[height<=" + height + "]"
  }

  /** The video selector: capped at the quality with its first `p` removed when a height
      is wanted, the default otherwise. */
  function VideoFormat(quality: Option<string>): string {
    if WantsHeight(quality) then CappedFormat(HeightOf(quality.value)) else DefaultVideoFormat
  }

  function MediaOptions(kind: MediaKind, quality: Option<string>): seq<string> {
    if kind == Audio then [FormatFlag, AudioFormat] + AudioExtraction
    else [FormatFlag, VideoFormat(quality), MergeFormatFlag, "mp4"]
  }

  function DownloadUserAgent(c: DownloadConfig): string {
    if c.useCustomUA then MacUA else WindowsUA
  }

  /** The argument list of one download attempt. */
  function DownloadArgs(url: string, kind: MediaKind, quality: Option<string>, c: DownloadConfig,
                        cookiesFound: bool, cookiesPath: string): seq<string>
  {
    DownloadSwitches + MediaOptions(kind, quality) + UserAgentOption(DownloadUserAgent(c))
      + CookiesOption(c.useCookies, cookiesFound, cookiesPath) + [url]
  }

  /** performDownload's argument builder. */
  method BuildDownloadArgs(url: string, kind: MediaKind, quality: Option<string>, c: DownloadConfig,
                           cookiesFound: bool, cookiesPath: string) returns (args: seq<string>)
    ensures args == DownloadArgs(url, kind, quality, c, cookiesFound, cookiesPath)
  {
    args := DownloadSwitches;
    if kind == Audio {
      args := args + [FormatFlag, AudioFormat] + AudioExtraction;
    } else {
      var format := DefaultVideoFormat;
      if !Missing(quality) && quality.value != "auto" && Contains(quality.value, "p") {
        var height := ReplaceFirst(quality.value, "p", "");
        format := CappedFormat(height);
      }
      args := args + [FormatFlag, format];
      args := args + [MergeFormatFlag, "mp4"];
    }
    assert args == DownloadSwitches + MediaOptions(kind, quality);
    if c.useCustomUA {
      args := args + [UserAgentFlag, MacUA];
    } else {
      args := args + [UserAgentFlag, WindowsUA];
    }
    if c.useCookies && cookiesFound {
      args := args + [CookiesFlag, cookiesPath];
    }
    args := args + [url];
  }

  /** What yt-dlp reads from a download argument list: output to stdout, the audio
      selector with mp3 extraction for audio, the video selector with an mp4 merge for
      video, exactly one user agent, cookies exactly when wanted and present, and the
      URL last. */
  lemma DownloadArgsShape(url: string, kind: MediaKind, quality: Option<string>, c: DownloadConfig,
                          found: bool, path: string)
    ensures var args := DownloadArgs(url, kind, quality, c, found, path);
      var options := args[..|args| - 1];
      && args[|args| - 1] == url
      && ValuesOf(options, OutputFlag) == ["-"]
      && ValuesOf(options, FormatFlag) == [if kind == Audio then AudioFormat else VideoFormat(quality)]
      && ValuesOf(options, MergeFormatFlag) == (if kind == Video then ["mp4"] else [])
      && ValuesOf(options, "--audio-format") == (if kind == Audio then ["mp3"] else [])
      && (HasSwitch(options, "--extract-audio") <==> kind == Audio)
      && ValuesOf(options, UserAgentFlag) == [DownloadUserAgent(c)]
      && ValuesOf(options, CookiesFlag) == (if c.useCookies && found then [path] else [])
  {
    DownloadOptionsRead(url, kind, quality, c, found, path, OutputFlag);
    DownloadOptionsRead(url, kind, quality, c, found, path, FormatFlag);
    DownloadOptionsRead(url, kind, quality, c, found, path, MergeFormatFlag);
    DownloadOptionsRead(url, kind, quality, c, found, path, "--audio-format");
    DownloadOptionsRead(url, kind, quality, c, found, path, "--extract-audio");
    DownloadOptionsRead(url, kind, quality, c, found, path, UserAgentFlag);
    DownloadOptionsRead(url, kind, quality, c, found, path, CookiesFlag);
  }

  /** The options of a download argument list, read for one query. */
  lemma DownloadOptionsRead(url: string, kind: MediaKind, quality: Option<string>, c: DownloadConfig,
                            found: bool, path: string, q: string)
    ensures var args := DownloadArgs(url, kind, quality, c, found, path);
      var options := args[..|args| - 1];
      && args[|args| - 1] == url
      && ValuesOf(options, q)
         == (if q == OutputFlag then ["-"] else [])
            + ((if q == FormatFlag then [if kind == Audio then AudioFormat else VideoFormat(quality)] else [])
               + (if q == MergeFormatFlag && kind == Video then ["mp4"] else [])
               + (if q == "--audio-format" && kind == Audio then ["mp3"] else [])
               + (if q == "--audio-quality" && kind == Audio then ["0"] else [])
               + ((if q == UserAgentFlag then [DownloadUserAgent(c)] else [])
                  + (if q == CookiesFlag && c.useCookies && found then [path] else [])))
      && (HasSwitch(options, q)
          <==> q == "--no-playlist" || q == "--no-check-certificate" || (kind == Audio && q == "--extract-audio"))
  {
    var args := DownloadArgs(url, kind, quality, c, found, path);
    var media := MediaOptions(kind, quality);
    var identity := UserAgentOption(DownloadUserAgent(c)) + CookiesOption(c.useCookies, found, path);
    assert args[..|args| - 1] == DownloadSwitches + (media + identity) by {
      assert args == DownloadSwitches + media + identity + [url];
    }
    SwitchesRead(q);
    MediaRead(kind, quality, q);
    IdentityOptions(DownloadUserAgent(c), c.useCookies, found, path, q);
    ValuesOfAppend3(DownloadSwitches, media, identity, q);
  }

  /** `-o - --no-playlist --no-check-certificate`. */
  lemma SwitchesRead(q: string)
    ensures Closed(DownloadSwitches)
    ensures ValuesOf(DownloadSwitches, q) == (if q == OutputFlag then ["-"] else [])
    ensures HasSwitch(DownloadSwitches, q) <==> q == "--no-playlist" || q == "--no-check-certificate"
  {
    var bare := ["--no-playlist", "--no-check-certificate"];
    assert DownloadSwitches == [OutputFlag, "-"] + bare;
    ValuedPair(OutputFlag, "-", q);
    Switches(bare, q);
    ValuesOfAppend([OutputFlag, "-"], bare, q);
    ClosedAppend([OutputFlag, "-"], bare);
  }

  /** The media options of each kind. */
  lemma MediaRead(kind: MediaKind, quality: Option<string>, q: string)
    ensures var media := MediaOptions(kind, quality);
      && Closed(media)
      && ValuesOf(media, q)
         == (if q == FormatFlag then [if kind == Audio then AudioFormat else VideoFormat(quality)] else [])
            + (if q == MergeFormatFlag && kind == Video then ["mp4"] else [])
            + (if q == "--audio-format" && kind == Audio then ["mp3"] else [])
            + (if q == "--audio-quality" && kind == Audio then ["0"] else [])
      && (HasSwitch(media, q) <==> kind == Audio && q == "--extract-audio")
  {
    if kind == Audio {
      var format := [FormatFlag, AudioFormat];
      var extract := ["--extract-audio"];
      var audioFormat := ["--audio-format", "mp3"];
      var audioQuality := ["--audio-quality", "0"];
      assert MediaOptions(kind, quality) == format + (extract + (audioFormat + audioQuality));
      ValuedPair(FormatFlag, AudioFormat, q);
      BareSwitch("--extract-audio", q);
      ValuedPair("--audio-format", "mp3", q);
      ValuedPair("--audio-quality", "0", q);
      ValuesOfAppend(audioFormat, audioQuality, q);
      ClosedAppend(audioFormat, audioQuality);
      ValuesOfAppend(extract, audioFormat + audioQuality, q);
      ClosedAppend(extract, audioFormat + audioQuality);
      ValuesOfAppend(format, extract + (audioFormat + audioQuality), q);
      ClosedAppend(format, extract + (audioFormat + audioQuality));
    } else {
      var format := [FormatFlag, VideoFormat(quality)];
      var merge := [MergeFormatFlag, "mp4"];
      assert MediaOptions(kind, quality) == format + merge;
      ValuedPair(FormatFlag, VideoFormat(quality), q);
      ValuedPair(MergeFormatFlag, "mp4", q);
      ValuesOfAppend(format, merge, q);
      ClosedAppend(format, merge);
    }
  }

  /** The height-capped selector for a quality such as "720p" caps at the digits before
      the `p`. */
  lemma VideoFormatHeight(digits: string)
    requires forall i :: 0 <= i < |digits| ==> digits[i] != 'p'
    ensures VideoFormat(Some(digits + "p")) == CappedFormat(digits)
  {
    HeightOfQuality(digits);
  }

  /** A quality that is missing, "auto" or without a `p` keeps the default selector. */
  lemma VideoFormatDefault(quality: Option<string>)
    requires Missing(quality) || quality.value == "auto" || !Contains(quality.value, "p")
    ensures VideoFormat(quality) == DefaultVideoFormat
  {
  }

  // ---------------------------------------------------------------- download handler

  /** How the download handler ends: with a JSON reply, with the stream of attempt `k`
      completed, or with attempt `k` left hanging after its stream started. */
  datatype DownloadEnd = Replied(reply: Reply) | Streamed(attempt: nat) | Stalled(attempt: nat)

  /** The object the download handler describes the video with. */
  function TaggedFields(t: TaggedInfo): (m: map<string, JsValue>)
    ensures m.Keys == {"title", "thumbnail", "duration", "author", "formats", "method"}
    ensures m["title"] == t.info.title && m["method"] == Str(t.methodName)
  {
    map["title" := t.info.title, "thumbnail" := t.info.thumbnail, "duration" := t.info.duration,
        "author" := t.info.author, "formats" := t.info.formats, "method" := Str(t.methodName)]
  }

  /** The video description of the download handler: yt-dlp's chain first, noembed only
      when the chain failed; noembed's failure is the error. */
  function DownloadInfo(url: string, b: Backend): (r: Result<map<string, JsValue>>)
    ensures r.Ok? ==> "title" in r.value
    ensures r.Err? <==> ChainOutcome(InfoAttempts(url, b)).Err? && GetVideoInfoNoembed(url, b.fetch).Err?
    ensures r.Err? ==> r.message == GetVideoInfoNoembed(url, b.fetch).message
  {
    var yt := ChainOutcome(InfoAttempts(url, b));
    if yt.Ok? then Ok(TaggedFields(yt.value))
    else match GetVideoInfoNoembed(url, b.fetch)
      case Ok(ne) => Ok(NoembedFields(ne))
      case Err(message) => Err(message)
  }

  /** The sanitised title, or the message of the error thrown while getting it. */
  function DownloadTitle(url: string, b: Backend): (r: Result<string>)
    ensures DownloadInfo(url, b).Err? ==> r == Err(DownloadInfo(url, b).message)
    ensures r.Ok? ==> (DownloadInfo(url, b).Ok? && DownloadInfo(url, b).value["title"].Str?
                       && r.value == SanitizeTitle(DownloadInfo(url, b).value["title"].s))
  {
    var info := DownloadInfo(url, b);
    if info.Err? then Err(info.message) else SanitizeTitleValue(info.value["title"], "info.title")
  }

  /** The description step of the download handler as it runs: the yt-dlp chain, then
      noembed only when the chain failed, then the title clean-up. */
  method DescribeForDownload(u: string, b: Backend)
    returns (info: Result<map<string, JsValue>>, title: Result<string>)
    ensures info == DownloadInfo(u, b)
    ensures title == DownloadTitle(u, b)
  {
    var yt, _ := GetVideoInfoYtDlp(u, b);
    if yt.Ok? {
      info := Ok(TaggedFields(yt.value));
    } else {
      var ne := GetVideoInfoNoembed(u, b.fetch);
      info := if ne.Ok? then Ok(NoembedFields(ne.value)) else Err(ne.message);
    }
    if info.Err? {
      title := Err(info.message);
    } else {
      title := SanitizeTitleValue(info.value["title"], "info.title");
    }
  }

  predicate EndsChain(o: DownloadOutcome) {
    !o.Rejected?
  }

  /** The download argument lists of the identities, in list order. */
  function DownloadPlan(url: string, kind: MediaKind, quality: Option<string>, b: Backend): (plan: seq<seq<string>>)
    ensures |plan| == |DownloadConfigs|
  {
    seq(|DownloadConfigs|, k requires 0 <= k < |DownloadConfigs| =>
      DownloadArgs(url, kind, quality, DownloadConfigs[k], b.cookiesFound, b.cookiesPath))
  }

  /** What each download identity would yield, in list order. */
  function DownloadOutcomes(url: string, kind: MediaKind, quality: Option<string>, b: Backend): (os: seq<DownloadOutcome>)
    ensures |os| == |DownloadConfigs|
  {
    var plan := DownloadPlan(url, kind, quality, b);
    seq(|DownloadConfigs|, k requires 0 <= k < |DownloadConfigs| => b.downloadRun(plan[k]))
  }

  function InitFailedBody(details: string): map<string, JsValue> {
    map["error" := Str("Download initialization failed"), "details" := Str(details)]
  }

  function AllDownloadsFailedBody(info: map<string, JsValue>): map<string, JsValue> {
    map["error" := Str("Download failed"), "details" := Str("All download methods failed"),
        "suggestion" := Str("Try again later or use a different video"), "videoInfo" := Obj(info)]
  }

  /** How the download chain ends: streamed or stalled at the first attempt that does
      not reject, or the 500 carrying the description when every attempt rejected. */
  function ChainEnd(outcomes: seq<DownloadOutcome>, info: map<string, JsValue>): (end: DownloadEnd)
    ensures end.Replied? <==> forall k :: 0 <= k < |outcomes| ==> outcomes[k].Rejected?
    ensures end.Replied? ==> end.reply == Reply(500, AllDownloadsFailedBody(info))
    ensures !end.Replied? ==>
      && end.attempt < |outcomes| && !outcomes[end.attempt].Rejected?
      && (end.Streamed? <==> outcomes[end.attempt].Completed?)
      && forall j :: 0 <= j < end.attempt ==> outcomes[j].Rejected?
  {
    match FirstWhere(outcomes, EndsChain)
    case Some(k) => if outcomes[k].Completed? then Streamed(k) else Stalled(k)
    case None => Replied(Reply(500, AllDownloadsFailedBody(info)))
  }

  /** The download loop: each configuration's arguments are built and run in order until
      one run ends the chain, whose index is returned; the argument lists run are returned
      in order. */
  method RunDownloads(u: string, kind: MediaKind, quality: Option<string>, b: Backend)
    returns (stopped: Option<nat>, tried: seq<seq<string>>)
    ensures stopped == FirstWhere(DownloadOutcomes(u, kind, quality, b), EndsChain)
    ensures tried == DownloadPlan(u, kind, quality, b)[..if stopped.Some? then stopped.value + 1 else |DownloadConfigs|]
  {
    var outcomes := DownloadOutcomes(u, kind, quality, b);
    ghost var plan := DownloadPlan(u, kind, quality, b);
    tried := [];
    var i := 0;
    while i < |DownloadConfigs|
      invariant 0 <= i <= |DownloadConfigs|
      invariant tried == plan[..i]
      invariant NoneStops(outcomes, EndsChain, i)
    {
      var args := BuildDownloadArgs(u, kind, quality, DownloadConfigs[i], b.cookiesFound, b.cookiesPath);
      assert args == plan[i];
      PrefixGrows(plan, i);
      tried := tried + [args];
      var outcome := b.downloadRun(args);
      if !outcome.Rejected? {
        FirstWhereIs(outcomes, EndsChain, i);
        return Some(i), tried;
      }
      NoneStopsStep(outcomes, EndsChain, i);
      i := i + 1;
    }
    stopped := None;
  }

  /** downloadUniversal: after the URL check and the video description, the download
      identities are tried in list order and the first attempt that does not reject
      ends the handler; the 500 carrying the description is sent only when every attempt
      rejected. `tried` lists the download argument lists actually run. */
  method DownloadUniversal(url: Option<string>, quality: Option<string>, kind: MediaKind, b: Backend)
    returns (end: DownloadEnd, headers: map<string, string>, tried: seq<seq<string>>)
    ensures Missing(url) ==> end == Replied(ErrorReply(400, UrlRequired)) && headers == map[] && tried == []
    ensures !Missing(url) && DownloadTitle(url.value, b).Err? ==>
      end == Replied(Reply(500, InitFailedBody(DownloadTitle(url.value, b).message))) && headers == map[] && tried == []
    ensures !Missing(url) && DownloadTitle(url.value, b).Ok? ==>
      && headers == DownloadHeaders(DownloadTitle(url.value, b).value, kind)
      && end == ChainEnd(DownloadOutcomes(url.value, kind, quality, b), DownloadInfo(url.value, b).value)
      && |tried| == (if end.Replied? then |DownloadConfigs| else end.attempt + 1)
    ensures |tried| <= |DownloadConfigs|
    ensures !Missing(url) ==> tried == DownloadPlan(url.value, kind, quality, b)[..|tried|]
  {
    headers := map[];
    tried := [];
    if Missing(url) {
      return Replied(ErrorReply(400, UrlRequired)), headers, tried;
    }
    var u := url.value;
    var info, title := DescribeForDownload(u, b);
    if title.Err? {
      return Replied(Reply(500, InitFailedBody(title.message))), headers, tried;
    }
    headers := DownloadHeaders(title.value, kind);
    end, tried := DownloadChain(u, kind, quality, b, info.value);
  }

  /** The download chain after the headers are set: the loop, then the reply when every
      attempt rejected. */
  method DownloadChain(u: string, kind: MediaKind, quality: Option<string>, b: Backend, info: map<string, JsValue>)
    returns (end: DownloadEnd, tried: seq<seq<string>>)
    ensures end == ChainEnd(DownloadOutcomes(u, kind, quality, b), info)
    ensures |tried| == (if end.Replied? then |DownloadConfigs| else end.attempt + 1)
    ensures tried == DownloadPlan(u, kind, quality, b)[..|tried|]
  {
    var stopped;
    stopped, tried := RunDownloads(u, kind, quality, b);
    if stopped.Some? {
      var k := stopped.value;
      end := if DownloadOutcomes(u, kind, quality, b)[k].Completed? then Streamed(k) else Stalled(k);
    } else {
      end := Replied(Reply(500, AllDownloadsFailedBody(info)));
    }
  }

  // ---------------------------------------------------------------- performDownload as written

  /** One attempt of performDownload as the code is written: after spawning, the promise's
      executor registers a handler on `req`, which is not in scope there, so the
      ReferenceError rejects the promise before any event of the run arrives. */
  function PerformDownloadAsWritten(run: DownloadOutcome): DownloadOutcome {
    Rejected
  }

  /** The outcomes the download loop sees as the code is written. */
  function DownloadOutcomesAsWritten(url: string, kind: MediaKind, quality: Option<string>, b: Backend)
    : (os: seq<DownloadOutcome>)
    ensures |os| == |DownloadConfigs|
  {
    var plan := DownloadPlan(url, kind, quality, b);
    seq(|DownloadConfigs|, k requires 0 <= k < |DownloadConfigs| => PerformDownloadAsWritten(b.downloadRun(plan[k])))
  }

  /** As written, every download ends with the 500 "Download failed" reply after all three
      runs were spawned, even for a backend whose first run completes; with the ordering
      the loop is meant to have, that backend's first run is the one streamed. */
  lemma ReqOutOfScopeRefusesEveryDownload(u: string, kind: MediaKind, quality: Option<string>, b: Backend,
                                          info: map<string, JsValue>)
    ensures ChainEnd(DownloadOutcomesAsWritten(u, kind, quality, b), info)
      == Replied(Reply(500, AllDownloadsFailedBody(info)))
    ensures DownloadOutcomes(u, kind, quality, b)[0].Completed? ==>
      ChainEnd(DownloadOutcomes(u, kind, quality, b), info) == Streamed(0)
  {
    var os := DownloadOutcomesAsWritten(u, kind, quality, b);
    assert forall k :: 0 <= k < |os| ==> os[k].Rejected?;
  }
}
