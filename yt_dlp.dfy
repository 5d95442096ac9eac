/** The yt-dlp controller: the default identity options, the info handler that retries
    three identities through its `currentMethod` counter, and the audio and video download
    handlers with their info stage. Each yt-dlp run is given as its exit event. */
module YtDlp {
  import opened JsValues
  import opened JsStrings
  import opened VideoId
  import opened TitleSanitizer
  import opened YtDlpConfig
  import opened Fallback

  /** How a yt-dlp run ended: its exit code (None for a run killed by a signal), what
      `JSON.parse` made of its standard output (the parsed document or the parse error's
      message), and its standard error. */
  datatype ProcessExit = ProcessExit(code: Option<int>, stdout: Result<JsValue>, stderr: string)

  // ---------------------------------------------------------------- default arguments

  const NoPlaylist: string := "--no-playlist"

  /** getDefaultArgs: the Windows user agent and `--no-playlist`, then the cookies file
      when it exists. */
  function DefaultArgs(cookiesFound: bool, cookiesPath: string): seq<string> {
    UserAgentOption(WindowsUA) + [NoPlaylist] + CookiesOption(true, cookiesFound, cookiesPath)
  }

  /** getDefaultArgs as it runs, pushing onto the list. */
  method BuildDefaultArgs(cookiesFound: bool, cookiesPath: string) returns (args: seq<string>)
    ensures args == DefaultArgs(cookiesFound, cookiesPath)
  {
    args := [UserAgentFlag, WindowsUA, NoPlaylist];
    if cookiesFound {
      args := args + [CookiesFlag, cookiesPath];
    }
  }

  /** The default options always begin with the Windows user agent and `--no-playlist`;
      yt-dlp reads exactly that user agent from them, the cookies file exactly when it
      exists, and no switch but `--no-playlist`. */
  lemma DefaultArgsShape(found: bool, path: string, q: string)
    ensures var args := DefaultArgs(found, path);
      && args[..3] == [UserAgentFlag, WindowsUA, NoPlaylist]
      && Closed(args)
      && ValuesOf(args, q)
         == (if q == UserAgentFlag then [WindowsUA] else []) + (if q == CookiesFlag && found then [path] else [])
      && (HasSwitch(args, q) <==> q == NoPlaylist)
  {
    var ua := UserAgentOption(WindowsUA);
    var cookies := CookiesOption(true, found, path);
    ValuedPair(UserAgentFlag, WindowsUA, q);
    BareSwitch(NoPlaylist, q);
    if found {
      ValuedPair(CookiesFlag, path, q);
    } else {
      assert cookies == [];
      assert [NoPlaylist] + cookies == [NoPlaylist];
    }
    ValuesOfAppend([NoPlaylist], cookies, q);
    ClosedAppend([NoPlaylist], cookies);
    assert ua + [NoPlaylist] + cookies == ua + ([NoPlaylist] + cookies);
    ValuesOfAppend(ua, [NoPlaylist] + cookies, q);
    ClosedAppend(ua, [NoPlaylist] + cookies);
  }

  // ---------------------------------------------------------------- info identities

  /** One entry of `tryMethods`. */
  datatype TryMethod = TryMethod(name: string, useCookies: bool, customUA: bool)

  /** The identities in the order they are tried. */
  const TryMethods: seq<TryMethod> := [
    TryMethod("with cookies", true, false),
    TryMethod("without cookies", false, false),
    TryMethod("with different user agent", false, true)
  ]

  const MethodSwitches: seq<string> := ["--dump-json", NoPlaylist]

  function MethodUserAgent(m: TryMethod): string {
    if m.customUA then MacUA else WindowsUA
  }

  /** The argument list of one identity's `--dump-json` run. */
  function MethodArgs(url: string, m: TryMethod, cookiesFound: bool, cookiesPath: string): seq<string> {
    MethodSwitches + UserAgentOption(MethodUserAgent(m)) + CookiesOption(m.useCookies, cookiesFound, cookiesPath) + [url]
  }

  /** The argument lists of the identities, in list order. */
  function SpawnPlan(url: string, cookiesFound: bool, cookiesPath: string): (plan: seq<seq<string>>)
    ensures |plan| == |TryMethods|
  {
    seq(|TryMethods|, k requires 0 <= k < |TryMethods| => MethodArgs(url, TryMethods[k], cookiesFound, cookiesPath))
  }

  /** The per-identity builder of tryNextMethod, pushing onto the list step by step. */
  method BuildMethodArgs(url: string, m: TryMethod, cookiesFound: bool, cookiesPath: string)
    returns (args: seq<string>)
    ensures args == MethodArgs(url, m, cookiesFound, cookiesPath)
  {
    args := ["--dump-json", NoPlaylist];
    if m.customUA {
      args := args + [UserAgentFlag, MacUA];
    } else {
      args := args + [UserAgentFlag, WindowsUA];
    }
    if m.useCookies && cookiesFound {
      args := args + [CookiesFlag, cookiesPath];
    }
    args := args + [url];
  }

  /** An identity's arguments start with `--dump-json --no-playlist` and end with the URL;
      yt-dlp reads exactly one user agent from them (Mac exactly when the identity asks for
      a custom one), the cookies file exactly when the identity wants it and it exists, and
      no switch but the two leading ones. */
  lemma MethodArgsShape(url: string, m: TryMethod, found: bool, path: string, q: string)
    ensures var args := MethodArgs(url, m, found, path);
      var options := args[..|args| - 1];
      && args[..2] == MethodSwitches
      && args[|args| - 1] == url
      && ValuesOf(options, UserAgentFlag) == [if m.customUA then MacUA else WindowsUA]
      && ValuesOf(options, CookiesFlag) == (if m.useCookies && found then [path] else [])
      && (HasSwitch(options, q) <==> q in MethodSwitches)
  {
    var identity := UserAgentOption(MethodUserAgent(m)) + CookiesOption(m.useCookies, found, path);
    var args := MethodArgs(url, m, found, path);
    assert args[..|args| - 1] == MethodSwitches + identity;
    MethodOptionsRead(m, found, path, UserAgentFlag);
    MethodOptionsRead(m, found, path, CookiesFlag);
    MethodOptionsRead(m, found, path, q);
  }

  lemma MethodOptionsRead(m: TryMethod, found: bool, path: string, q: string)
    ensures var identity := UserAgentOption(MethodUserAgent(m)) + CookiesOption(m.useCookies, found, path);
      && ValuesOf(MethodSwitches + identity, q)
         == (if q == UserAgentFlag then [MethodUserAgent(m)] else [])
            + (if q == CookiesFlag && m.useCookies && found then [path] else [])
      && (HasSwitch(MethodSwitches + identity, q) <==> q in MethodSwitches)
  {
    var identity := UserAgentOption(MethodUserAgent(m)) + CookiesOption(m.useCookies, found, path);
    Switches(MethodSwitches, q);
    IdentityOptions(MethodUserAgent(m), m.useCookies, found, path, q);
    ValuesOfAppend(MethodSwitches, identity, q);
  }

  // ---------------------------------------------------------------- one info attempt

  /** What the close handler makes of one run: an answer, a failed exit, or a failure
      inside the `try` (the parse, or reading `title` of a null document). */
  datatype Attempt = Answered(body: map<string, JsValue>) | ExitFailed | ParseFailed

  predicate Answers(a: Attempt) {
    a.Answered?
  }

  /** The success reply's body, read from a parsed document that is not undefined or
      null; `author` is the document's `uploader`. */
  function InfoBody(info: JsValue, name: string): (body: map<string, JsValue>)
    requires !info.Undefined? && !info.Null?
    ensures body.Keys == {"title", "thumbnail", "duration", "author", "formats", "method"}
    ensures body["method"] == Str(name)
    ensures info.Obj? && "uploader" in info.fields ==> body["author"] == info.fields["uploader"]
    ensures info.Obj? && "title" in info.fields ==> body["title"] == info.fields["title"]
  {
    map["title" := Prop(info, "title").value, "thumbnail" := Prop(info, "thumbnail").value,
        "duration" := Prop(info, "duration").value, "author" := Prop(info, "uploader").value,
        "formats" := Prop(info, "formats").value, "method" := Str(name)]
  }

  /** The close handler's decision for one identity: a code other than 0 fails the exit;
      with code 0 the document answers unless the parse failed or the document is null. */
  function AttemptOf(e: ProcessExit, name: string): (a: Attempt)
    ensures a.ExitFailed? <==> e.code != Some(0)
    ensures a.Answered? <==>
      e.code == Some(0) && e.stdout.Ok? && !e.stdout.value.Undefined? && !e.stdout.value.Null?
    ensures a.Answered? ==> "method" in a.body && a.body["method"] == Str(name)
  {
    if e.code != Some(0) then ExitFailed
    else if e.stdout.Err? || e.stdout.value.Undefined? || e.stdout.value.Null? then ParseFailed
    else Answered(InfoBody(e.stdout.value, name))
  }

  /** The names of the identities, in order, as the failure replies list them. */
  const MethodNames: JsValue := StrArray(["with cookies", "without cookies", "with different user agent"])

  /** The reply of tryNextMethod once the counter has passed the last identity. */
  const ExhaustedReply: Reply := Reply(500, map[
    "error" := Str("All download methods failed. YouTube may be temporarily blocking requests."),
    "suggestion" := Str("Please try again in a few minutes or contact support."),
    "methods" := MethodNames])

  /** The reply after the last identity's run exited with a failure. */
  const UnableReply: Reply := Reply(500, map[
    "error" := Str("Unable to fetch video information"),
    "details" := Str("YouTube may be blocking automated requests"),
    "suggestion" := Str("Try again later or use a different video"),
    "methods" := MethodNames])

  /** The reply after the last identity's output could not be read. */
  const ParseFailedReply: Reply := Reply(500, map[
    "error" := Str("Failed to parse video information"),
    "details" := Str("Invalid response from YouTube")])

  /** Both failure replies that list the identities name all three, in the order they
      are tried. */
  lemma FailureRepliesListMethods()
    ensures ExhaustedReply.body["methods"] == UnableReply.body["methods"]
    ensures var names := UnableReply.body["methods"];
      && names.Arr? && |names.items| == |TryMethods|
      && forall k :: 0 <= k < |TryMethods| ==> names.items[k] == Str(TryMethods[k].name)
  {
  }

  // ---------------------------------------------------------------- the retry machine

  /** The state of one getVideoInfoYtDlp call: the `currentMethod` counter, the argument
      lists of the runs spawned so far, whether a run is waiting for its close event, and
      the reply once one was sent. */
  class InfoSession {
    const url: string
    const cookiesFound: bool
    const cookiesPath: string
    var currentMethod: nat
    var spawned: seq<seq<string>>
    var running: bool
    var sent: Option<Reply>

    /** The k-th run used the k-th identity, so each identity ran at most once and in list
        order; the counter has passed every identity that ran except a waiting or answering
        one; a run is waiting only for an identity that exists and before any reply. */
    ghost predicate Valid()
      reads this
    {
      && currentMethod <= |TryMethods|
      && (running ==> currentMethod < |TryMethods| && sent.None?)
      && |spawned| == currentMethod + (if currentMethod < |TryMethods| && (running || sent.Some?) then 1 else 0)
      && spawned == SpawnPlan(url, cookiesFound, cookiesPath)[..|spawned|]
    }

    constructor(url: string, cookiesFound: bool, cookiesPath: string)
      ensures Valid()
      ensures this.url == url && this.cookiesFound == cookiesFound && this.cookiesPath == cookiesPath
      ensures currentMethod == 0 && spawned == [] && !running && sent.None?
    {
      this.url := url;
      this.cookiesFound := cookiesFound;
      this.cookiesPath := cookiesPath;
      currentMethod := 0;
      spawned := [];
      running := false;
      sent := None;
    }

    /** tryNextMethod: past the last identity it sends the exhausted reply; otherwise it
        spawns the current identity's run. The counter does not move. */
    method TryNextMethod()
      requires Valid() && !running && sent.None?
      modifies this
      ensures Valid()
      ensures currentMethod == old(currentMethod)
      ensures old(currentMethod) >= |TryMethods| ==>
        sent == Some(ExhaustedReply) && spawned == old(spawned) && !running
      ensures old(currentMethod) < |TryMethods| ==>
        && running && sent.None?
        && spawned == old(spawned) + [MethodArgs(url, TryMethods[currentMethod], cookiesFound, cookiesPath)]
    {
      if currentMethod >= |TryMethods| {
        sent := Some(ExhaustedReply);
        return;
      }
      var m := TryMethods[currentMethod];
      var args := BuildMethodArgs(url, m, cookiesFound, cookiesPath);
      PrefixGrows(SpawnPlan(url, cookiesFound, cookiesPath), currentMethod);
      spawned := spawned + [args];
      running := true;
    }

    /** The close handler of the waiting run. An answer is sent as it is; any failure
        moves the counter on by one and either spawns the next identity (the one-second
        delay is not modelled) or, after the last one, sends the reply for the kind of
        failure when nothing was sent yet. The counter never decreases. */
    method OnClose(e: ProcessExit)
      requires Valid() && running
      modifies this
      ensures Valid()
      ensures var a := AttemptOf(e, TryMethods[old(currentMethod)].name);
        && currentMethod == old(currentMethod) + (if a.Answered? then 0 else 1)
        && (a.Answered? ==> sent == Some(Reply(200, a.body)) && !running && spawned == old(spawned))
        && (!a.Answered? && currentMethod < |TryMethods| ==>
              && running && sent.None?
              && spawned == old(spawned) + [MethodArgs(url, TryMethods[currentMethod], cookiesFound, cookiesPath)])
        && (!a.Answered? && currentMethod == |TryMethods| ==>
              && !running && spawned == old(spawned)
              && sent == Some(if a.ExitFailed? then UnableReply else ParseFailedReply))
    {
      var m := TryMethods[currentMethod];
      running := false;
      if e.code != Some(0) {
        currentMethod := currentMethod + 1;
        if currentMethod < |TryMethods| {
          TryNextMethod();
        } else if sent.None? {
          sent := Some(UnableReply);
        }
        return;
      }
      if e.stdout.Ok? && !e.stdout.value.Undefined? && !e.stdout.value.Null? {
        sent := Some(Reply(200, InfoBody(e.stdout.value, m.name)));
      } else {
        currentMethod := currentMethod + 1;
        if currentMethod < |TryMethods| {
          TryNextMethod();
        } else if sent.None? {
          sent := Some(ParseFailedReply);
        }
      }
    }
  }

  // ---------------------------------------------------------------- info handler

  /** What each identity's run would come to, in list order. */
  function Attempts(url: string, found: bool, path: string, run: seq<string> -> ProcessExit): (attempts: seq<Attempt>)
    ensures |attempts| == |TryMethods|
  {
    var plan := SpawnPlan(url, found, path);
    seq(|TryMethods|, k requires 0 <= k < |TryMethods| => AttemptOf(run(plan[k]), TryMethods[k].name))
  }

  /** The reply of the whole chain: the first answer, tagged with its identity's name;
      when every identity failed, the reply for the way the last one failed. */
  function ChainReply(attempts: seq<Attempt>): Reply
    requires |attempts| == |TryMethods|
  {
    match FirstWhere(attempts, Answers)
    case Some(k) => Reply(200, attempts[k].body)
    case None => if attempts[|attempts| - 1].ExitFailed? then UnableReply else ParseFailedReply
  }

  /** The chain answers 200 exactly when some identity answered, with the first answer;
      otherwise the reply is the one for the way the last identity failed. */
  lemma ChainReplyFirstAnswer(attempts: seq<Attempt>)
    requires |attempts| == |TryMethods|
    ensures var r := ChainReply(attempts);
      && (r.status == 200 <==> exists k :: 0 <= k < |attempts| && attempts[k].Answered?)
      && (r.status == 200 ==> exists k :: 0 <= k < |attempts| && attempts[k].Answered? && r.body == attempts[k].body
                                && forall j :: 0 <= j < k ==> !attempts[j].Answered?)
      && (r.status != 200 ==> r == (if attempts[|attempts| - 1].ExitFailed? then UnableReply else ParseFailedReply))
  {
  }

  /** Where the chain stops once the identities before `k` failed: at `k` when it
      answers, and with the last identity's failure when `k` is the last and fails. */
  lemma ChainReplyAt(attempts: seq<Attempt>, k: nat)
    requires |attempts| == |TryMethods| && k < |attempts| && NoneStops(attempts, Answers, k)
    ensures attempts[k].Answered? ==>
      FirstWhere(attempts, Answers) == Some(k) && ChainReply(attempts) == Reply(200, attempts[k].body)
    ensures !attempts[k].Answered? && k == |attempts| - 1 ==>
      && FirstWhere(attempts, Answers).None?
      && ChainReply(attempts) == (if attempts[k].ExitFailed? then UnableReply else ParseFailedReply)
  {
    if attempts[k].Answered? {
      FirstWhereIs(attempts, Answers, k);
    } else if k == |attempts| - 1 {
      NoneStopsStep(attempts, Answers, k);
    }
  }

  /** A successful reply names the identity that produced it. */
  lemma AnswerNamesMethod(url: string, found: bool, path: string, run: seq<string> -> ProcessExit)
    requires ChainReply(Attempts(url, found, path, run)).status == 200
    ensures exists k ::
      && 0 <= k < |TryMethods|
      && "method" in ChainReply(Attempts(url, found, path, run)).body
      && ChainReply(Attempts(url, found, path, run)).body["method"] == Str(TryMethods[k].name)
      && forall j :: 0 <= j < k ==> !Attempts(url, found, path, run)[j].Answered?
  {
    var attempts := Attempts(url, found, path, run);
    ChainReplyFirstAnswer(attempts);
    var k :| 0 <= k < |attempts| && attempts[k].Answered? && ChainReply(attempts).body == attempts[k].body
             && forall j :: 0 <= j < k ==> !attempts[j].Answered?;
    assert attempts[k] == AttemptOf(run(MethodArgs(url, TryMethods[k], found, path)), TryMethods[k].name);
  }

  /** getVideoInfoYtDlp: the URL check, then the retry machine driven by the close events
      of the runs it spawns, until a reply is sent. `tried` lists the argument lists run. */
  method GetVideoInfoYtDlp(url: Option<string>, found: bool, path: string, run: seq<string> -> ProcessExit)
    returns (reply: Reply, tried: seq<seq<string>>)
    ensures Missing(url) ==> reply == ErrorReply(400, UrlRequired) && tried == []
    ensures !Missing(url) ==> reply == ChainReply(Attempts(url.value, found, path, run))
    ensures !Missing(url) ==>
      var first := FirstWhere(Attempts(url.value, found, path, run), Answers);
      |tried| == (if first.Some? then first.value + 1 else |TryMethods|)
    ensures !Missing(url) ==> tried == SpawnPlan(url.value, found, path)[..|tried|]
  {
    if Missing(url) {
      return ErrorReply(400, UrlRequired), [];
    }
    var u := url.value;
    ghost var attempts := Attempts(u, found, path, run);
    var s := new InfoSession(u, found, path);
    s.TryNextMethod();
    while s.running
      invariant s.Valid()
      invariant s.url == u && s.cookiesFound == found && s.cookiesPath == path
      invariant NoneStops(attempts, Answers, s.currentMethod)
      invariant !s.running ==> s.sent.Some?
      invariant !s.running ==> s.sent.value == ChainReply(attempts)
      invariant !s.running ==> |s.spawned| == (if FirstWhere(attempts, Answers).Some? then FirstWhere(attempts, Answers).value + 1 else |TryMethods|)
      decreases |TryMethods| - s.currentMethod + (if s.running then 1 else 0)
    {
      ghost var k := s.currentMethod;
      var e := run(s.spawned[|s.spawned| - 1]);
      assert attempts[k] == AttemptOf(e, TryMethods[k].name);
      s.OnClose(e);
      ChainReplyAt(attempts, k);
      if !attempts[k].Answered? {
        NoneStopsStep(attempts, Answers, k);
      }
    }
    reply := s.sent.value;
    tried := s.spawned;
  }

  // ---------------------------------------------------------------- download handlers

  /** The info stage of a download: `--dump-json`, the default options, the URL. */
  function InfoStageArgs(url: string, found: bool, path: string): seq<string> {
    ["--dump-json"] + DefaultArgs(found, path) + [url]
  }

  /** `infoErrorBuffer.trim() || "Check server logs"`: never empty, the trimmed error
      output whenever there is any. */
  function InfoFailureDetails(stderr: string): (d: string)
    ensures d != ""
    ensures Trim(stderr) != "" ==> d == Trim(stderr)
    ensures Trim(stderr) == "" ==> d == "Check server logs"
  {
    var trimmed := Trim(stderr);
    if trimmed != "" then trimmed else "Check server logs"
  }

  const BestFormat: string := "bestvideo+bestaudio/best"

  /** The selector for exactly one height. */
  function ExactHeightFormat(height: string): string {
    "bestvideo[height=" + height + "]+bestaudio/best[height=" + height + "]"
  }

  /** The video handler's selector: exact height when a height is asked for. */
  function FormatFor(quality: Option<string>): string {
    if WantsHeight(quality) then ExactHeightFormat(HeightOf(quality.value)) else BestFormat
  }

  /** A quality such as "720p" selects exactly that height. */
  lemma FormatForHeight(digits: string)
    requires forall i :: 0 <= i < |digits| ==> digits[i] != 'p'
    ensures FormatFor(Some(digits + "p")) == ExactHeightFormat(digits)
  {
    HeightOfQuality(digits);
  }

  /** A missing quality, "auto", or one without a `p` keeps the best-overall selector. */
  lemma FormatForDefault(quality: Option<string>)
    requires Missing(quality) || quality.value == "auto" || !Contains(quality.value, "p")
    ensures FormatFor(quality) == BestFormat
  {
  }

  /** The options that choose what is downloaded. */
  function MediaArgs(kind: MediaKind, quality: Option<string>): seq<string> {
    if kind == Audio then [FormatFlag, "bestaudio", "--extract-audio", "--audio-format", "mp3"]
    else [FormatFlag, FormatFor(quality)]
  }

  /** The argument list of the download run. */
  function StreamArgs(url: string, kind: MediaKind, quality: Option<string>, found: bool, path: string): seq<string> {
    [OutputFlag, "-"] + MediaArgs(kind, quality) + DefaultArgs(found, path) + [url]
  }

  /** The download run writes to standard output and ends with the URL; yt-dlp reads one
      selector from it, `bestaudio` for audio and the quality's selector for video. */
  lemma StreamArgsShape(url: string, kind: MediaKind, quality: Option<string>, found: bool, path: string)
    ensures var args := StreamArgs(url, kind, quality, found, path);
      && args[..2] == [OutputFlag, "-"]
      && args[|args| - 1] == url
      && ValuesOf(args[..|args| - 1], FormatFlag) == [if kind == Audio then "bestaudio" else FormatFor(quality)]
      && ValuesOf(args[..|args| - 1], OutputFlag) == ["-"]
  {
    var args := StreamArgs(url, kind, quality, found, path);
    var media := MediaArgs(kind, quality);
    var defaults := DefaultArgs(found, path);
    assert args[..|args| - 1] == [OutputFlag, "-"] + (media + defaults);
    MediaArgsRead(kind, quality, FormatFlag);
    MediaArgsRead(kind, quality, OutputFlag);
    DefaultArgsShape(found, path, FormatFlag);
    DefaultArgsShape(found, path, OutputFlag);
    ValuesOfAppend(media, defaults, FormatFlag);
    ValuesOfAppend(media, defaults, OutputFlag);
    ValuedPair(OutputFlag, "-", FormatFlag);
    ValuedPair(OutputFlag, "-", OutputFlag);
    ValuesOfAppend([OutputFlag, "-"], media + defaults, FormatFlag);
    ValuesOfAppend([OutputFlag, "-"], media + defaults, OutputFlag);
  }

  lemma MediaArgsRead(kind: MediaKind, quality: Option<string>, q: string)
    ensures Closed(MediaArgs(kind, quality))
    ensures ValuesOf(MediaArgs(kind, quality), q)
      == (if q == FormatFlag then [if kind == Audio then "bestaudio" else FormatFor(quality)] else [])
         + (if q == "--audio-format" && kind == Audio then ["mp3"] else [])
  {
    var format := [FormatFlag, if kind == Audio then "bestaudio" else FormatFor(quality)];
    ValuedPair(FormatFlag, format[1], q);
    if kind == Audio {
      var rest := ["--extract-audio", "--audio-format", "mp3"];
      assert MediaArgs(kind, quality) == format + rest;
      BareSwitch("--extract-audio", q);
      ValuedPair("--audio-format", "mp3", q);
      assert rest == ["--extract-audio"] + ["--audio-format", "mp3"];
      ValuesOfAppend(["--extract-audio"], ["--audio-format", "mp3"], q);
      ClosedAppend(["--extract-audio"], ["--audio-format", "mp3"]);
      ValuesOfAppend(format, rest, q);
      ClosedAppend(format, rest);
    }
  }

  /** How a download handler ends: with a JSON reply before anything is streamed, or
      with the headers set and the download run spawned with `args`. */
  datatype Start = Refused(reply: Reply) | Started(headers: map<string, string>, args: seq<string>)

  function InfoFailedError(kind: MediaKind): string {
    if kind == Audio then "Failed to fetch video details for download" else "Failed to fetch video details"
  }

  function InitFailedError(kind: MediaKind): string {
    if kind == Audio then "Internal server error during download init" else "Download processing failed"
  }

  /** The sanitised title of the info stage's document, or the message of what was
      thrown while reading it. */
  function StageTitle(doc: Result<JsValue>): (r: Result<string>)
    ensures r.Ok? <==> doc.Ok? && doc.value.Obj? && "title" in doc.value.fields && doc.value.fields["title"].Str?
    ensures r.Ok? ==> r.value == SanitizeTitle(doc.value.fields["title"].s)
  {
    if doc.Err? then Err(doc.message)
    else match Prop(doc.value, "title")
      case None => Err(TypeErrorMessage(doc.value, "title"))
      case Some(title) => SanitizeTitleValue(title, "info.title")
  }

  /** downloadAudioYtDlp (`kind == Audio`, no quality) and downloadVideoYtDlp: the URL
      check, then the info stage's run; a failed exit gives a 500 with the trimmed error
      output, an unreadable document or title a 500 with the thrown message, and
      otherwise the headers are set and the download run is spawned. */
  function DownloadYtDlp(url: Option<string>, kind: MediaKind, quality: Option<string>, found: bool, path: string,
                         run: seq<string> -> ProcessExit): (r: Start)
    ensures Missing(url) ==> r == Refused(ErrorReply(400, UrlRequired))
    ensures !Missing(url) && run(InfoStageArgs(url.value, found, path)).code != Some(0) ==>
      r == Refused(Reply(500, map["error" := Str(InfoFailedError(kind)),
        "details" := Str(InfoFailureDetails(run(InfoStageArgs(url.value, found, path)).stderr))]))
    ensures r.Started? <==>
      !Missing(url) && run(InfoStageArgs(url.value, found, path)).code == Some(0)
      && StageTitle(run(InfoStageArgs(url.value, found, path)).stdout).Ok?
    ensures r.Started? ==>
      var title := StageTitle(run(InfoStageArgs(url.value, found, path)).stdout).value;
      && r.headers == DownloadHeaders(title, kind)
      && r.args == StreamArgs(url.value, kind, quality, found, path)
  {
    if Missing(url) then Refused(ErrorReply(400, UrlRequired))
    else
      var e := run(InfoStageArgs(url.value, found, path));
      if e.code != Some(0) then
        Refused(Reply(500, map["error" := Str(InfoFailedError(kind)), "details" := Str(InfoFailureDetails(e.stderr))]))
      else match StageTitle(e.stdout)
        case Err(message) =>
          Refused(Reply(500, map["error" := Str(InitFailedError(kind)), "details" := Str(message)]))
        case Ok(title) =>
          Started(DownloadHeaders(title, kind), StreamArgs(url.value, kind, quality, found, path))
  }

  /** The file name a browser reads back from a started download is the document's title
      sanitised to `[A-Za-z0-9_]` with the kind's extension. */
  lemma DownloadFilename(url: Option<string>, kind: MediaKind, quality: Option<string>, found: bool, path: string,
                         run: seq<string> -> ProcessExit)
    requires DownloadYtDlp(url, kind, quality, found, path, run).Started?
    ensures var doc := run(InfoStageArgs(url.value, found, path)).stdout.value;
      && doc.Obj? && "title" in doc.fields && doc.fields["title"].Str?
      && QuotedFilename(DownloadYtDlp(url, kind, quality, found, path, run).headers["Content-Disposition"])
         == Some(Filename(doc.fields["title"].s, kind == Audio))
  {
    var doc := run(InfoStageArgs(url.value, found, path)).stdout.value;
    DownloadHeadersReadBack(doc.fields["title"].s, kind);
  }
}
