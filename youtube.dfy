/** The ytdl-core controller: the URL checks, the reading of the library's info object,
    the classification of thrown messages, and the choice of format options from a
    quality string for video and for audio. The library itself (URL validation, info
    lookup, streaming) is given as parameters. */
module Youtube {
  import opened JsValues
  import opened JsStrings
  import opened VideoId
  import opened TitleSanitizer
  import Simple

  /** The two checks every handler makes first: a missing URL is refused before the
      library's validator is asked about it. */
  function UrlRejection(url: Option<string>, validate: string -> bool): (r: Option<Reply>)
    ensures Missing(url) ==> r == Some(ErrorReply(400, UrlRequired))
    ensures !Missing(url) ==> (r.None? <==> validate(url.value))
    ensures !Missing(url) && r.Some? ==> r == Some(ErrorReply(400, InvalidUrl))
  {
    if Missing(url) then Some(ErrorReply(400, UrlRequired))
    else if !validate(url.value) then Some(ErrorReply(400, InvalidUrl))
    else None
  }

  // ---------------------------------------------------------------------------
  // Classifying a thrown message

  datatype ErrorClass = Encryption | Unavailable | Other

  /** The order of the checks: `decipher` or `cipher` first, then "Video unavailable"
      or `private`. Since every message holding `decipher` holds `cipher`, the first
      test is exactly "holds `cipher`". */
  function Classify(message: string): (c: ErrorClass)
    ensures c == Encryption <==> Contains(message, "cipher")
    ensures c == Unavailable <==>
      !Contains(message, "cipher") && (Contains(message, "Video unavailable") || Contains(message, "private"))
  {
    assert OccursAt("decipher", "cipher", 2) by {
      assert "decipher"[2..8] == "cipher";
    }
    ContainsPiece(message, "decipher", "cipher", 2);
    if Contains(message, "decipher") || Contains(message, "cipher") then Encryption
    else if Contains(message, "Video unavailable") || Contains(message, "private") then Unavailable
    else Other
  }

  const EncryptionReply: Reply := Reply(500, map[
    "error" := Str("YouTube encryption issue detected"),
    "details" := Str("ytdl-core cannot decrypt this video due to YouTube updates"),
    "suggestion" := Str("Try a different video or wait for library updates"),
    "workaround" := Str("Some videos may work, try older videos")])

  const UnavailableReply: Reply := Reply(400, map[
    "error" := Str("Video not available"),
    "details" := Str("This video is private, deleted, or region-restricted")])

  /** The reply for a thrown message: the encryption and unavailability replies by the
      message's class, and `generic` for anything else. */
  function ClassifiedReply(message: string, generic: Reply): (r: Reply)
    ensures Contains(message, "cipher") ==> r == EncryptionReply
    ensures !Contains(message, "cipher") && (Contains(message, "Video unavailable") || Contains(message, "private"))
      ==> r == UnavailableReply
    ensures !Contains(message, "cipher") && !Contains(message, "Video unavailable") && !Contains(message, "private")
      ==> r == generic
  {
    match Classify(message)
    case Encryption => EncryptionReply
    case Unavailable => UnavailableReply
    case Other => generic
  }

  function InfoErrorReply(message: string): Reply {
    Reply(500, map["error" := Str("Failed to fetch video information"),
                   "details" := Str(message),
                   "note" := Str("ytdl-core may need updates for recent YouTube changes")])
  }

  function VideoErrorReply(message: string): Reply {
    Reply(500, map["error" := Str("Failed to download video"), "details" := Str(message)])
  }

  function AudioErrorReply(message: string): Reply {
    Reply(500, map["error" := Str("Failed to download audio"), "details" := Str(message)])
  }

  // ---------------------------------------------------------------------------
  // Reading the info object

  /** `v.key` on a value that may already have thrown: a thrown message passes through,
      and undefined or null throw a TypeError. */
  function Read(v: Result<JsValue>, key: string): Result<JsValue> {
    if v.Err? then v
    else match Prop(v.value, key)
      case None => Err(TypeErrorMessage(v.value, key))
      case Some(x) => Ok(x)
  }

  /** `v[0]`: an array's first element, a string's first character, an object's "0"
      field, and undefined when there is none; undefined and null throw. */
  function ReadFirst(v: Result<JsValue>): Result<JsValue> {
    if v.Err? then v
    else match v.value
      case Arr(items) => Ok(if items == [] then Undefined else items[0])
      case Str(s) => Ok(if s == "" then Undefined else Str([s[0]]))
      case _ => Read(v, "0")
  }

  /** The library's info object in the shape the handlers expect: video details with a
      non-empty thumbnail list whose first entry is an object, and an author object. */
  predicate WellFormedInfo(info: JsValue) {
    && info.Obj? && "videoDetails" in info.fields
    && var details := info.fields["videoDetails"];
    && details.Obj?
    && "thumbnails" in details.fields && details.fields["thumbnails"].Arr?
    && details.fields["thumbnails"].items != [] && details.fields["thumbnails"].items[0].Obj?
    && "author" in details.fields && details.fields["author"].Obj?
  }

  /** The value of a field, or undefined when the object lacks it. */
  function Field(v: JsValue, key: string): JsValue
    requires v.Obj?
  {
    if key in v.fields then v.fields[key] else Undefined
  }

  /** The info reply's body: the title, the first thumbnail's URL, the length and the
      author's name, read in that order so that the first failed read's TypeError is
      what is thrown. */
  function InfoSummary(info: JsValue): (r: Result<map<string, JsValue>>)
    ensures r.Ok? ==> r.value.Keys == {"title", "thumbnail", "duration", "author"}
    ensures r.Ok? ==> info.Obj? && "videoDetails" in info.fields && info.fields["videoDetails"].Obj?
    ensures WellFormedInfo(info) ==>
      var details := info.fields["videoDetails"];
      r == Ok(map["title" := Field(details, "title"),
                  "thumbnail" := Field(details.fields["thumbnails"].items[0], "url"),
                  "duration" := Field(details, "lengthSeconds"),
                  "author" := Field(details.fields["author"], "name")])
    ensures info.Obj? && "videoDetails" !in info.fields ==> r == Err(TypeErrorMessage(Undefined, "title"))
  {
    var details := Read(Ok(info), "videoDetails");
    var title := Read(details, "title");
    var thumbnail := Read(ReadFirst(Read(details, "thumbnails")), "url");
    var duration := Read(details, "lengthSeconds");
    var author := Read(Read(details, "author"), "name");
    if title.Err? then Err(title.message)
    else if thumbnail.Err? then Err(thumbnail.message)
    else if duration.Err? then Err(duration.message)
    else if author.Err? then Err(author.message)
    else Ok(map["title" := title.value, "thumbnail" := thumbnail.value,
                "duration" := duration.value, "author" := author.value])
  }

  /** getVideoInfo: the URL checks, then the library's lookup; a rejected lookup or a
      failed read of its result is classified by its message. */
  function GetVideoInfo(url: Option<string>, validate: string -> bool, getInfo: string -> FetchOutcome): (r: Reply)
    ensures UrlRejection(url, validate).Some? ==> r == UrlRejection(url, validate).value
    ensures UrlRejection(url, validate).None? ==>
      match getInfo(url.value)
      case FetchFailed(message) => r == ClassifiedReply(message, InfoErrorReply(message))
      case Fetched(info) =>
        && (InfoSummary(info).Ok? ==> r == Reply(200, InfoSummary(info).value))
        && (InfoSummary(info).Err? ==>
              r == ClassifiedReply(InfoSummary(info).message, InfoErrorReply(InfoSummary(info).message)))
  {
    match UrlRejection(url, validate)
    case Some(reply) => reply
    case None =>
      match getInfo(url.value)
      case FetchFailed(message) => ClassifiedReply(message, InfoErrorReply(message))
      case Fetched(info) =>
        match InfoSummary(info)
        case Err(message) => ClassifiedReply(message, InfoErrorReply(message))
        case Ok(body) => Reply(200, body)
  }

  /** The message a getVideoInfo request ends with when it does not succeed. */
  function ThrownMessage(url: string, getInfo: string -> FetchOutcome): Option<string> {
    match getInfo(url)
    case FetchFailed(message) => Some(message)
    case Fetched(info) => if InfoSummary(info).Err? then Some(InfoSummary(info).message) else None
  }

  /** getVideoInfo answers 400 exactly for a missing URL, an invalid one, or a thrown
      message about an unavailable or private video that does not mention a cipher, and
      200 exactly when the lookup succeeded and its result could be read. */
  lemma GetVideoInfoStatus(url: Option<string>, validate: string -> bool, getInfo: string -> FetchOutcome)
    ensures var r := GetVideoInfo(url, validate, getInfo);
      && (r.status == 400 <==>
            Missing(url) || !validate(url.value)
            || (ThrownMessage(url.value, getInfo).Some?
                && Classify(ThrownMessage(url.value, getInfo).value) == Unavailable))
      && (r.status == 200 <==> !Missing(url) && validate(url.value) && ThrownMessage(url.value, getInfo).None?)
      && (r.status != 400 && r.status != 200 ==> r.status == 500)
  {
    if UrlRejection(url, validate).None? {
      match getInfo(url.value)
      case FetchFailed(message) =>
        StatusOfClassified(message, InfoErrorReply(message));
      case Fetched(info) =>
        if InfoSummary(info).Err? {
          var message := InfoSummary(info).message;
          StatusOfClassified(message, InfoErrorReply(message));
        }
    }
  }

  lemma StatusOfClassified(message: string, generic: Reply)
    requires generic.status == 500
    ensures ClassifiedReply(message, generic).status == (if Classify(message) == Unavailable then 400 else 500)
  {
  }

  /** getVideoInfoFallback has the same code as the simple controller's noembed handler:
      a URL without an extractable ID is refused with 400, and a successful reply always
      carries a truthy title and author and a duration of 0. */
  lemma FallbackResponses(url: Option<string>, fetch: string -> FetchOutcome)
    ensures !Missing(url) && ExtractVideoId(url.value).None? ==>
      Simple.GetVideoInfoSimple(url, fetch) == ErrorReply(400, InvalidUrl)
    ensures var r := Simple.GetVideoInfoSimple(url, fetch);
      r.status == 200 ==>
        && r.body.Keys == {"title", "thumbnail", "duration", "author"}
        && Truthy(r.body["title"]) && Truthy(r.body["author"]) && r.body["duration"] == Num(0)
  {
  }

  // ---------------------------------------------------------------------------
  // Format options

  /** The options handed to the library: a named quality with a named filter, or a
      filter function keeping the formats of one height (or one audio bitrate), whose
      `quality` is that number. A NaN from parseInt is None. */
  datatype FormatOptions =
    | Preset(quality: string, filter: string)
    | ExactHeight(height: Option<int>)
    | ExactBitrate(bitrate: Option<int>)

  /** What a filter function reads of a format; an absent number is None. */
  datatype Format = Format(height: Option<int>, audioBitrate: Option<int>, hasVideo: bool, hasAudio: bool)

  /** The filter functions: `===` with NaN never holds, nor with an absent field. */
  predicate Keeps(o: FormatOptions, f: Format)
    requires !o.Preset?
  {
    match o
    case ExactHeight(height) => height.Some? && f.height == height && f.hasVideo && f.hasAudio
    case ExactBitrate(bitrate) => bitrate.Some? && f.audioBitrate == bitrate && f.hasAudio && !f.hasVideo
  }

  /** The destructuring default `quality = "auto"` (for an absent quality only). */
  function QualityOrAuto(quality: Option<string>): string {
    if quality.None? then "auto" else quality.value
  }

  const LowestWithAudio: FormatOptions := Preset("lowest", "audioandvideo")
  const HighestAudio: FormatOptions := Preset("highestaudio", "audioonly")

  /** Every string holding `kbps` holds `p`. */
  lemma KbpsHoldsP(s: string)
    ensures Contains(s, "kbps") ==> Contains(s, "p")
  {
    assert OccursAt("kbps", "p", 2) by {
      assert "kbps"[2..3] == "p";
    }
    ContainsPiece(s, "kbps", "p", 2);
  }

  /** downloadVideo's choice: a quality other than "" and "auto" that holds `p` asks for
      an exact height; the bitrate branch written after it is never taken, since a
      quality holding `kbps` already holds `p`; everything else keeps the lowest
      format with audio and video. */
  function VideoFormatOptions(quality: string): (o: FormatOptions)
    ensures o.ExactHeight? <==> quality != "auto" && Contains(quality, "p")
    ensures o.ExactHeight? ==> o.height == ParseInt(ReplaceFirst(quality, "p", ""))
    ensures !o.ExactHeight? ==> o == LowestWithAudio
  {
    KbpsHoldsP(quality);
    if quality != "" && quality != "auto" then
      if Contains(quality, "p") then ExactHeight(ParseInt(ReplaceFirst(quality, "p", "")))
      else if Contains(quality, "kbps") then ExactBitrate(ParseInt(ReplaceFirst(quality, "kbps", "")))
      else LowestWithAudio
    else LowestWithAudio
  }

  /** downloadAudio's choice: a quality other than "" and "auto" that holds `kbps` asks
      for an exact bitrate; anything else keeps the best audio-only format. */
  function AudioFormatOptions(quality: string): (o: FormatOptions)
    ensures o.ExactBitrate? <==> quality != "auto" && Contains(quality, "kbps")
    ensures o.ExactBitrate? ==> o.bitrate == ParseInt(ReplaceFirst(quality, "kbps", ""))
    ensures !o.ExactBitrate? ==> o == HighestAudio
  {
    if quality != "" && quality != "auto" && Contains(quality, "kbps") then
      ExactBitrate(ParseInt(ReplaceFirst(quality, "kbps", "")))
    else HighestAudio
  }

  /** A video quality such as "720p" keeps exactly the formats of that height that have
      both video and audio. */
  lemma VideoHeightQuality(digits: string, f: Format)
    requires digits != [] && AllDecimal(digits)
    ensures VideoFormatOptions(digits + "p") == ExactHeight(Some(DigitsValue(digits, 10)))
    ensures Keeps(VideoFormatOptions(digits + "p"), f)
      <==> f.height == Some(DigitsValue(digits, 10)) && f.hasVideo && f.hasAudio
  {
    assert forall i :: 0 <= i < |digits| ==> IsDecimalDigit(digits[i]);
    ReplaceSuffix(digits, "p");
    ParseIntDecimal(digits);
    assert (digits + "p")[|digits|] == 'p';
  }

  /** An audio quality such as "320kbps" keeps exactly the audio-only formats of that
      bitrate. */
  lemma AudioBitrateQuality(digits: string, f: Format)
    requires digits != [] && AllDecimal(digits)
    ensures AudioFormatOptions(digits + "kbps") == ExactBitrate(Some(DigitsValue(digits, 10)))
    ensures Keeps(AudioFormatOptions(digits + "kbps"), f)
      <==> f.audioBitrate == Some(DigitsValue(digits, 10)) && f.hasAudio && !f.hasVideo
  {
    assert forall i :: 0 <= i < |digits| ==> IsDecimalDigit(digits[i]);
    ReplaceSuffix(digits, "kbps");
    ParseIntDecimal(digits);
    assert (digits + "kbps")[|digits|] == 'k';
  }

  /** The same "720p" quality that picks a height for video leaves audio at its
      default, and a bitrate quality never reaches video's bitrate filter. */
  lemma QualitiesDoNotCross(digits: string)
    requires digits != [] && AllDecimal(digits)
    ensures AudioFormatOptions(digits + "p") == HighestAudio
    ensures VideoFormatOptions(digits + "kbps").ExactHeight?
  {
    var q := digits + "p";
    assert !Contains(q, "kbps") by {
      if Contains(q, "kbps") {
        FirstCharOfOccurrence(q, "kbps", IndexOf(q, "kbps").value);
        assert false;
      }
    }
    KbpsHoldsP(digits + "kbps");
    ReplaceSuffix(digits, "kbps");
    assert digits + "kbps" != "auto" by {
      assert (digits + "kbps")[|digits|] == 'k';
    }
  }

  // ---------------------------------------------------------------------------
  // Downloads

  /** How a download handler ends: with a JSON reply before anything is streamed, or
      with the headers set and the library's stream opened with `options`. */
  datatype Start = Refused(reply: Reply) | Streaming(headers: map<string, string>, options: FormatOptions)

  /** The sanitised `info.videoDetails.title`, or what was thrown while reading it. */
  function DetailsTitle(info: JsValue): (r: Result<string>)
    ensures r.Ok? <==>
      && info.Obj? && "videoDetails" in info.fields && info.fields["videoDetails"].Obj?
      && "title" in info.fields["videoDetails"].fields && info.fields["videoDetails"].fields["title"].Str?
    ensures r.Ok? ==> r.value == SanitizeTitle(info.fields["videoDetails"].fields["title"].s)
  {
    match Read(Read(Ok(info), "videoDetails"), "title")
    case Err(message) => Err(message)
    case Ok(title) => SanitizeTitleValue(title, "info.videoDetails.title")
  }

  /** The reply for a message thrown by the lookup or the title: classified for video,
      the plain audio failure for audio. */
  function DownloadErrorReply(kind: MediaKind, message: string): Reply {
    if kind == Video then ClassifiedReply(message, VideoErrorReply(message)) else AudioErrorReply(message)
  }

  /** downloadVideo (`kind == Video`) and downloadAudio: the URL checks, the lookup, the
      title, then the headers and the stream with the format options of the quality
      (absent meaning "auto"). */
  function Download(url: Option<string>, quality: Option<string>, kind: MediaKind,
                    validate: string -> bool, getInfo: string -> FetchOutcome): (r: Start)
    ensures UrlRejection(url, validate).Some? ==> r == Refused(UrlRejection(url, validate).value)
    ensures UrlRejection(url, validate).None? && getInfo(url.value).FetchFailed? ==>
      r == Refused(DownloadErrorReply(kind, getInfo(url.value).message))
    ensures r.Streaming? <==>
      UrlRejection(url, validate).None? && getInfo(url.value).Fetched? && DetailsTitle(getInfo(url.value).data).Ok?
    ensures r.Streaming? ==>
      && r.headers == DownloadHeaders(DetailsTitle(getInfo(url.value).data).value, kind)
      && r.options == (if kind == Video then VideoFormatOptions(QualityOrAuto(quality))
                       else AudioFormatOptions(QualityOrAuto(quality)))
  {
    match UrlRejection(url, validate)
    case Some(reply) => Refused(reply)
    case None =>
      match getInfo(url.value)
      case FetchFailed(message) => Refused(DownloadErrorReply(kind, message))
      case Fetched(info) =>
        match DetailsTitle(info)
        case Err(message) => Refused(DownloadErrorReply(kind, message))
        case Ok(title) =>
          var q := QualityOrAuto(quality);
          Streaming(DownloadHeaders(title, kind),
                    if kind == Video then VideoFormatOptions(q) else AudioFormatOptions(q))
  }

  /** An audio download is refused with 400 only for the URL checks: its failures are
      never classified, unlike a video download's, whose 400 also covers an
      unavailable video. */
  lemma DownloadRefusals(url: Option<string>, quality: Option<string>, validate: string -> bool,
                         getInfo: string -> FetchOutcome)
    requires UrlRejection(url, validate).None?
    ensures var r := Download(url, quality, Audio, validate, getInfo);
      r.Refused? ==> r.reply.status == 500 && r.reply.body["error"] == Str("Failed to download audio")
    ensures getInfo(url.value).FetchFailed? ==>
      var r := Download(url, quality, Video, validate, getInfo);
      r.Refused? && (r.reply.status == 400 <==> Classify(getInfo(url.value).message) == Unavailable)
  {
    if getInfo(url.value).FetchFailed? {
      var message := getInfo(url.value).message;
      StatusOfClassified(message, VideoErrorReply(message));
    }
  }

  /** The file name a browser reads back from a started download is the video's title
      sanitised to `[A-Za-z0-9_]` with `.mp3` for audio and `.mp4` for video. */
  lemma StreamingFilename(url: Option<string>, quality: Option<string>, kind: MediaKind,
                          validate: string -> bool, getInfo: string -> FetchOutcome)
    requires Download(url, quality, kind, validate, getInfo).Streaming?
    ensures var details := getInfo(url.value).data.fields["videoDetails"];
      && QuotedFilename(Download(url, quality, kind, validate, getInfo).headers["Content-Disposition"])
         == Some(Filename(details.fields["title"].s, kind == Audio))
  {
    var details := getInfo(url.value).data.fields["videoDetails"];
    DownloadHeadersReadBack(details.fields["title"].s, kind);
  }
}
