/** The simple controller: video information from noembed with defaults for missing
    fields, and yewtu.be links for video and audio. The noembed handler is also the
    ytdl-core controller's getVideoInfoFallback, which has the same code. */
module Simple {
  import opened JsValues
  import opened JsStrings
  import opened VideoId

  const YewtuWatch: string := "https://www.yewtu.be/watch?v="
  const AudioSuffix: string := "&format=mp3"
  const InfoFailed: string := "Failed to fetch video information"

  /** The reply built from noembed's data: each field falls back to its default when the
      data's field is falsy, and the duration is always 0. Reading a field of undefined or
      null data throws, and the TypeError's message is returned instead. */
  function SummaryBody(data: JsValue): (r: Result<map<string, JsValue>>)
    ensures r.Err? <==> data.Undefined? || data.Null?
    ensures r.Err? ==> r.message == TypeErrorMessage(data, "title")
    ensures r.Ok? ==>
      && r.value.Keys == {"title", "thumbnail", "duration", "author"}
      && r.value["duration"] == Num(0)
      && Truthy(r.value["title"]) && Truthy(r.value["author"])
      && (Truthy(Prop(data, "title").value) ==> r.value["title"] == Prop(data, "title").value)
      && (!Truthy(Prop(data, "title").value) ==> r.value["title"] == Str("Unknown Title"))
      && (Truthy(Prop(data, "thumbnail_url").value) ==> r.value["thumbnail"] == Prop(data, "thumbnail_url").value)
      && (!Truthy(Prop(data, "thumbnail_url").value) ==> r.value["thumbnail"] == Str(""))
      && (Truthy(Prop(data, "author_name").value) ==> r.value["author"] == Prop(data, "author_name").value)
      && (!Truthy(Prop(data, "author_name").value) ==> r.value["author"] == Str("Unknown Channel"))
  {
    if data.Undefined? || data.Null? then Err(TypeErrorMessage(data, "title"))
    else Ok(map["title" := Or(Prop(data, "title").value, Str("Unknown Title")),
                "thumbnail" := Or(Prop(data, "thumbnail_url").value, Str("")),
                "duration" := Num(0),
                "author" := Or(Prop(data, "author_name").value, Str("Unknown Channel"))])
  }

  /** getVideoInfoSimple (and getVideoInfoFallback): the URL check comes first, then the
      ID, then the noembed lookup of the ID's watch page. A failed lookup or unreadable
      data is a 500 carrying the error's message. */
  function GetVideoInfoSimple(url: Option<string>, fetch: string -> FetchOutcome): (r: Reply)
    ensures Missing(url) ==> r == ErrorReply(400, UrlRequired)
    ensures !Missing(url) && ExtractVideoId(url.value).None? ==> r == ErrorReply(400, InvalidUrl)
    ensures !Missing(url) && ExtractVideoId(url.value).Some? ==>
      match fetch(NoembedUrl(ExtractVideoId(url.value).value))
      case FetchFailed(message) =>
        r == Reply(500, map["error" := Str(InfoFailed), "details" := Str(message)])
      case Fetched(data) =>
        && (data.Undefined? || data.Null? ==>
              r == Reply(500, map["error" := Str(InfoFailed), "details" := Str(TypeErrorMessage(data, "title"))]))
        && (!data.Undefined? && !data.Null? ==> r == Reply(200, SummaryBody(data).value))
  {
    if Missing(url) then ErrorReply(400, UrlRequired)
    else match ExtractVideoId(url.value)
      case None => ErrorReply(400, InvalidUrl)
      case Some(id) =>
        match fetch(NoembedUrl(id))
        case FetchFailed(message) => Reply(500, map["error" := Str(InfoFailed), "details" := Str(message)])
        case Fetched(data) =>
          match SummaryBody(data)
          case Err(message) => Reply(500, map["error" := Str(InfoFailed), "details" := Str(message)])
          case Ok(body) => Reply(200, body)
  }

  /** The noembed lookup asks about the canonical watch page of the ID taken from the
      request's URL, and that page's URL yields the same ID again. */
  lemma LookupUrlRoundTrip(url: string)
    requires ExtractVideoId(url).Some?
    ensures IsVideoId(ExtractVideoId(url).value)
    ensures ExtractVideoId(WatchUrl(ExtractVideoId(url).value)) == ExtractVideoId(url)
  {
    var i, prefix := ExtractedIdShape(url);
    WatchUrlRoundTrip(ExtractVideoId(url).value);
  }

  /** The yewtu.be page of a video. */
  function VideoLink(id: string): string {
    YewtuWatch + id
  }

  /** The yewtu.be link asking for the audio as mp3. */
  function AudioLink(id: string): string {
    VideoLink(id) + AudioSuffix
  }

  /** Both links carry the ID as their whole `v` parameter: the ID holds no `&`, `?` or
      `#`, so the parameter ends exactly where the ID does, and the audio link then adds
      only `&format=mp3`. */
  lemma LinksCarryId(id: string)
    requires IsVideoId(id)
    ensures StartsWith(VideoLink(id), YewtuWatch) && StartsWith(AudioLink(id), YewtuWatch)
    ensures IdRun(VideoLink(id)[|YewtuWatch|..]) == id
    ensures IdRun(AudioLink(id)[|YewtuWatch|..]) == id
    ensures AudioLink(id)[|YewtuWatch| + |id|..] == AudioSuffix
  {
    assert VideoLink(id)[..|YewtuWatch|] == YewtuWatch;
    assert AudioLink(id)[..|YewtuWatch|] == YewtuWatch;
    assert VideoLink(id)[|YewtuWatch|..] == id;
    IdRunAll(id);
    var rest := AudioLink(id)[|YewtuWatch|..];
    assert rest == id + AudioSuffix;
    assert IdRun(rest) == id by {
      IdRunPrefix(id, AudioSuffix);
    }
  }

  /** The ID run stops at a following `&`. */
  lemma {:induction false} IdRunPrefix(id: string, tail: string)
    requires forall i :: 0 <= i < |id| ==> IsIdChar(id[i])
    requires tail != [] && !IsIdChar(tail[0])
    ensures IdRun(id + tail) == id
    decreases |id|
  {
    if id == [] {
      assert id + tail == tail;
    } else {
      assert (id + tail)[1..] == id[1..] + tail;
      IdRunPrefix(id[1..], tail);
      assert [id[0]] + id[1..] == id;
    }
  }

  /** downloadVideoSimple and downloadAudioSimple: the URL check comes first, then the
      ID; the reply carries the video link, or the audio link when `audio` holds. */
  function DownloadLinkReply(url: Option<string>, audio: bool): (r: Reply)
    ensures Missing(url) ==> r == ErrorReply(400, UrlRequired)
    ensures !Missing(url) && ExtractVideoId(url.value).None? ==> r == ErrorReply(400, InvalidUrl)
    ensures r.status == 200 <==> !Missing(url) && ExtractVideoId(url.value).Some?
    ensures r.status == 200 ==>
      var id := ExtractVideoId(url.value).value;
      && r.body.Keys == {"message", "downloadUrl", "note"}
      && r.body["downloadUrl"] == Str(if audio then AudioLink(id) else VideoLink(id))
  {
    if Missing(url) then ErrorReply(400, UrlRequired)
    else match ExtractVideoId(url.value)
      case None => ErrorReply(400, InvalidUrl)
      case Some(id) =>
        if audio then
          Reply(200, map["message" := Str("Direct audio download link generated"),
                         "downloadUrl" := Str(AudioLink(id)),
                         "note" := Str("Open this link in browser to download audio")])
        else
          Reply(200, map["message" := Str("Direct download link generated"),
                         "downloadUrl" := Str(VideoLink(id)),
                         "note" := Str("Open this link in browser to download video")])
  }

  /** The audio link of a request is its video link followed by `&format=mp3`. */
  lemma AudioLinkExtendsVideoLink(url: Option<string>)
    requires DownloadLinkReply(url, false).status == 200
    ensures DownloadLinkReply(url, true).status == 200
    ensures DownloadLinkReply(url, true).body["downloadUrl"].s
      == DownloadLinkReply(url, false).body["downloadUrl"].s + AudioSuffix
  {
  }
}
