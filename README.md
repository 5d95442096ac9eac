# video-download-backend, modelled in Dafny

This project models the core of a Node.js/Express backend that serves information about
YouTube videos and downloads of them. Several controllers do this in different ways:

- The ytdl-core controller uses the ytdl-core library.
- The simple controller uses the noembed service and yewtu.be links.
- The yt-dlp controller runs yt-dlp under a retry counter.
- The universal controller runs noembed and yt-dlp together, with ordered fallback chains.

Three cross-cutting pieces are modelled too: the CORS middleware, the error-handling
middleware and the weekly clean-up job for `*-player-script.js` files.

The handlers are glue around I/O. Each I/O step is a parameter of the model, and the
model covers the deterministic rules between those steps:

- A yt-dlp run is a function from its argument list to how the run ends.
- A noembed lookup is a function from URL to fetch outcome, and so is ytdl-core's `getInfo`.
- `ytdl.validateURL` is an opaque predicate.
- The clean-up job's directory is a set of names plus the names whose unlink fails.

The rules the model covers:

- The video-ID regex, and the watch, noembed and yewtu.be URLs built from an ID.
- The yt-dlp argument lists. What yt-dlp reads from them is stated through `ValuesOf` and
  `HasSwitch`: the values of an option, and whether a switch is present.
- The two fallback chains of the universal controller. Both are `for` loops that stop at
  the first success.
- The `currentMethod` retry machine of the yt-dlp controller. It is a class driven by the
  close events of the runs it spawns.
- The duration text `m:ss` / `h:mm:ss`.
- The field-wise `||` merge of the two metadata sources.
- The title-to-file-name sanitiser, and the `Content-Disposition` header built from it.
- ytdl-core's quality-to-format selection and the classification of its error messages.
- The CORS headers and the preflight short-circuit.
- The status and body built from an error.
- The clean-up job's filter, deletions and count.

JavaScript semantics are kept where the handlers depend on them, in modules `JsValues` and
`JsStrings`:

- Values are JavaScript values: `undefined`, `null`, booleans, numbers, NaN, strings, arrays and objects.
- Truthiness and `||` follow JavaScript.
- Reading a property of `undefined` or `null` throws a TypeError.
- `parseInt` may give NaN, modelled as `None`.
- `includes`, `replace` with a string pattern (first occurrence only), `trim` and `split` follow the built-ins.
- The `\w` and `\s` character classes follow the JavaScript regex engine.

The modules are:

- `Universal` (universal controller)
- `YtDlp` (yt-dlp controller)
- `Youtube` (ytdl-core controller)
- `Simple` (simple controller)
- `Cors`
- `ErrorHandler`
- `Cron`
- the shared `VideoId`, `TitleSanitizer`, `YtDlpConfig` (user agents, the cookies path, how
  yt-dlp reads options) and `Fallback` (the first index at which a chain stops).

## Model

| member | source | states |
|---|---|---|
| VideoId.ExtractedIdShape | src/controllers/universalController.js:18-21 | an extracted ID is non-empty, holds none of `& ? # \n`, immediately follows `youtube.com/watch?v=`, `youtu.be/` or `youtube.com/embed/` at the leftmost index where the pattern matches, and runs up to a stop character or the end |
| VideoId.ExtractNoneIff | src/controllers/simpleController.js:15-18 | extraction fails exactly when no alternative followed by an ID character occurs anywhere in the URL |
| VideoId.MatchAtFound | src/controllers/simpleController.js:15 | one successful try of the pattern captures an ID that directly follows one of the three prefixes and extends as far as the class allows |
| VideoId.SearchFound | src/controllers/simpleController.js:15 | an unanchored search that finds an ID found it at the leftmost matching index |
| VideoId.SearchNone | src/controllers/simpleController.js:15 | a search finds nothing exactly when no later index matches |
| VideoId.WatchUrlRoundTrip | src/controllers/simpleController.js:15-21 | re-extracting the ID from the watch URL built for it returns the same ID |
| VideoId.IdRun | src/controllers/simpleController.js:15 | the greedy `[^&\n?#]+` run is a prefix of the text, holds only ID characters and stops at the first non-ID character |
| Simple.LookupUrlRoundTrip | src/controllers/simpleController.js:15-22 | the noembed lookup asks about the canonical watch page of the extracted ID, and that page yields the same ID again |
| Simple.SummaryBody | src/controllers/simpleController.js:24-31 | title, thumbnail and author are noembed's values when truthy and "Unknown Title", "" and "Unknown Channel" otherwise; duration is always 0; undefined or null data throws the TypeError on `title` |
| Simple.GetVideoInfoSimple | src/controllers/simpleController.js:4-40 | a missing URL gives 400 "YouTube URL is required" before extraction; no ID gives 400 "Invalid YouTube URL"; a failed lookup or unreadable data gives 500 with the error's message; otherwise 200 with the defaulted fields |
| Simple.DownloadLinkReply | src/controllers/simpleController.js:43-108 | the same two 400 checks in the same order; 200 exactly when an ID was extracted, with the video link or the audio link |
| Simple.LinksCarryId | src/controllers/simpleController.js:60 | both links start with `https://www.yewtu.be/watch?v=`, their `v` parameter is exactly the ID, and the audio link then adds only `&format=mp3` |
| Simple.AudioLinkExtendsVideoLink | src/controllers/simpleController.js:93 | the audio link of a request is its video link followed by `&format=mp3` |
| Youtube.FallbackResponses | src/controllers/youtubeController.js:62-99 | getVideoInfoFallback (the same code as the simple info handler) refuses a URL without an ID with 400, and a 200 always has a truthy title and author and duration 0 |
| Youtube.UrlRejection | src/controllers/youtubeController.js:9-16 | a missing URL gives 400 "YouTube URL is required" before the validator runs; otherwise the request passes exactly when the validator accepts it, and otherwise gets 400 "Invalid YouTube URL" |
| Youtube.Classify | src/controllers/youtubeController.js:31-57 | a message is an encryption error exactly when it holds `cipher` (which covers `decipher`), and an unavailable-video error exactly when it does not and holds "Video unavailable" or "private" |
| Youtube.ClassifiedReply | src/controllers/youtubeController.js:31-57 | the encryption reply (500), the unavailable reply (400) or the generic reply, by that classification |
| Youtube.InfoSummary | src/controllers/youtubeController.js:21-26 | on a well-formed info object the body is the title, first thumbnail URL, length and author name; a missing `videoDetails` throws the TypeError of reading `title` |
| Youtube.GetVideoInfo | src/controllers/youtubeController.js:5-59 | the URL checks come first; a rejected lookup or unreadable result is classified by its message; otherwise 200 with the summary |
| Youtube.GetVideoInfoStatus | src/controllers/youtubeController.js:5-59 | 400 exactly for a missing or invalid URL or an unavailable-video message, 200 exactly when the lookup and the read succeed, 500 otherwise |
| Youtube.StatusOfClassified | src/controllers/youtubeController.js:43-57 | a classified reply over a generic 500 is 400 exactly for the unavailable class |
| Youtube.VideoFormatOptions | src/controllers/youtubeController.js:128-154 | an exact-height filter exactly when the quality is not "auto" and holds `p`, with the parseInt of the quality without its first `p`; the lowest audio-and-video preset otherwise |
| Youtube.KbpsHoldsP | src/controllers/youtubeController.js:135-146 | every string holding `kbps` holds `p`, so downloadVideo's bitrate branch is never taken |
| Youtube.AudioFormatOptions | src/controllers/youtubeController.js:264-282 | an exact-bitrate filter exactly when the quality is not "auto" and holds `kbps`; the highest audio-only preset otherwise |
| Youtube.VideoHeightQuality | src/controllers/youtubeController.js:135-142 | a quality `<digits>p` keeps exactly the formats of that height that have both video and audio |
| Youtube.AudioBitrateQuality | src/controllers/youtubeController.js:270-281 | a quality `<digits>kbps` keeps exactly the audio-only formats of that bitrate |
| Youtube.QualitiesDoNotCross | src/controllers/youtubeController.js:128-154 | a height quality leaves audio at its default, and a bitrate quality sent to downloadVideo asks for a height |
| Youtube.DetailsTitle | src/controllers/youtubeController.js:117-119 | the title is read only from a string `videoDetails.title`, and is then its sanitised form |
| Youtube.Download | src/controllers/youtubeController.js:102-330 | downloadVideo and downloadAudio: the URL checks, then a failed lookup is refused with the error reply; streaming starts exactly when the lookup and the title succeed, with the kind's headers and the format options of the quality (absent meaning "auto") |
| Youtube.DownloadRefusals | src/controllers/youtubeController.js:197-235 | an audio download's failures are always the 500 "Failed to download audio"; a failed video lookup is 400 exactly when classified as unavailable |
| Youtube.StreamingFilename | src/controllers/youtubeController.js:117-123 | the file name read back from a started download is the sanitised title with `.mp3` or `.mp4` |
| TitleSanitizer.SanitizeTitle | src/controllers/universalController.js:261 | the stem holds only `[A-Za-z0-9_]` and is never longer than the title; what it does to characters and spaces is pinned by StripNonWordFilters, CollapseSpacesRun and SanitizeJoinsWords |
| TitleSanitizer.CollapseSpaces | src/controllers/universalController.js:261 | the collapse of white-space runs never lengthens the text; CollapseSpacesRun states that each whole run becomes exactly one `_` |
| TitleSanitizer.StripNonWordAppend | src/controllers/universalController.js:261 | the strip `/[^\w\s]/gi` is a filter: stripping a concatenation is concatenating the strips |
| TitleSanitizer.StripNonWordFilters | src/controllers/universalController.js:261 | each character is kept, in its place, exactly when it is a word character or white space, and dropped otherwise |
| TitleSanitizer.StripNonWordKeepsWordOrSpace | src/controllers/universalController.js:261 | text of only word characters and white space passes the strip unchanged |
| TitleSanitizer.TrimSpaceRun | src/controllers/universalController.js:261 | a match of `\s+` consumes the whole white-space run, up to the first non-space |
| TitleSanitizer.CollapseSpacesRun | src/controllers/universalController.js:261 | after a word, a non-empty run of white space followed by a non-space becomes exactly one `_`, and the rest is collapsed in turn |
| TitleSanitizer.SanitizeJoinsWords | src/controllers/ytDlpController.js:199 | two words separated by any run of white space are sanitised to the two words joined by one `_` |
| TitleSanitizer.SanitizeIdempotent | src/controllers/ytDlpController.js:199 | sanitising twice is sanitising once |
| TitleSanitizer.SanitizeFixesWordStrings | src/controllers/ytDlpController.js:289 | a string of word characters is its own stem |
| TitleSanitizer.SanitizeKeepsAlnums | src/controllers/youtubeController.js:117-119 | sanitising keeps every ASCII letter and digit of the title, in order, and adds none |
| TitleSanitizer.SanitizeTitleValue | src/controllers/universalController.js:261 | a string title is sanitised; any other value throws "… .replace is not a function" |
| TitleSanitizer.FilenameReadsBack | src/controllers/universalController.js:263-275 | the file name never holds a quote or backslash, so a recipient reads it back exactly from the `filename="…"` quoted-string |
| TitleSanitizer.DownloadHeaders | src/controllers/universalController.js:263-275 | exactly the `Content-Disposition` and `Content-Type` headers, the name being the stem with `.mp3` for audio and `.mp4` for video |
| TitleSanitizer.DownloadHeadersReadBack | src/controllers/ytDlpController.js:199-205 | the file name read back from the headers is the sanitised title with the kind's extension |
| YtDlpConfig.CookiesPath | src/controllers/universalController.js:11-13 | the cookies path is `COOKIES_PATH` when set, otherwise "cookies.txt" on Windows and "/etc/secrets/cookies.txt" elsewhere |
| YtDlpConfig.IdentityOptions | src/controllers/universalController.js:67-88 | the identity options give exactly one user agent and the cookies file exactly when wanted and present |
| Universal.GetVideoInfoNoembed | src/controllers/universalController.js:16-39 | no ID gives "Noembed failed: Invalid YouTube URL"; every failure carries the "Noembed failed: " prefix; success exactly when an ID was found and the lookup gave non-null data, with null duration and no formats |
| Universal.NoembedFields | src/controllers/universalController.js:27-35 | the returned object has the five fields plus `method: "noembed"` and `reliable: true` |
| Universal.BuildInfoArgs | src/controllers/universalController.js:65-90 | the pushes build exactly the info argument list |
| Universal.InfoArgsShape | src/controllers/universalController.js:65-90 | the list starts with `--dump-json --no-playlist --no-check-certificate` and ends with the URL; yt-dlp reads exactly one user agent (iPhone if mobile, else Mac if custom, else Windows), the cookies file exactly when the identity wants it and it exists, and no other switch |
| Universal.TryYtDlpMethod | src/controllers/universalController.js:63-128 | each failure (spawn, non-zero exit, parse) has its own message; success exactly after exit 0 with non-null JSON, with the fields read from it and the author from `uploader` |
| Universal.ChainOutcomeFirstSuccess | src/controllers/universalController.js:42-61 | the chain fails exactly when all four identities fail, with "All yt-dlp methods failed"; otherwise it yields the first success tagged with its identity's name |
| Universal.RunInfoAttempts | src/controllers/universalController.js:50-60 | the loop stops at the first success and returns its index, and the lists run are the plan's lists up to that point |
| Universal.GetVideoInfoYtDlp | src/controllers/universalController.js:42-61 | the identities are run in list order, each at most once, stopping at the first success; the result is the chain's outcome, a success named after the last identity run and a failure only after all four |
| Universal.MergedInfo | src/controllers/universalController.js:153-162 | each of the five fields is yt-dlp's value when truthy and noembed's otherwise; `method` is the succeeding identity, `fallbackAvailable` is true and the noembed result rides along |
| Universal.MergedKeepsAvailable | src/controllers/universalController.js:153-162 | a merged field is truthy exactly when either source's is |
| Universal.ParseDurationOutput | src/controllers/universalController.js:188-205 | a failed exit or blank output gives null; otherwise null exactly when the trimmed text does not have 2 or 3 colon-separated parts |
| Universal.DurationMinutes | src/controllers/universalController.js:189-193 | `m:ss` in digits, with any trailing white space, reads as `m*60+s` seconds |
| Universal.DurationHours | src/controllers/universalController.js:194-199 | `h:mm:ss` in digits, with any trailing white space, reads as `h*3600+m*60+s` seconds |
| Universal.DurationSeconds | src/controllers/universalController.js:189-202 | a bare count of seconds is not read: the duration is null |
| Universal.FallbackDuration | src/controllers/universalController.js:163-214 | noembed's duration when truthy, otherwise the parsed `--get-duration` output; a run that cannot be spawned keeps noembed's |
| Universal.NoembedOnlyBody | src/controllers/universalController.js:217-223 | noembed's fields with the duration replaced, a warning and the chain's error message |
| Universal.GetVideoInfoUniversal | src/controllers/universalController.js:131-238 | a missing URL gives 400; noembed's failure is the only 500; the chain runs exactly after noembed succeeded, its success gives the merged reply and its failure the noembed-only reply |
| Universal.BuildDownloadArgs | src/controllers/universalController.js:315-359 | the pushes build exactly the download argument list |
| Universal.DownloadArgsShape | src/controllers/universalController.js:315-359 | output to stdout; audio reads `bestaudio[ext=m4a]/bestaudio` with mp3 extraction; video reads its selector with an mp4 merge; exactly one user agent; cookies exactly when wanted and present; the URL last |
| Universal.DownloadOptionsRead | src/controllers/universalController.js:315-359 | every option and switch yt-dlp reads from a download list, for any query |
| Universal.VideoFormatHeight | src/controllers/universalController.js:331-334 | a quality `<digits>p` caps the selector at those digits |
| Universal.VideoFormatDefault | src/controllers/universalController.js:328-334 | a missing quality, "auto" or one without `p` keeps the default video selector |
| Universal.DownloadInfo | src/controllers/universalController.js:252-259 | the description comes from yt-dlp's chain, from noembed only when the chain failed, and fails exactly when both failed, with noembed's message |
| Universal.DownloadTitle | src/controllers/universalController.js:261 | the title is the sanitised string title of the description, or the description's error |
| Universal.DescribeForDownload | src/controllers/universalController.js:250-261 | the steps as run compute exactly that description and title |
| Universal.ChainEnd | src/controllers/universalController.js:284-302 | the 500 carrying `videoInfo` exactly when every attempt rejected; otherwise the first attempt that did not reject ends the handler |
| Universal.RunDownloads | src/controllers/universalController.js:278-292 | the configurations are run in order, stopping at the first that does not reject, and the lists run are the plan's lists up to that point |
| Universal.DownloadChain | src/controllers/universalController.js:278-302 | the loop and the final reply give the chain's end, with one run per attempt made |
| Universal.DownloadUniversal | src/controllers/universalController.js:241-311 | a missing URL gives 400; a failed description or title gives the 500 "Download initialization failed" with no headers and no run; otherwise the headers are set and the chain decides the end |
| Universal.ReqOutOfScopeRefusesEveryDownload | src/controllers/universalController.js:284-302 | as written, every download ends with the 500 "Download failed", even when the first run would complete |
| YtDlp.BuildDefaultArgs | src/controllers/ytDlpController.js:21-38 | the pushes build exactly the default options |
| YtDlp.DefaultArgsShape | src/controllers/ytDlpController.js:21-38 | the options begin `--user-agent <Windows UA> --no-playlist`; yt-dlp reads that user agent, the cookies file exactly when it exists, and no switch but `--no-playlist` |
| YtDlp.BuildMethodArgs | src/controllers/ytDlpController.js:71-91 | the pushes build exactly the identity's argument list |
| YtDlp.MethodArgsShape | src/controllers/ytDlpController.js:71-91 | `--dump-json --no-playlist` first and the URL last; exactly one user agent (Mac exactly when the identity asks for a custom one); cookies exactly when wanted and present |
| YtDlp.AttemptOf | src/controllers/ytDlpController.js:114-160 | a non-zero exit fails the run; with exit 0 the document answers unless the parse failed or it is null; an answer carries the identity's name |
| YtDlp.InfoBody | src/controllers/ytDlpController.js:138-147 | the success body has the five fields and `method`, the author read from `uploader` |
| YtDlp.FailureRepliesListMethods | src/controllers/ytDlpController.js:59-66 | both failure replies that list the identities name all three, in the order they are tried |
| YtDlp.InfoSession.constructor | src/controllers/ytDlpController.js:56 | the counter starts at 0, with nothing spawned or sent |
| YtDlp.InfoSession.TryNextMethod | src/controllers/ytDlpController.js:58-69 | past the last identity it sends the exhausted reply; otherwise it spawns the current identity's run; the counter does not move |
| YtDlp.InfoSession.OnClose | src/controllers/ytDlpController.js:114-162 | an answer is sent as it is; a failure advances the counter by one and spawns the next identity if one remains, or sends the reply for the kind of failure when nothing was sent; the counter never decreases and each identity runs at most once, in order |
| YtDlp.ChainReplyFirstAnswer | src/controllers/ytDlpController.js:114-162 | 200 exactly when some identity answered, with the first answer; otherwise the reply for the way the last identity failed |
| YtDlp.ChainReplyAt | src/controllers/ytDlpController.js:114-162 | once the identities before `k` failed, the chain stops at `k` if it answers, and with `k`'s failure if `k` is the last |
| YtDlp.AnswerNamesMethod | src/controllers/ytDlpController.js:138-147 | a successful reply names the identity that produced it, all earlier identities having failed |
| YtDlp.GetVideoInfoYtDlp | src/controllers/ytDlpController.js:40-167 | a missing URL gives 400; otherwise the machine's reply is the chain's reply, and the runs spawned are the identities' lists in order up to the first answer, or all three |
| YtDlp.InfoFailureDetails | src/controllers/ytDlpController.js:188-195 | the details are never empty: the trimmed stderr, or "Check server logs" when that is blank |
| YtDlp.FormatForHeight | src/controllers/ytDlpController.js:298-305 | a quality `<digits>p` selects exactly that height |
| YtDlp.FormatForDefault | src/controllers/ytDlpController.js:298-305 | a missing quality, "auto" or one without `p` keeps `bestvideo+bestaudio/best` |
| YtDlp.StreamArgsShape | src/controllers/ytDlpController.js:208-218 | the download run writes to stdout, ends with the URL, and yt-dlp reads one selector: `bestaudio` for audio, the quality's selector for video |
| YtDlp.StageTitle | src/controllers/ytDlpController.js:197-199 | the title is the sanitised string `title` of the info document, or what was thrown reading it |
| YtDlp.DownloadYtDlp | src/controllers/ytDlpController.js:169-348 | a missing URL gives 400; a failed info stage gives 500 with the failure details; the download starts exactly when the stage succeeded and its title was read, with the kind's headers and the stream arguments |
| YtDlp.DownloadFilename | src/controllers/ytDlpController.js:199-205 | the file name read back from a started download is the sanitised title with the kind's extension |
| Cors.CorsHeaders | src/config/cors.js:8-18 | with an Origin: that origin and credentials "true"; without one: `*` and no credentials header; the method and header lists are always the fixed ones |
| Cors.CredentialsOnlyForTheOrigin | src/config/cors.js:8-15 | credentials come only with the very origin that asked, so `*` travels with credentials only for the literal Origin `*` |
| Cors.SetInOrder | src/config/cors.js:8-18 | the successive `setHeader` calls override the earlier headers with the middleware's |
| Cors.Response.SetHeader | src/config/cors.js:10-18 | one header set or replaced, nothing else changes |
| Cors.Response.EndWith | src/config/cors.js:22 | the status is set and the response ended, headers unchanged |
| Cors.Handle | src/config/cors.js:1-26 | the headers are set on every request; OPTIONS gets 200 and is ended without `next`; any other method calls `next` once and leaves status and ending alone |
| Cors.HandleFresh | src/config/cors.js:1-26 | on a fresh response the headers are exactly the middleware's, and `next` is called exactly for non-OPTIONS requests |
| ErrorHandler.HandleError | src/middleware/errorHandler.js:1-9 | status is `err.status` when truthy, else 500; `error` is `err.message` when truthy, else "Internal Server Error"; `stack` is present exactly in development; no other keys |
| ErrorHandler.ErrorReplyAlwaysInformative | src/middleware/errorHandler.js:5-8 | the status and error are always truthy, and outside development the body is only `error` |
| Cron.Deletable | src/services/cronService.js:26-33 | the deleted names are exactly the listed player scripts whose unlink succeeds |
| Cron.Directory.Unlink | src/services/cronService.js:31 | an existing unlocked entry is removed and reported; otherwise nothing changes |
| Cron.CleanupPlayerScripts | src/services/cronService.js:20-45 | the directory loses exactly the deletable player scripts, the count is their number, and the closing line is chosen by the count |
| Cron.Visit | src/services/cronService.js:27-37 | a player script is unlinked, any other entry is left alone |
| Cron.WhatStays | src/services/cronService.js:26-38 | what remains is every non-matching entry plus the player scripts whose unlink failed |
| Cron.DeletedAtMostListed | src/services/cronService.js:24-33 | the count never exceeds the number of listed entries |
| Cron.CleanupLogReportsCount | src/services/cronService.js:40-44 | "Deleted N files." is written exactly when the count is positive, and the N read back is the count |

## Left out

- Process spawning and streaming are not modelled. This covers the stdout/stderr buffers, piping to the response, backpressure, SIGKILL on client disconnect and the five-minute timeout of a download. Each yt-dlp run is a parameter giving how the run ends.
- The one-second `setTimeout` between retries of the yt-dlp controller is timing only. Only the order of the runs is kept.
- The spawn `error` handlers are not modelled. At ytDlpController.js:95-101 this is a concurrency question about a later `close` event. `ExhaustedReply` is reachable only through that path, so it appears only as a constant.
- `JSON.parse` is a parameter: its result or error message is part of how a run ends. The same goes for the axios calls to noembed, `ytdl.getInfo`, the ytdl-core stream and `ytdl.validateURL`.
- A spawned run's outcome depends only on its argument list. Two runs with the same list are taken to end the same way.
- `headersSent` is modelled only through the reply-already-sent flag of the retry machine. In the universal download chain, "sent" means a run streamed, which is what the outcome `Unsettled` stands for.
- YtDlp.DownloadYtDlp: ends when the download run is spawned. The run's stream, its failure replies (ytDlpController.js:223-247, 318-338) and the outer catch blocks that depend on them are part of the streaming left out above.
- Youtube.Download: ends when streaming starts. The stream's error handlers and the progress logging (youtubeController.js:157-196, 283-319) are part of the streaming left out above, and the progress percentage uses floating point.
- Simple.DownloadLinkReply: omits the catch blocks of the two link handlers. Nothing in their `try` can throw once `url` is a string.
- The `url` and `quality` request fields are modelled as optional strings. A non-string value sent in the JSON body is not modelled.
- Serialising `undefined` or NaN to JSON and the UTF-16 code units of strings are not modelled. `JsValue` keeps them as values.
- The console logging of every handler and of the CORS middleware is not modelled.
- The yt-dlp binary path (`YT_DLP_PATH`) only names the program, so it is not modelled.
- The readdir order of the clean-up job is not modelled. The loop picks any unprocessed entry, and the result does not depend on the choice.
- `initCronJobs` and the node-cron schedule are not modelled.
- The cookies file's existence is one value per request (`Universal.Backend.cookiesFound`, `YtDlp.InfoSession.cookiesFound`). The code checks `fs.existsSync` again at every argument build (ytDlpController.js:28, 87; universalController.js:86, 355), so a file that appears or vanishes during one request is not modelled.
- Response headers are keyed by their exact name in `Cors.Response`, while Node's `setHeader` ignores case. No earlier middleware of the app sets these headers, so the difference does not arise.
- Modules outside the core are not part of this model: the play-dl controller, server.js, the route table, `diag` and `debugYtDlp`.
- Universal.DownloadUniversal: the rest of the model follows the intended ordering rule, with each attempt's outcome taken from its run. The code as written references `req` where it is not in scope (universalController.js:417). That case is covered separately in Findings.

## Findings

| source | as written | input that shows it | evidently intended | confidence | as-written member | corrected member |
|---|---|---|---|---|---|---|
| src/controllers/universalController.js:417 | `performDownload` calls `req.on("close", …)`, but `req` is not in scope there. Right after the spawn, the promise executor throws a ReferenceError, so every attempt rejects before any event of its run arrives. The loop then spawns all three runs and sends the 500 "Download failed". The throw comes before the five-minute timeout (:423) and its `clearTimeout` (:433) are registered, so none of the three runs is ever killed. Each run's `data` handler (:375-381) keeps calling `res.write` on a response that the 500 has already ended. | any download request whose title is read, with a backend whose first run completes | the first attempt that does not reject ends the handler | high (not executed) | Universal.ReqOutOfScopeRefusesEveryDownload | Universal.DownloadChain |
