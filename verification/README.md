# Zoom recordings service: a verified model of its request handlers

This project models the core of `src/zoom_handlers.py`, the Zoom side of an
LTI tool. The tool finds an instructor's Zoom cloud recordings for a Canvas
course and serves their transcripts as JSON captions. The model covers the
following parts:

- **Access gate** (`AccessKey`): `validate_access_key` and `verify_access_key`.
  When the stored configuration requires an access key, the `X-Access-Key`
  header must be present, non-empty and equal to the stored key.
- **OAuth token cache** (`OAuth`): `ZoomOAuth.get_access_token`. It is the
  class `OAuth.ZoomOAuth`, whose two fields (`accessToken`, `tokenExpiry`) are
  updated in place by `GetAccessToken`. The method is proved against the
  function `OAuth.Acquire`. That function covers these cases:
  - a cache hit while the expiry lies in the future;
  - a missing configuration;
  - the account-credentials exchange;
  - the 400 answer and other HTTP errors;
  - a reply that lacks a field;
  - an `expires_in` that puts the expiry past the end of Python's `datetime`
    range, which raises after the token has been stored.
- **Recording discovery** (`Discovery`): the backward scan of
  `get_instructor_recordings`. It works in 30-day windows from today back to
  2020-01-01. When a window answers 404, the user's id is looked up again for
  that window, and the window is retried with it. The scan loop (`ScanRecordings`) is proved equal to
  the recursive `Scan` over the list of windows (`Windows`).
- **Course filter and projection** (`CourseFilter`): the second loop of the
  same handler. For each recording it fetches the meeting report. On 404 with
  error code 3001 it retries with the recording's UUID. A refused request
  normally skips the recording. Three cases abort the whole request instead:
  an error body that is not JSON; a JSON body that is not an object on a 404,
  because its `code` is then read; and a failure that is not an HTTP error.
  A recording is kept when no course is given, or when
  the first "Canvas Course" tracking field, converted with `str()`, equals the
  course id. The kept recording is projected to its summary with only its MP4
  and TRANSCRIPT files. The loop (`FilterLoop`) is proved equal to the
  recursive `FilterRecordings`. That function is characterised as the
  projection of an order-keeping selection of the kept recordings
  (`Seqs.Selects`).
- **Transcript selection** (`Transcripts`): `get_meeting_transcript` and
  `get_recording_transcript`. Each picks the first file of type TRANSCRIPT,
  downloads it and converts it. The model gives every message and error path
  of the two handlers.
- **Caption parser** (`WebVtt`): `webvtt_to_json`. It strips the text, cuts it
  into blocks at CRLF CRLF and drops the `WEBVTT` header block. Every other
  block of at least three lines whose timing line splits at `" --> "` into
  exactly two parts becomes one caption. The caption format is a loose subset
  of the cue syntax of "WebVTT: The Web Video Text Tracks Format" (W3C),
  section 4.1. The for-loop `WebVttToJson` is proved equal to `ParseCaptions`,
  and a serializer is proved to round-trip through the parser.
- **Handlers** (`Handlers`): the gate, the `get_zoom_client` configuration
  check and the catch-all 500 answer, put together for the three handlers.

The Python helpers the handlers rely on are modelled in these modules:

- `Text`: `str.split`, `re.split` on a literal, `" ".join`, `str.strip` and
  `str.upper`.
- `Json`: JSON values, `dict.get`, truthiness and `str()`.
- `Wrappers`: `next(...)` over a generator.
- `Seqs`: list comprehensions with a filter.

The outside world enters the model only as parameters:

- **Zoom REST API**: the datatype `ZoomApi.Api`. Its fields are functions
  from request path to answer: a body, an HTTP error with status and error
  body, or any other failure.
- **Token endpoint**: a function from credentials to reply.
- **Transcript download**: a function from URL and token to the text, if any.
- **Clock**: for the token cache, seconds counted from 0001-01-01 00:00,
  the origin of Python's `datetime`. For the scan, a day number counted from
  1970-01-01; day 18262 is 2020-01-01.
- **Stored configuration row**: an `Option` value.

## Model

| member | source | states |
|---|---|---|
| WebVtt.WebVttToJson | src/zoom_handlers.py:406-431 | the loop over blocks returns exactly `ParseCaptions(content)`: strip, cut at CRLF CRLF, skip the header, one caption per well-formed block |
| WebVtt.SerializeRoundTrip | src/zoom_handlers.py:406-431 | a WEBVTT header followed by one well-formed block per caption parses back to exactly those captions, in order |
| WebVtt.TrackRoundTrip | src/zoom_handlers.py:408-414 | a head that is WEBVTT in any letter case, with no CR and no whitespace at either end, followed by the cue blocks, parses back to the captions |
| WebVtt.ParseBlocksSelects | src/zoom_handlers.py:410-429 | the output is an order-keeping selection of the blocks' outcomes: exactly the blocks that yield a caption, one caption each, in block order |
| WebVtt.ParseBlocksAppend | src/zoom_handlers.py:412-429 | parsing distributes over concatenation of block lists (captions keep block order) |
| WebVtt.ParseBlocks | src/zoom_handlers.py:412-429 | at most one caption per block |
| WebVtt.ParsedBlockShape | src/zoom_handlers.py:413-427 | a block that yields a caption is not the header and is laid out as index CRLF start " --> " end CRLF text lines, no line holding CRLF; the timing line is cut at its first " --> ", neither start nor end contains the arrow, and the text is the lines joined with spaces |
| WebVtt.BlockYieldsOneCaption | src/zoom_handlers.py:416-427 | conversely, index, a timing that splits into two parts and at least one text line, joined with CRLF, yield exactly one caption: that index, the timing cut at its first " --> ", and the lines joined by a space |
| WebVtt.ParseBlockExactly | src/zoom_handlers.py:413-427 | a block parses to a caption exactly when it is laid out from that caption with CRLF-free lines, the timing cut at its first " --> " and none after; so the header, a block of fewer than three lines and a timing line that does not split into exactly two parts yield nothing |
| WebVtt.TimingOfParts | src/zoom_handlers.py:423 | a timing line that splits into two parts is those parts around its first " --> ", and neither part holds " --> " |
| WebVtt.TimingInTwo | src/zoom_handlers.py:423 | a line cut at its first " --> ", with none after it, splits into exactly its two sides |
| WebVtt.NotHeader | src/zoom_handlers.py:413-414 | a block containing '>' (every timing line does) is never taken for the header |
| WebVtt.HeaderIsHeader | src/zoom_handlers.py:413 | the literal WEBVTT is recognised as the header block |
| WebVtt.TimingSplits | src/zoom_handlers.py:423 | a timing `start --> end` whose halves contain no '>' splits into exactly those two halves |
| WebVtt.SplitJoinedLines | src/zoom_handlers.py:416 | lines without CRLF, joined with CRLF, split back into the same lines |
| WebVtt.BlocksParse | src/zoom_handlers.py:412-429 | the blocks of well-formed captions parse back to the captions |
| WebVtt.CuesSplit | src/zoom_handlers.py:408 | the cue text splits at CRLF CRLF into an empty head and one block per caption |
| Text.SplitJoin | src/zoom_handlers.py:408 | joining the pieces of a split with the separator gives back the text |
| Text.SplitPiecesAreFree | src/zoom_handlers.py:416 | no piece of a split contains the separator |
| Text.SplitWithoutSeparator | src/zoom_handlers.py:423 | a text without the separator splits into itself alone |
| Text.SplitAt | src/zoom_handlers.py:408 | the split cuts at the leftmost occurrence of the separator |
| Text.SplitHeadEndsAtFirstMatch | src/zoom_handlers.py:423 | when a split cuts at all, its first piece ends where the leftmost occurrence of the separator begins |
| Text.StripResult | src/zoom_handlers.py:408 | strip leaves a slice of the text such that only whitespace is removed on either side, and the slice is empty or starts and ends with non-whitespace |
| Text.StripTrimmed | src/zoom_handlers.py:413 | a text that starts and ends with non-whitespace is its own strip |
| Text.StripKeeps | src/zoom_handlers.py:413 | strip never removes a non-whitespace character |
| Text.UpperAt | src/zoom_handlers.py:413 | upper-casing maps each character on its own and keeps the length |
| Json.PyStrMatches | src/zoom_handlers.py:312-314 | `str(v)` equals a text exactly when `v` is that string; when `v` is an integer, the text reads back as `v` |
| Json.IntTextRoundTrip | src/zoom_handlers.py:312-314 | the decimal text `str()` gives an integer reads back as the integer |
| Json.NumeralRoundTrip | src/zoom_handlers.py:312-314 | the digits of a natural number read back as the number |
| Wrappers.FirstWhere | src/zoom_handlers.py:145-148 | `next(...)` gives the first matching index, with no match before it, and gives nothing exactly when nothing matches |
| Seqs.FilterSelects | src/zoom_handlers.py:288-297 | a filtering comprehension keeps exactly the matching elements, in their order |
| Seqs.Map | src/zoom_handlers.py:288-297 | a mapping comprehension keeps the length and maps pointwise |
| OAuth.Acquire | src/zoom_handlers.py:24-59 | a returned token is the cached one and has an expiry; a failure keeps the old expiry; a new expiry is always inside the `datetime` range. `CacheHit`, `CacheMiss` and `OutcomeAndCache` give every case |
| OAuth.ZoomOAuth.constructor | src/zoom_handlers.py:15-18 | a new client starts with no token and no expiry |
| OAuth.ZoomOAuth.GetAccessToken | src/zoom_handlers.py:24-59 | the answer and the new cache fields are those of `Acquire` on the old cache |
| OAuth.CacheHit | src/zoom_handlers.py:25-30 | with a token and an expiry still in the future, the cached token is returned, the cache is unchanged, and the result does not depend on the configuration or the endpoint |
| OAuth.CacheMiss | src/zoom_handlers.py:32-59 | otherwise: no configuration raises "configuration not found"; a 400 raises "check your credentials"; any other status re-raises the HTTP error; a transport failure, an unreadable body or a reply without access_token fails with the cache unchanged; a token without expires_in is stored, the old expiry kept, and the call fails; a full reply stores the token with expiry now plus expires_in; an expiry outside the `datetime` range stores the token, keeps the old expiry and fails |
| OAuth.OutcomeAndCache | src/zoom_handlers.py:43-59 | a returned token is the cached one; a failure never moves the expiry; the only failure that changes the cache is a reply with a token whose expires_in is absent or out of the `datetime` range |
| OAuth.SecondCallReuses | src/zoom_handlers.py:25-53 | after a fresh token is granted, a later call before its expiry returns the same token without asking the endpoint |
| OAuth.FirstCallExchanges | src/zoom_handlers.py:15-59 | on a new client's empty cache, the result and the new cache are exactly those of the exchange, whatever the clock reads: each missing-configuration, refused, failed and granted case |
| Discovery.ScanRecordings | src/zoom_handlers.py:189-243 | the window loop returns exactly `Scan`: windows collected newest first, "no Zoom user", or abort |
| Discovery.WindowCount | src/zoom_handlers.py:189-195 | the loop runs (today - 2020-01-01) / 30 + 1 times, or never before 2020-01-01 |
| Discovery.WindowAt | src/zoom_handlers.py:195-197 | window k spans from today - 30k - 30 to today - 30k, and its end is not before 2020-01-01 |
| Discovery.WindowsTile | src/zoom_handlers.py:193-243 | consecutive windows meet end to start, each spans 30 days, the first ends today, the last starts before 2020-01-01 |
| Discovery.CollectStopsAtFirstFailure | src/zoom_handlers.py:195-243 | the scan returns the outcome of the first window that does not collect, or everything collected when none fails |
| Discovery.FetchWindow | src/zoom_handlers.py:199-241 | one window: "no Zoom user" only after a 404 on the listing; a listing that fails other than by an HTTP error aborts; collected meetings come from the listing for the identifier, or after a 404 from the listing for the resolved user id. `WindowOutcomes` gives every case |
| Discovery.WindowOutcomes | src/zoom_handlers.py:199-241 | a window's meetings are collected; a non-404 HTTP error aborts; a listing failure that is not an HTTP error aborts; on 404 the user is resolved and the window retried; an HTTP error of the lookup or the retry gives "no Zoom user", and a non-HTTP failure of either aborts |
| Discovery.ThenThen | src/zoom_handlers.py:210 | collecting window after window is concatenation |
| CourseFilter.LookupReport | src/zoom_handlers.py:253-277 | a fetched report is the answer to the id request, or, after a 404 with code 3001, to the UUID request; a successful id request is always used. `LookupOutcomes` gives every case |
| CourseFilter.FetchReport | src/zoom_handlers.py:253-277 | the report request with its UUID retry returns exactly `LookupReport` |
| CourseFilter.LookupOutcomes | src/zoom_handlers.py:253-277 | a report is fetched exactly when the id request succeeds, or it fails with 404 and code 3001 and the UUID request succeeds; the report is one of those answers. The lookup aborts exactly on a non-HTTP failure, an error body that is not JSON, a JSON non-object body on a 404, or a UUID request that fails other than by an HTTP error. It skips exactly on every other HTTP error |
| CourseFilter.CheckCourse | src/zoom_handlers.py:280-314 | the course test returns exactly `Includes` |
| CourseFilter.Decide | src/zoom_handlers.py:249-337 | one iteration's outcome, abort, skip or keep, is exactly `Judge` |
| CourseFilter.FilterLoop | src/zoom_handlers.py:247-343 | the filter loop returns exactly `FilterRecordings` |
| CourseFilter.ThenThen | src/zoom_handlers.py:299 | appending projections one after another is concatenation |
| CourseFilter.FilterAbortsExactly | src/zoom_handlers.py:247-343 | the filter aborts exactly when some recording's lookup aborts |
| CourseFilter.FilterMapsKept | src/zoom_handlers.py:247-343 | when it does not abort, the filter's result is the projection mapped over the kept recordings, in order |
| CourseFilter.FilterSelectsKept | src/zoom_handlers.py:247-343 | the loop aborts exactly when some recording aborts; otherwise its output is the projection of an order-keeping selection of exactly the kept recordings |
| CourseFilter.NoCourseKeepsEveryReported | src/zoom_handlers.py:279-299 | with no course id, a recording is kept exactly when its report was fetched |
| CourseFilter.Includes | src/zoom_handlers.py:280-314 | without a course id every reported recording is included; with one, inclusion needs a "Canvas Course" field whose value reads as the course id. `MatchesFirstCourseField` gives the exact condition |
| CourseFilter.MatchesFirstCourseField | src/zoom_handlers.py:300-337 | with a course id, a reported recording is kept exactly when the first "Canvas Course" field's value, converted with `str()` and defaulting to "", equals the course id |
| CourseFilter.Project | src/zoom_handlers.py:282-298 | the summary lists at most the recording's files. `ProjectionKeepsMediaFiles` and `ProjectedFilesAreMedia` give its exact contents |
| CourseFilter.ProjectionKeepsMediaFiles | src/zoom_handlers.py:282-298 | the summary copies id, uuid, topic, start_time and duration, and lists exactly the MP4 and TRANSCRIPT files in order with their four fields |
| CourseFilter.ProjectedFilesAreMedia | src/zoom_handlers.py:288-297 | every listed file is an MP4 or a TRANSCRIPT |
| Transcripts.ChosenFileIsFirstTranscript | src/zoom_handlers.py:145-148 | the chosen file is the first TRANSCRIPT file; there is none exactly when no file is a TRANSCRIPT |
| Transcripts.MeetingTranscript | src/zoom_handlers.py:139-169 | every answer other than the 500 payload needs a successful recordings request, and a transcript needs a token. `MeetingTranscriptOutcomes` and `MeetingWithoutTranscript` give every case |
| Transcripts.MeetingTranscriptOutcomes | src/zoom_handlers.py:145-169 | "No transcript URL available" exactly when the URL is falsy; the 500 payload exactly when the URL is truthy and no token is obtained; "Failed to retrieve transcript content" exactly when the download gives nothing; otherwise the captions of the downloaded text |
| Transcripts.MeetingWithoutTranscript | src/zoom_handlers.py:149-150 | without a TRANSCRIPT file the answer is "No transcript found" |
| Transcripts.RecordingTranscript | src/zoom_handlers.py:358-389 | a 404 on the recording request gives "Recording not found", and that message needs such a 404 or a token failure with status 404; a transcript needs the recording and a token. `RecordingTranscriptOutcomes`, `RecordingWithoutTranscript` and `RecordingRequestFails` give every case |
| Transcripts.RecordingTranscriptOutcomes | src/zoom_handlers.py:358-389 | an absent download_url is a 500; a token failure with status 404 gives "Recording not found"; the 500 payload exactly when the URL is absent or the token fails otherwise; "Failed to retrieve transcript" exactly when the download gives nothing; otherwise the captions of the text |
| Transcripts.RecordingWithoutTranscript | src/zoom_handlers.py:370-371 | without a TRANSCRIPT file the answer is "No transcript available" |
| Transcripts.RecordingRequestFails | src/zoom_handlers.py:382-389 | a failed recording request gives "Recording not found" on 404 and the 500 payload otherwise |
| Transcripts.MissingUrlDiffers | src/zoom_handlers.py:152-154 | a TRANSCRIPT file without a URL gives a message in the meeting handler but a 500 in the recording handler (which reads it with `[]`) |
| Transcripts.MessagesAreDistinct | src/zoom_handlers.py:150-163 | the answers of each handler are told apart by their messages |
| AccessKey.RejectsExactly | src/zoom_handlers.py:101-116 | the gate rejects exactly when a key is required and the header is absent, empty or different from the stored key |
| AccessKey.AsWrittenNeverUnauthorized | src/zoom_handlers.py:110-116 | as written, the gate's 401 is caught by the handler and becomes a 500: no handler ever answers 401 |
| AccessKey.VerifyAnswersUnauthorized | src/zoom_handlers.py:110-116 | corrected, a rejection answers 401 and never 500, and a request passes exactly when it passed as written |
| Handlers.GetInstructorRecordings | src/zoom_handlers.py:172-347 | the handler returns exactly `InstructorRecordings`: the gate, the configuration check, the scan loop, then the filter loop |
| Handlers.RecordingsAreFilteredScan | src/zoom_handlers.py:172-347 | every answer and exactly when: 401 from the gate; "no Zoom user" from the scan; the 500 payload when the configuration is missing, the scan aborts or some recording's report lookup aborts; otherwise the recordings, which are the projection of an order-keeping selection of exactly the kept scanned recordings |
| Handlers.MeetingTranscriptHandler | src/zoom_handlers.py:135-169 | the answer is 401 exactly when the gate rejects the key; past the gate with a configuration row it is the meeting endpoint's answer with the token obtained on the new client's empty cache, so a transcript needs that token |
| Handlers.RecordingTranscriptHandler | src/zoom_handlers.py:350-389 | the answer is 401 exactly when the gate rejects the key; past the gate with a configuration row it is the recording endpoint's answer with the token obtained from the client's cache, so a transcript needs that token |
| Handlers.GateComesFirst | src/zoom_handlers.py:124-179 | a rejected key answers 401 in every handler before any request; without a configuration row every handler answers 500 |

## Left out

- WebVtt.TrackRoundTrip: covers only heads with no CR and no whitespace at either end. For some other heads the round trip fails in the code itself. With the head "WEBVTT\r\n", the first CRLF CRLF begins at the head's own line break. The first cue's block then starts with an empty line, its index line is read as the timing, and that cue is dropped.
- HTTP, Flask, the database and logging are left out. Requests become the `Api`, endpoint and download function parameters. The configuration row becomes an `Option` parameter. Log lines are not modelled.
- `Api` answers each request path the same way every time it is asked. The source makes a fresh request each time, so the `users/{id}` lookup, repeated for every 30-day window that answers 404, could get different answers on different windows. The model does not capture that.
- `json.dumps` / `json.loads` of the caption list: the captions are returned as a list of `WebVtt.Caption` values. Serialising to JSON text and parsing it back is the identity and is not modelled.
- The clock (`datetime.now()`) becomes parameters: seconds for the token cache, a day number for the scan. Calendar formatting (`strftime`) is not modelled; windows are day numbers.
- Only the first page of each window is read, as in the source. The `page_size` of 300 is a request parameter and is not modelled.
- `get_meeting_recordings` is a pass-through to the API; it is the `meetingRecordings` field of `Api`.
- `get_zoom_client` is modelled as the check that a configuration row exists. Its `ValueError` message only reaches the 500 payload, and the 500 payload's message text is not modelled.
- The Zoom API's tokens are not tied to the OAuth cache: `Api` answers do not depend on the token. Only the transcript download uses the token from `Acquire`.
- Handlers.RecordingTranscriptHandler: the token cache of the client at the time of the download is a parameter. In the source, the client fetched a token just before for the recording request.
- Text.Upper: upper-cases ASCII letters only. Python upper-cases all of Unicode, which matters only for deciding whether a block is the header.
- Json.PyStr: JSON floats and nested objects and lists are not values of `Json.Value`. `str()` of those is not modelled.
- A JSON `null` where the source expects a list (`recording_files`, `tracking_fields`, `meetings`) makes the source raise. The model treats these lists as always present.
- `verify_access_key` calls `abort(401, description="Invalid or missing Access Key")` at line 116, so a 401 is evidently intended. As written, the `abort(401)` raised inside each handler's `try` is caught by its `except Exception` and becomes a 500. The model gives the code as written in `AccessKey.VerifyAsWritten` and uses the 401 in the handlers (see Findings).
- Concurrency, and the class-level `TOKEN_URL` and `BASE_URL` constants, are left out.

## Findings

| source | as written | input that shows it | evidently intended | confidence | as-written member | corrected member |
|---|---|---|---|---|---|---|
| src/zoom_handlers.py:110-116 with 167-169 | `verify_access_key` calls `abort(401)` inside each handler's `try`, and `except Exception` turns the raised HTTP exception into a 500 "Internal Server Error" | the configuration requires key "secret" and the request has no `X-Access-Key` header | answer 401 "Invalid or missing Access Key" | not executed; medium, because an API-definition security scheme running `validate_access_key` first would answer 401 before the handler runs | AccessKey.AsWrittenNeverUnauthorized | AccessKey.VerifyAnswersUnauthorized |
