/**
 * The two transcript endpoints, `get_meeting_transcript` and
 * `get_recording_transcript`: the first TRANSCRIPT file of the recording is
 * downloaded with an access token and its caption text parsed. The token
 * outcome and the download (`get_transcript_content`, which gives `None` when
 * the request fails) are parameters.
 */
module Transcripts {
  import opened Wrappers
  import opened Json
  import opened ZoomApi
  import opened OAuth
  import opened WebVtt

  /** `{"transcript": [...]}`, `{"transcript": None, "message": ...}`, or the catch-all 500 payload. */
  datatype TranscriptResponse =
    | Transcript(captions: seq<Caption>)
    | NoTranscript(message: string)
    | ServerError

  const NoTranscriptFound: string := "No transcript found"
  const NoTranscriptUrl: string := "No transcript URL available"
  const MeetingDownloadFailed: string := "Failed to retrieve transcript content"
  const NoTranscriptAvailable: string := "No transcript available"
  const RecordingDownloadFailed: string := "Failed to retrieve transcript"
  const RecordingNotFound: string := "Recording not found"

  /** `get_transcript_content(url, token)`: the body of the download, or `None` when the request fails. */
  type Download = (Value, string) -> Option<string>

  predicate IsTranscriptFile(f: RecordingFile)
  {
    Get(f.fileType) == Str("TRANSCRIPT")
  }

  /** `if not transcript_content`: a failed download and an empty one are treated alike. */
  predicate Downloaded(content: Option<string>)
  {
    content.Some? && content.value != ""
  }

  /**
   * `get_meeting_transcript`. The recordings come from `get_meeting_recordings`,
   * which turns any exception into an error pair on which `.get` then raises,
   * so every failed request ends in the 500 payload. The token is asked for
   * only once the URL has been checked.
   */
  function MeetingTranscript(api: Api, meetingId: string, token: Result<string, TokenError>,
                             download: Download): (r: TranscriptResponse)
    ensures !r.ServerError? ==> api.meetingRecordings(meetingId).Ok?
    ensures r.Transcript? ==> token.Success?
  {
    match api.meetingRecordings(meetingId)
    case HttpError(_, _) => ServerError
    case Failed => ServerError
    case Ok(recording) =>
      var files := recording.recordingFiles;
      match FirstWhere(files, IsTranscriptFile)
      case None => NoTranscript(NoTranscriptFound)
      case Some(k) =>
        var url := Get(files[k].downloadUrl);
        if !Truthy(url) then NoTranscript(NoTranscriptUrl)
        else match token
          case Failure(_) => ServerError
          case Success(accessToken) =>
            var content := download(url, accessToken);
            if !Downloaded(content) then NoTranscript(MeetingDownloadFailed)
            else Transcript(ParseCaptions(content.value))
  }

  /**
   * `get_recording_transcript`. An HTTP error with status 404, from the
   * recording request or from obtaining the token, gives "Recording not
   * found"; any other error gives the 500 payload. The URL is read with
   * `file["download_url"]`, so an absent one raises `KeyError`.
   */
  function RecordingTranscript(api: Api, recordingId: string, token: Result<string, TokenError>,
                               download: Download): (r: TranscriptResponse)
    ensures api.recording(recordingId).HttpError? && api.recording(recordingId).status == 404 ==>
      r == NoTranscript(RecordingNotFound)
    ensures r == NoTranscript(RecordingNotFound) ==>
      (api.recording(recordingId).HttpError? && api.recording(recordingId).status == 404)
      || token == Failure(HttpFailure(404))
    ensures r.Transcript? ==> api.recording(recordingId).Ok? && token.Success?
  {
    match api.recording(recordingId)
    case HttpError(status, _) => if status == 404 then NoTranscript(RecordingNotFound) else ServerError
    case Failed => ServerError
    case Ok(recording) =>
      var files := recording.recordingFiles;
      match FirstWhere(files, IsTranscriptFile)
      case None => NoTranscript(NoTranscriptAvailable)
      case Some(k) =>
        match files[k].downloadUrl
        case None => ServerError
        case Some(url) =>
          match token
          case Failure(error) =>
            if error == HttpFailure(404) then NoTranscript(RecordingNotFound) else ServerError
          case Success(accessToken) =>
            var content := download(url, accessToken);
            if !Downloaded(content) then NoTranscript(RecordingDownloadFailed)
            else Transcript(ParseCaptions(content.value))
  }

  /** `files[k]` is the first TRANSCRIPT file, the one `next(...)` picks. */
  predicate FirstTranscriptAt(files: seq<RecordingFile>, k: int)
  {
    0 <= k < |files| && IsTranscriptFile(files[k]) && forall j :: 0 <= j < k ==> !IsTranscriptFile(files[j])
  }

  /** The file chosen is the first TRANSCRIPT file; there is none exactly when no file is a TRANSCRIPT. */
  lemma ChosenFileIsFirstTranscript(files: seq<RecordingFile>)
    ensures var chosen := FirstWhere(files, IsTranscriptFile);
      && (chosen.None? <==> forall i :: 0 <= i < |files| ==> !IsTranscriptFile(files[i]))
      && (chosen.Some? ==> FirstTranscriptAt(files, chosen.value))
      && (forall k :: FirstTranscriptAt(files, k) ==> chosen == Some(k))
  {
    var chosen := FirstWhere(files, IsTranscriptFile);
    forall k | FirstTranscriptAt(files, k) ensures chosen == Some(k) {
      assert chosen.Some?;
    }
  }

  /**
   * The outcomes of the meeting endpoint once its recordings are in hand and
   * `k` is the first TRANSCRIPT file: a falsy URL and a failed or empty
   * download each give their own message; failing to obtain a token raises
   * and gives the 500 payload; otherwise the captions are those parsed from
   * that file's content.
   */
  lemma MeetingTranscriptOutcomes(api: Api, meetingId: string, token: Result<string, TokenError>,
                                  download: Download, recording: Recording, k: nat)
    requires api.meetingRecordings(meetingId) == Ok(recording)
    requires FirstTranscriptAt(recording.recordingFiles, k)
    ensures var r := MeetingTranscript(api, meetingId, token, download);
      var url := Get(recording.recordingFiles[k].downloadUrl);
      && (r == NoTranscript(NoTranscriptUrl) <==> !Truthy(url))
      && (r == ServerError <==> Truthy(url) && token.Failure?)
      && (r == NoTranscript(MeetingDownloadFailed) <==>
            Truthy(url) && token.Success? && !Downloaded(download(url, token.value)))
      && (r.Transcript? <==> Truthy(url) && token.Success? && Downloaded(download(url, token.value)))
      && (r.Transcript? ==> r.captions == ParseCaptions(download(url, token.value).value))
  {
    ChosenFileIsFirstTranscript(recording.recordingFiles);
    MessagesAreDistinct();
  }

  /** Once its recordings are in hand, the meeting endpoint answers "No transcript found" exactly when no file is a TRANSCRIPT. */
  lemma MeetingWithoutTranscript(api: Api, meetingId: string, token: Result<string, TokenError>,
                                 download: Download, recording: Recording)
    requires api.meetingRecordings(meetingId) == Ok(recording)
    ensures MeetingTranscript(api, meetingId, token, download) == NoTranscript(NoTranscriptFound)
      <==> forall i :: 0 <= i < |recording.recordingFiles| ==> !IsTranscriptFile(recording.recordingFiles[i])
  {
    ChosenFileIsFirstTranscript(recording.recordingFiles);
    MessagesAreDistinct();
  }

  /** The messages of the meeting endpoint are distinct, and so are those of the recording endpoint. */
  lemma MessagesAreDistinct()
    ensures NoTranscriptFound != NoTranscriptUrl && NoTranscriptUrl != MeetingDownloadFailed
      && NoTranscriptFound != MeetingDownloadFailed
    ensures NoTranscriptAvailable != RecordingDownloadFailed && RecordingDownloadFailed != RecordingNotFound
      && NoTranscriptAvailable != RecordingNotFound
  {
    assert NoTranscriptFound[14] != NoTranscriptUrl[14];
    assert NoTranscriptUrl[0] != MeetingDownloadFailed[0];
    assert NoTranscriptFound[0] != MeetingDownloadFailed[0];
    assert NoTranscriptAvailable[0] != RecordingDownloadFailed[0];
    assert RecordingDownloadFailed[0] != RecordingNotFound[0];
    assert NoTranscriptAvailable[0] != RecordingNotFound[0];
  }

  /**
   * The outcomes of the recording endpoint once the recording is in hand and
   * `k` is its first TRANSCRIPT file: without a `download_url` key the 500
   * payload; an HTTP 404 while obtaining the token reads "Recording not
   * found", and any other failure to obtain it the 500 payload; a failed or
   * empty download gives its message; otherwise the
   * captions are those parsed from the content, even for a JSON null URL
   * that the download somehow answered.
   */
  lemma RecordingTranscriptOutcomes(api: Api, recordingId: string, token: Result<string, TokenError>,
                                    download: Download, recording: Recording, k: nat)
    requires api.recording(recordingId) == Ok(recording)
    requires FirstTranscriptAt(recording.recordingFiles, k)
    ensures var r := RecordingTranscript(api, recordingId, token, download);
      var url := recording.recordingFiles[k].downloadUrl;
      && (url.None? ==> r == ServerError)
      && (r == ServerError <==> url.None? || (token.Failure? && token.error != HttpFailure(404)))
      && (url.Some? ==> (r == NoTranscript(RecordingNotFound) <==> token == Failure(HttpFailure(404))))
      && (r == NoTranscript(RecordingDownloadFailed) <==>
            url.Some? && token.Success? && !Downloaded(download(url.value, token.value)))
      && (r.Transcript? <==> url.Some? && token.Success? && Downloaded(download(url.value, token.value)))
      && (r.Transcript? ==> r.captions == ParseCaptions(download(url.value, token.value).value))
  {
    ChosenFileIsFirstTranscript(recording.recordingFiles);
    MessagesAreDistinct();
  }

  /** Once the recording is in hand, the recording endpoint answers "No transcript available" exactly when no file is a TRANSCRIPT. */
  lemma RecordingWithoutTranscript(api: Api, recordingId: string, token: Result<string, TokenError>,
                                   download: Download, recording: Recording)
    requires api.recording(recordingId) == Ok(recording)
    ensures RecordingTranscript(api, recordingId, token, download) == NoTranscript(NoTranscriptAvailable)
      <==> forall i :: 0 <= i < |recording.recordingFiles| ==> !IsTranscriptFile(recording.recordingFiles[i])
  {
    ChosenFileIsFirstTranscript(recording.recordingFiles);
    MessagesAreDistinct();
  }

  /** A failed recording request: a 404 reads "Recording not found", anything else is the 500 payload. */
  lemma RecordingRequestFails(api: Api, recordingId: string, token: Result<string, TokenError>, download: Download)
    requires !api.recording(recordingId).Ok?
    ensures RecordingTranscript(api, recordingId, token, download) ==
      if api.recording(recordingId).HttpError? && api.recording(recordingId).status == 404
      then NoTranscript(RecordingNotFound) else ServerError
  {
  }

  /**
   * The two endpoints disagree on a TRANSCRIPT file that has no `download_url`
   * key: the meeting endpoint answers "No transcript URL available", the
   * recording endpoint the 500 payload.
   */
  lemma MissingUrlDiffers(api: Api, id: string, token: Result<string, TokenError>,
                          download: Download, recording: Recording, k: nat)
    requires api.meetingRecordings(id) == Ok(recording) && api.recording(id) == Ok(recording)
    requires FirstTranscriptAt(recording.recordingFiles, k)
    requires recording.recordingFiles[k].downloadUrl.None?
    ensures MeetingTranscript(api, id, token, download) == NoTranscript(NoTranscriptUrl)
    ensures RecordingTranscript(api, id, token, download) == ServerError
  {
    ChosenFileIsFirstTranscript(recording.recordingFiles);
  }
}
