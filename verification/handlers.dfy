/**
 * The three handlers as wholes: the access gate, the client configuration
 * check of `get_zoom_client`, and then the handler's body, with every
 * exception the body raises turned into the 500 payload.
 */
module Handlers {
  import opened Wrappers
  import opened ZoomApi
  import OAuth
  import Discovery
  import CourseFilter
  import Transcripts
  import AccessKey
  import Seqs

  /** The access gate's 401, or what the handler's body answers. */
  datatype Answer<T> = Answered(reply: T) | Unauthorized

  /** What `get_instructor_recordings` returns past the gate. */
  datatype RecordingsReply =
    | Recordings(infos: seq<CourseFilter.RecordingInfo>)  // {"recordings": [...]}
    | NoZoomUser                                          // {"recordings": [], "message": "No Zoom user found"}
    | ServerError                                         // the catch-all 500 payload

  /**
   * `get_instructor_recordings(instructor_id, course_id)` on day `today`.
   * `config` is the stored configuration row, if any: the gate reads its key
   * settings, and without it `get_zoom_client` raises.
   */
  function InstructorRecordings(config: Option<AccessKey.KeySettings>, header: Option<string>, api: Api,
                                instructorId: string, courseId: Option<string>, today: int): Answer<RecordingsReply>
  {
    if AccessKey.Verify(config, header) == AccessKey.Unauthorized then Unauthorized
    else if config.None? then Answered(ServerError)
    else
      var scanned := Discovery.Scan(api, instructorId, today);
      if scanned.Aborted? then Answered(ServerError)
      else if scanned.NoUser? then Answered(NoZoomUser)
      else
        var filtered := CourseFilter.FilterRecordings(api, courseId, scanned.recordings);
        if filtered.FilterAborted? then Answered(ServerError)
        else Answered(Recordings(filtered.infos))
  }

  /** The handler as it runs: the gate, the scan loop, then the filter loop. */
  method GetInstructorRecordings(config: Option<AccessKey.KeySettings>, header: Option<string>, api: Api,
                                 instructorId: string, courseId: Option<string>, today: int)
    returns (r: Answer<RecordingsReply>)
    ensures r == InstructorRecordings(config, header, api, instructorId, courseId, today)
  {
    if AccessKey.Rejects(config, header) {
      return Unauthorized;
    }
    if config.None? {
      return Answered(ServerError);
    }
    var scanned := Discovery.ScanRecordings(api, instructorId, today);
    if scanned.Aborted? {
      return Answered(ServerError);
    } else if scanned.NoUser? {
      return Answered(NoZoomUser);
    }
    var filtered := CourseFilter.FilterLoop(api, courseId, scanned.recordings);
    if filtered.FilterAborted? {
      return Answered(ServerError);
    }
    return Answered(Recordings(filtered.infos));
  }

  /**
   * `get_meeting_transcript(meeting_id)`. The client is new, so its token
   * cache is empty when the download's token is asked for.
   */
  function MeetingTranscriptHandler(config: Option<AccessKey.KeySettings>, header: Option<string>, api: Api,
                                    meetingId: string, now: int, credentials: Option<OAuth.Credentials>,
                                    endpoint: OAuth.Credentials -> OAuth.TokenReply, issued: int,
                                    download: Transcripts.Download): (r: Answer<Transcripts.TranscriptResponse>)
    ensures r.Unauthorized? <==> AccessKey.Rejects(config, header)
    ensures r.Answered? && r.reply.Transcript? ==>
      config.Some? && OAuth.Acquire(OAuth.Empty, now, credentials, endpoint, issued).outcome.Success?
    ensures !AccessKey.Rejects(config, header) && config.Some? ==>
      r == Answered(Transcripts.MeetingTranscript(
             api, meetingId, OAuth.Acquire(OAuth.Empty, now, credentials, endpoint, issued).outcome, download))
  {
    if AccessKey.Verify(config, header) == AccessKey.Unauthorized then Unauthorized
    else if config.None? then Answered(Transcripts.ServerError)
    else
      var token := OAuth.Acquire(OAuth.Empty, now, credentials, endpoint, issued).outcome;
      Answered(Transcripts.MeetingTranscript(api, meetingId, token, download))
  }

  /**
   * `get_recording_transcript(recording_id)`. `cache` is the client's token
   * cache after the recording request, which obtained a token of its own.
   */
  function RecordingTranscriptHandler(config: Option<AccessKey.KeySettings>, header: Option<string>, api: Api,
                                      recordingId: string, cache: OAuth.TokenState, now: int,
                                      credentials: Option<OAuth.Credentials>,
                                      endpoint: OAuth.Credentials -> OAuth.TokenReply, issued: int,
                                      download: Transcripts.Download): (r: Answer<Transcripts.TranscriptResponse>)
    ensures r.Unauthorized? <==> AccessKey.Rejects(config, header)
    ensures r.Answered? && r.reply.Transcript? ==>
      config.Some? && OAuth.Acquire(cache, now, credentials, endpoint, issued).outcome.Success?
    ensures !AccessKey.Rejects(config, header) && config.Some? ==>
      r == Answered(Transcripts.RecordingTranscript(
             api, recordingId, OAuth.Acquire(cache, now, credentials, endpoint, issued).outcome, download))
  {
    if AccessKey.Verify(config, header) == AccessKey.Unauthorized then Unauthorized
    else if config.None? then Answered(Transcripts.ServerError)
    else
      var token := OAuth.Acquire(cache, now, credentials, endpoint, issued).outcome;
      Answered(Transcripts.RecordingTranscript(api, recordingId, token, download))
  }

  /**
   * The gate comes first in every handler: a rejected request is answered
   * 401 whatever the provider would say, and a passed request with no stored
   * configuration gets the 500 payload.
   */
  lemma GateComesFirst(config: Option<AccessKey.KeySettings>, header: Option<string>, api: Api,
                       id: string, courseId: Option<string>, today: int,
                       cache: OAuth.TokenState, now: int, credentials: Option<OAuth.Credentials>,
                       endpoint: OAuth.Credentials -> OAuth.TokenReply, issued: int,
                       download: Transcripts.Download)
    ensures AccessKey.Rejects(config, header) ==>
      && InstructorRecordings(config, header, api, id, courseId, today) == Unauthorized
      && MeetingTranscriptHandler(config, header, api, id, now, credentials, endpoint, issued, download) == Unauthorized
      && RecordingTranscriptHandler(config, header, api, id, cache, now, credentials, endpoint, issued, download)
           == Unauthorized
    ensures config.None? ==>
      && InstructorRecordings(config, header, api, id, courseId, today) == Answered(ServerError)
      && MeetingTranscriptHandler(config, header, api, id, now, credentials, endpoint, issued, download)
           == Answered(Transcripts.ServerError)
      && RecordingTranscriptHandler(config, header, api, id, cache, now, credentials, endpoint, issued, download)
           == Answered(Transcripts.ServerError)
  {
    AccessKey.VerifyAnswersUnauthorized(config, header);
  }

  /**
   * Every answer of the instructor handler and when it is given: 401 exactly
   * when the gate rejects; "No Zoom user found" exactly when the scan stopped
   * at a failed user lookup, whatever earlier windows had found; the 500
   * payload exactly when the configuration is missing, the scan aborts or
   * some scanned recording's report lookup aborts; otherwise the recordings,
   * which are the projections of exactly those scanned recordings the filter
   * keeps, in scan order.
   */
  lemma RecordingsAreFilteredScan(config: Option<AccessKey.KeySettings>, header: Option<string>, api: Api,
                                  instructorId: string, courseId: Option<string>, today: int)
    ensures var r := InstructorRecordings(config, header, api, instructorId, courseId, today);
      r.Answered? && r.reply.Recordings? ==>
        exists scanned ::
          && Discovery.Scan(api, instructorId, today) == Discovery.Collected(scanned)
          && exists kept ::
               Seqs.Selects(scanned, CourseFilter.Kept(api, courseId), kept)
               && r.reply.infos == Seqs.Map(CourseFilter.Project, kept)
    ensures InstructorRecordings(config, header, api, instructorId, courseId, today) == Answered(NoZoomUser) <==>
      !AccessKey.Rejects(config, header) && config.Some? && Discovery.Scan(api, instructorId, today).NoUser?
    ensures InstructorRecordings(config, header, api, instructorId, courseId, today) == Unauthorized <==>
      AccessKey.Rejects(config, header)
    ensures var scan := Discovery.Scan(api, instructorId, today);
      InstructorRecordings(config, header, api, instructorId, courseId, today) == Answered(ServerError) <==>
        && !AccessKey.Rejects(config, header)
        && (|| config.None? || scan.Aborted?
            || (scan.Collected? && (exists i :: 0 <= i < |scan.recordings| &&
                                          CourseFilter.Judge(api, courseId, scan.recordings[i]) == CourseFilter.Abort)))
    ensures var scan := Discovery.Scan(api, instructorId, today);
      var r := InstructorRecordings(config, header, api, instructorId, courseId, today);
      (&& !AccessKey.Rejects(config, header) && config.Some? && scan.Collected?
       && forall i :: 0 <= i < |scan.recordings| ==> CourseFilter.Judge(api, courseId, scan.recordings[i]) != CourseFilter.Abort)
      ==> r.Answered? && r.reply.Recordings?
  {
    AccessKey.VerifyAnswersUnauthorized(config, header);
    var scanned := Discovery.Scan(api, instructorId, today);
    if scanned.Collected? {
      CourseFilter.FilterSelectsKept(api, courseId, scanned.recordings);
    }
  }
}
