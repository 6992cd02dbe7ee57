/**
 * The second half of `get_instructor_recordings`: for every recording found,
 * the meeting report is fetched (by meeting id, and on a 404 whose error code
 * is 3001 once more by the meeting's UUID). A recording whose report is
 * refused with an HTTP error is skipped, but an error body that cannot be read
 * as the handler reads it, or a failure that is not an HTTP error, aborts the
 * whole request. Without a course id every recording with a report is
 * kept; with one, a recording is kept when the first tracking field named
 * "Canvas Course" in its report has that course id as its value. Each kept
 * recording is reduced to a few members and its MP4 and TRANSCRIPT files.
 */
module CourseFilter {
  import opened Wrappers
  import opened Json
  import opened ZoomApi
  import opened Seqs

  const NotFound: int := 404
  /** The provider's error code for a meeting it cannot find by the given id. */
  const MeetingNotFoundCode: int := 3001
  const CourseFieldName: string := "Canvas Course"

  /** `f"{recording.get('id')}"`. */
  function IdPath(recording: Recording): string
  {
    PyStr(Get(recording.id))
  }

  /** `f"{recording.get('uuid', '')}"`. */
  function UuidPath(recording: Recording): string
  {
    PyStr(GetOr(recording.uuid, Str("")))
  }

  /** The report of one recording: fetched, skipped (`continue`), or an exception that aborts the request. */
  datatype Lookup = Fetched(report: Report) | Skipped | Aborted

  /**
   * The report lookup. Every error body is decoded first, so a body that is
   * not JSON aborts whatever the status. Its `code` is read only when the
   * status is 404, so a JSON body that is not an object aborts only then. An
   * error with status 404 and code 3001 is retried with the UUID; any other
   * error skips.
   */
  function LookupReport(api: Api, recording: Recording): (r: Lookup)
    ensures r.Fetched? ==>
      || api.report(IdPath(recording)) == Ok(r.report)
      || (api.report(IdPath(recording)) == HttpError(NotFound, ErrorObject(Some(Int(MeetingNotFoundCode))))
          && api.report(UuidPath(recording)) == Ok(r.report))
    ensures api.report(IdPath(recording)).Ok? ==> r.Fetched?
  {
    match api.report(IdPath(recording))
    case Ok(report) => Fetched(report)
    case Failed => Aborted
    case HttpError(status, body) =>
      match body
      case NotJson => Aborted
      case OtherJson => if status == NotFound then Aborted else Skipped
      case ErrorObject(code) =>
        if status == NotFound && code == Some(Int(MeetingNotFoundCode)) then
          match api.report(UuidPath(recording))
          case Ok(report) => Fetched(report)
          case HttpError(_, _) => Skipped
          case Failed => Aborted
        else Skipped
  }

  predicate IsCourseField(f: TrackingField)
  {
    Get(f.field) == Str(CourseFieldName)
  }

  /** `not course_id`: no course id, or an empty one. */
  predicate NoCourse(courseId: Option<string>)
  {
    courseId.None? || courseId.value == ""
  }

  /** The first "Canvas Course" field exists and `str(field.get("value", ""))` is the course id. */
  predicate MatchesCourse(courseId: string, report: Report)
  {
    match FirstWhere(report.trackingFields, IsCourseField)
    case None => false
    case Some(i) => PyStr(GetOr(report.trackingFields[i].value, Str(""))) == courseId
  }

  predicate Includes(courseId: Option<string>, report: Report): (b: bool)
    ensures NoCourse(courseId) ==> b
    ensures b && !NoCourse(courseId) ==> FirstWhere(report.trackingFields, IsCourseField).Some?
  {
    NoCourse(courseId) || MatchesCourse(courseId.value, report)
  }

  datatype FileInfo = FileInfo(id: Value, fileType: Value, recordingType: Value, downloadUrl: Value)

  datatype RecordingInfo = RecordingInfo(
    id: Value, uuid: Value, topic: Value, startTime: Value, duration: Value, recordingFiles: seq<FileInfo>)

  /** The file types the projection keeps. */
  predicate IsMedia(f: RecordingFile)
  {
    Get(f.fileType) == Str("MP4") || Get(f.fileType) == Str("TRANSCRIPT")
  }

  function FileInfoOf(f: RecordingFile): FileInfo
  {
    FileInfo(Get(f.id), Get(f.fileType), Get(f.recordingType), Get(f.downloadUrl))
  }

  /** The `recording_info` built for a kept recording. */
  function Project(recording: Recording): (info: RecordingInfo)
    ensures |info.recordingFiles| <= |recording.recordingFiles|
  {
    RecordingInfo(Get(recording.id), Get(recording.uuid), Get(recording.topic),
                  Get(recording.startTime), Get(recording.duration),
                  Map(FileInfoOf, Filter(recording.recordingFiles, IsMedia)))
  }

  /** What happens to one recording. */
  datatype Verdict = Keep | Drop | Abort

  function Judge(api: Api, courseId: Option<string>, recording: Recording): Verdict
  {
    match LookupReport(api, recording)
    case Aborted => Abort
    case Skipped => Drop
    case Fetched(report) => if Includes(courseId, report) then Keep else Drop
  }

  function Kept(api: Api, courseId: Option<string>): Recording -> bool
  {
    recording => Judge(api, courseId, recording) == Keep
  }

  datatype Filtered = Selected(infos: seq<RecordingInfo>) | FilterAborted

  /** `infos` followed by what the rest of the filter gives; an abort discards `infos`. */
  function Then(infos: seq<RecordingInfo>, rest: Filtered): Filtered
  {
    if rest.Selected? then Selected(infos + rest.infos) else rest
  }

  /** The whole filter, recording by recording: an abort ends it, a kept recording adds its projection. */
  function FilterRecordings(api: Api, courseId: Option<string>, recordings: seq<Recording>): Filtered
    decreases |recordings|
  {
    if recordings == [] then Selected([])
    else match Judge(api, courseId, recordings[0])
      case Abort => FilterAborted
      case Drop => FilterRecordings(api, courseId, recordings[1..])
      case Keep => Then([Project(recordings[0])], FilterRecordings(api, courseId, recordings[1..]))
  }

  /** The report lookup as the handler runs it, with its `try`/`except` around both requests. */
  method FetchReport(api: Api, recording: Recording) returns (lookup: Lookup)
    ensures lookup == LookupReport(api, recording)
  {
    match api.report(IdPath(recording)) {
      case Ok(report) =>
        return Fetched(report);
      case Failed =>
        return Aborted;
      case HttpError(status, body) =>
        match body {
          case NotJson =>
            return Aborted;
          case OtherJson =>
            if status == NotFound {
              return Aborted;
            }
            return Skipped;
          case ErrorObject(code) =>
            if status == NotFound && code == Some(Int(MeetingNotFoundCode)) {
              match api.report(UuidPath(recording)) {
                case Ok(report) =>
                  return Fetched(report);
                case HttpError(_, _) =>
                  return Skipped;
                case Failed =>
                  return Aborted;
              }
            }
            return Skipped;
        }
    }
  }

  /** The course test as the handler runs it: no course id, or the first "Canvas Course" field's value. */
  method CheckCourse(courseId: Option<string>, report: Report) returns (matches: bool)
    ensures matches == Includes(courseId, report)
  {
    if NoCourse(courseId) {
      return true;
    }
    var trackingFields := report.trackingFields;
    var courseField := FirstWhere(trackingFields, IsCourseField);
    matches := courseField.Some? && PyStr(GetOr(trackingFields[courseField.value].value, Str(""))) == courseId.value;
  }

  /** One iteration's decision: the report lookup with its retry, then the course test. */
  method Decide(api: Api, courseId: Option<string>, recording: Recording) returns (verdict: Verdict)
    ensures verdict == Judge(api, courseId, recording)
  {
    var lookup := FetchReport(api, recording);
    if lookup.Aborted? {
      return Abort;
    } else if lookup.Skipped? {
      return Drop;
    }
    var matches := CheckCourse(courseId, lookup.report);
    return if matches then Keep else Drop;
  }

  /** The filter as the handler runs it: one pass, `continue` on a skipped report, appending kept recordings. */
  method FilterLoop(api: Api, courseId: Option<string>, allRecordings: seq<Recording>) returns (r: Filtered)
    ensures r == FilterRecordings(api, courseId, allRecordings)
  {
    var filtered: seq<RecordingInfo> := [];
    for i := 0 to |allRecordings|
      invariant FilterRecordings(api, courseId, allRecordings)
        == Then(filtered, FilterRecordings(api, courseId, allRecordings[i..]))
    {
      var recording := allRecordings[i];
      assert allRecordings[i..][1..] == allRecordings[i + 1..];
      var verdict := Decide(api, courseId, recording);
      if verdict == Abort {
        return FilterAborted;
      } else if verdict == Drop {
        continue;
      }
      ThenThen(filtered, [Project(recording)], FilterRecordings(api, courseId, allRecordings[i + 1..]));
      filtered := filtered + [Project(recording)];
    }
    assert allRecordings[|allRecordings|..] == [];
    assert filtered + [] == filtered;
    return Selected(filtered);
  }

  lemma ThenThen(a: seq<RecordingInfo>, b: seq<RecordingInfo>, rest: Filtered)
    ensures Then(a, Then(b, rest)) == Then(a + b, rest)
  {
    if rest.Selected? {
      assert a + (b + rest.infos) == (a + b) + rest.infos;
    }
  }

  // ----- Properties -----

  /**
   * The filter aborts exactly when some recording's lookup aborts; otherwise
   * its result is the projections of exactly the kept recordings, in their
   * order among the recordings scanned.
   */
  lemma FilterSelectsKept(api: Api, courseId: Option<string>, recordings: seq<Recording>)
    ensures FilterRecordings(api, courseId, recordings).FilterAborted? <==>
      exists i :: 0 <= i < |recordings| && Judge(api, courseId, recordings[i]) == Abort
    ensures FilterRecordings(api, courseId, recordings).Selected? ==>
      exists kept :: Selects(recordings, Kept(api, courseId), kept)
        && FilterRecordings(api, courseId, recordings).infos == Map(Project, kept)
  {
    FilterAbortsExactly(api, courseId, recordings);
    FilterMapsKept(api, courseId, recordings);
    FilterSelects(recordings, Kept(api, courseId));
  }

  /** The filter aborts exactly when some recording's lookup aborts. */
  lemma {:induction false} FilterAbortsExactly(api: Api, courseId: Option<string>, recordings: seq<Recording>)
    ensures FilterRecordings(api, courseId, recordings).FilterAborted? <==>
      exists i :: 0 <= i < |recordings| && Judge(api, courseId, recordings[i]) == Abort
    decreases |recordings|
  {
    if recordings != [] {
      var tail := recordings[1..];
      FilterAbortsExactly(api, courseId, tail);
      if exists i :: 0 <= i < |tail| && Judge(api, courseId, tail[i]) == Abort {
        var i :| 0 <= i < |tail| && Judge(api, courseId, tail[i]) == Abort;
        assert Judge(api, courseId, recordings[i + 1]) == Abort;
      }
      if Judge(api, courseId, recordings[0]) != Abort {
        forall i | 0 < i < |recordings| && Judge(api, courseId, recordings[i]) == Abort
          ensures exists j :: 0 <= j < |tail| && Judge(api, courseId, tail[j]) == Abort
        {
          assert tail[i - 1] == recordings[i];
        }
      }
    }
  }

  /** When the filter does not abort, it maps the projection over the kept recordings. */
  lemma {:induction false} FilterMapsKept(api: Api, courseId: Option<string>, recordings: seq<Recording>)
    ensures FilterRecordings(api, courseId, recordings).Selected? ==>
      FilterRecordings(api, courseId, recordings).infos == Map(Project, Filter(recordings, Kept(api, courseId)))
    decreases |recordings|
  {
    if recordings != [] {
      var head := recordings[0];
      var tail := recordings[1..];
      FilterMapsKept(api, courseId, tail);
      var rest := Filter(tail, Kept(api, courseId));
      if Kept(api, courseId)(head) {
        assert Filter(recordings, Kept(api, courseId)) == [head] + rest;
        assert ([head] + rest)[1..] == rest;
      } else {
        assert Filter(recordings, Kept(api, courseId)) == [] + rest == rest;
      }
    }
  }

  /** Without a course id, a recording is kept exactly when its report was fetched. */
  lemma NoCourseKeepsEveryReported(api: Api, courseId: Option<string>, recording: Recording)
    requires NoCourse(courseId)
    ensures Judge(api, courseId, recording) == Keep <==> LookupReport(api, recording).Fetched?
  {
  }

  /**
   * With a course id, a report matches exactly when it has a "Canvas Course"
   * field, the first such field's value reads as the course id, and fields
   * after it are not looked at.
   */
  lemma MatchesFirstCourseField(courseId: string, report: Report)
    requires courseId != ""
    ensures Includes(Some(courseId), report) <==>
      exists i :: 0 <= i < |report.trackingFields|
        && IsCourseField(report.trackingFields[i])
        && (forall j :: 0 <= j < i ==> !IsCourseField(report.trackingFields[j]))
        && PyStr(GetOr(report.trackingFields[i].value, Str(""))) == courseId
  {
    var fields := report.trackingFields;
    var first := FirstWhere(fields, IsCourseField);
    if exists i :: 0 <= i < |fields| && IsCourseField(fields[i])
        && (forall j :: 0 <= j < i ==> !IsCourseField(fields[j]))
        && PyStr(GetOr(fields[i].value, Str(""))) == courseId {
      var i :| 0 <= i < |fields| && IsCourseField(fields[i])
        && (forall j :: 0 <= j < i ==> !IsCourseField(fields[j]))
        && PyStr(GetOr(fields[i].value, Str(""))) == courseId;
      assert first == Some(i);
    }
  }

  /**
   * The report is fetched by meeting id, or, after a 404 with code 3001, by
   * UUID. An exception that is not an HTTP error aborts, and so does an error
   * body that is not JSON, or one that is JSON but not an object when the
   * status is 404. Every other error skips the recording.
   */
  lemma LookupOutcomes(api: Api, recording: Recording)
    ensures LookupReport(api, recording).Fetched? <==>
      || api.report(IdPath(recording)).Ok?
      || (api.report(IdPath(recording)) == HttpError(NotFound, ErrorObject(Some(Int(MeetingNotFoundCode))))
          && api.report(UuidPath(recording)).Ok?)
    ensures LookupReport(api, recording).Fetched? ==>
      || Ok(LookupReport(api, recording).report) == api.report(IdPath(recording))
      || Ok(LookupReport(api, recording).report) == api.report(UuidPath(recording))
    ensures LookupReport(api, recording).Aborted? <==>
      || api.report(IdPath(recording)).Failed?
      || (api.report(IdPath(recording)).HttpError? && api.report(IdPath(recording)).error.NotJson?)
      || api.report(IdPath(recording)) == HttpError(NotFound, OtherJson)
      || (api.report(IdPath(recording)) == HttpError(NotFound, ErrorObject(Some(Int(MeetingNotFoundCode))))
          && api.report(UuidPath(recording)).Failed?)
    ensures LookupReport(api, recording).Skipped? <==>
      || (api.report(IdPath(recording)).HttpError? && api.report(IdPath(recording)).status != NotFound
          && !api.report(IdPath(recording)).error.NotJson?)
      || (api.report(IdPath(recording)).HttpError? && api.report(IdPath(recording)).error.ErrorObject?
          && api.report(IdPath(recording)).error.code != Some(Int(MeetingNotFoundCode)))
      || (api.report(IdPath(recording)) == HttpError(NotFound, ErrorObject(Some(Int(MeetingNotFoundCode))))
          && api.report(UuidPath(recording)).HttpError?)
  {
  }

  /**
   * A kept recording keeps its id, UUID, topic, start time and duration, and
   * exactly its MP4 and TRANSCRIPT files, in their order, each reduced to its
   * id, type, recording type and download URL.
   */
  lemma ProjectionKeepsMediaFiles(recording: Recording)
    ensures var info := Project(recording);
      && info.id == Get(recording.id) && info.uuid == Get(recording.uuid) && info.topic == Get(recording.topic)
      && info.startTime == Get(recording.startTime) && info.duration == Get(recording.duration)
      && exists kept: seq<RecordingFile> ::
           && Selects(recording.recordingFiles, IsMedia, kept)
           && |info.recordingFiles| == |kept|
           && (forall k :: 0 <= k < |kept| ==>
                 info.recordingFiles[k] == FileInfo(Get(kept[k].id), Get(kept[k].fileType),
                                                    Get(kept[k].recordingType), Get(kept[k].downloadUrl)))
  {
    FilterSelects(recording.recordingFiles, IsMedia);
  }

  /** Every file of a projection is an MP4 or a TRANSCRIPT. */
  lemma ProjectedFilesAreMedia(recording: Recording)
    ensures forall f :: f in Project(recording).recordingFiles ==>
      f.fileType == Str("MP4") || f.fileType == Str("TRANSCRIPT")
  {
    var kept := Filter(recording.recordingFiles, IsMedia);
    FilterSelects(recording.recordingFiles, IsMedia);
    forall f | f in Project(recording).recordingFiles
      ensures f.fileType == Str("MP4") || f.fileType == Str("TRANSCRIPT")
    {
      var k :| 0 <= k < |kept| && Project(recording).recordingFiles[k] == f;
      assert IsMedia(kept[k]);
    }
  }
}
