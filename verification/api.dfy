/**
 * The provider's REST API as the handlers see it: the JSON objects they read
 * and one function per endpoint they call. Every call is made through the
 * client's `_make_request`, so its outcome is the reply object, an HTTPError
 * with its status and body, or any other exception (a transport failure, a
 * body that is not JSON, or a token that could not be obtained other than by
 * an HTTPError). A list member that is absent reads as the empty list, as the
 * handlers read every list with `.get(key, [])`.
 */
module ZoomApi {
  import opened Wrappers
  import opened Json

  datatype RecordingFile = RecordingFile(
    id: Option<Value>, fileType: Option<Value>, recordingType: Option<Value>, downloadUrl: Option<Value>)

  datatype Recording = Recording(
    id: Option<Value>, uuid: Option<Value>, topic: Option<Value>, startTime: Option<Value>,
    duration: Option<Value>, recordingFiles: seq<RecordingFile>)

  /** One of a meeting report's tracking fields: its name and value. */
  datatype TrackingField = TrackingField(field: Option<Value>, value: Option<Value>)

  datatype Report = Report(trackingFields: seq<TrackingField>)

  datatype User = User(id: Option<Value>)

  /** A date range of the recordings listing, as day numbers counted from 1970-01-01. */
  datatype Window = Window(from: int, to: int)

  /**
   * The body of an error reply, as `json.loads` reads it: a JSON object with
   * its `code` member, valid JSON that is not an object (a list, a string, a
   * number or `null`, which have no `.get`), or text that is not JSON at all.
   */
  datatype ErrorBody = ErrorObject(code: Option<Value>) | OtherJson | NotJson

  datatype ApiResult<T> = Ok(body: T) | HttpError(status: int, error: ErrorBody) | Failed

  /** The endpoints, as functions of the path parameter each takes. */
  datatype Api = Api(
    userRecordings: (string, Window) -> ApiResult<seq<Recording>>,  // users/{id}/recordings, its `meetings`
    user: string -> ApiResult<User>,                                 // users/{id}
    report: string -> ApiResult<Report>,                             // report/meetings/{id}
    recording: string -> ApiResult<Recording>,                       // recordings/{id}
    meetingRecordings: string -> ApiResult<Recording>)               // meetings/{id}/recordings
}
