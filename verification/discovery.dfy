/**
 * The recordings scan of `get_instructor_recordings`: from today back to
 * 2020-01-01 in 30-day windows, listing each window's recordings for the
 * instructor. A window the provider answers with 404 is retried with the user
 * id looked up from the instructor's identifier; the lookup is made again for
 * every such window. Days are whole day numbers counted from 1970-01-01.
 */
module Discovery {
  import opened Wrappers
  import opened Json
  import opened ZoomApi

  /** 2020-01-01, the earliest day the scan reaches. */
  const EpochDay: int := 18262
  const WindowDays: int := 30

  /** The windows visited from `day` on: (day - 30, day), then 30 days earlier, while the end is not before the epoch. */
  function Windows(day: int): seq<Window>
    decreases if day < EpochDay then 0 else day - EpochDay + 1
  {
    if day < EpochDay then [] else [Window(day - WindowDays, day)] + Windows(day - WindowDays)
  }

  /** What a window, or the whole scan, gives: recordings, "no Zoom user found", or an exception that aborts the request. */
  datatype Outcome = Collected(recordings: seq<Recording>) | NoUser | Aborted

  /** The resolved user's path segment, `f"{user.get('id')}"`. */
  function UserPath(user: User): string
  {
    PyStr(Get(user.id))
  }

  /** One window: the listing for the identifier, or on 404 the lookup and the listing for the resolved id. */
  function FetchWindow(api: Api, instructorId: string, w: Window): (o: Outcome)
    ensures o.NoUser? ==> api.userRecordings(instructorId, w).HttpError? && api.userRecordings(instructorId, w).status == 404
    ensures api.userRecordings(instructorId, w).Failed? ==> o.Aborted?
    ensures o.Collected? ==>
      || api.userRecordings(instructorId, w) == Ok(o.recordings)
      || (&& api.userRecordings(instructorId, w).HttpError? && api.userRecordings(instructorId, w).status == 404
          && api.user(instructorId).Ok?
          && api.userRecordings(UserPath(api.user(instructorId).body), w) == Ok(o.recordings))
  {
    match api.userRecordings(instructorId, w)
    case Ok(meetings) => Collected(meetings)
    case Failed => Aborted
    case HttpError(status, _) =>
      if status != 404 then Aborted
      else match api.user(instructorId)
        case Failed => Aborted
        case HttpError(_, _) => NoUser
        case Ok(user) =>
          match api.userRecordings(UserPath(user), w)
          case Ok(meetings) => Collected(meetings)
          case HttpError(_, _) => NoUser
          case Failed => Aborted
  }

  /** `acc` followed by what the rest collects; a failure discards `acc`. */
  function Then(acc: seq<Recording>, rest: Outcome): Outcome
  {
    if rest.Collected? then Collected(acc + rest.recordings) else rest
  }

  /** The windows in order, stopping at the first that does not collect. */
  function Collect(api: Api, instructorId: string, ws: seq<Window>): Outcome
  {
    if ws == [] then Collected([])
    else match FetchWindow(api, instructorId, ws[0])
      case Collected(meetings) => Then(meetings, Collect(api, instructorId, ws[1..]))
      case failure => failure
  }

  function Scan(api: Api, instructorId: string, today: int): Outcome
  {
    Collect(api, instructorId, Windows(today))
  }

  /** The scan as the handler runs it: a loop moving the window back 30 days at a time. */
  method ScanRecordings(api: Api, instructorId: string, today: int) returns (r: Outcome)
    ensures r == Scan(api, instructorId, today)
  {
    var allRecordings: seq<Recording> := [];
    var current := today;
    while current >= EpochDay
      invariant Scan(api, instructorId, today) == Then(allRecordings, Collect(api, instructorId, Windows(current)))
      decreases current - EpochDay
    {
      var w := Window(current - WindowDays, current);
      assert Windows(current) == [w] + Windows(current - WindowDays);
      ghost var rest := Collect(api, instructorId, Windows(current - WindowDays));
      var meetings: seq<Recording>;
      match api.userRecordings(instructorId, w) {
        case Ok(listed) =>
          meetings := listed;
        case Failed =>
          return Aborted;
        case HttpError(status, _) =>
          if status != 404 {
            return Aborted;
          }
          match api.user(instructorId) {
            case Failed =>
              return Aborted;
            case HttpError(_, _) =>
              return NoUser;
            case Ok(user) =>
              match api.userRecordings(UserPath(user), w) {
                case Ok(listed) =>
                  meetings := listed;
                case HttpError(_, _) =>
                  return NoUser;
                case Failed =>
                  return Aborted;
              }
          }
      }
      assert FetchWindow(api, instructorId, w) == Collected(meetings);
      ThenThen(allRecordings, meetings, rest);
      allRecordings := allRecordings + meetings;
      current := current - WindowDays;
    }
    return Collected(allRecordings);
  }

  lemma ThenThen(a: seq<Recording>, b: seq<Recording>, rest: Outcome)
    ensures Then(a, Then(b, rest)) == Then(a + b, rest)
  {
    if rest.Collected? {
      assert a + (b + rest.recordings) == (a + b) + rest.recordings;
    }
  }

  // ----- The windows -----

  /** The number of windows: one for every 30 days from the epoch up to `day`, counting `day`'s own. */
  lemma {:induction false} WindowCount(day: int)
    ensures |Windows(day)| == if day < EpochDay then 0 else (day - EpochDay) / WindowDays + 1
    decreases if day < EpochDay then 0 else day - EpochDay + 1
  {
    if day >= EpochDay {
      WindowCount(day - WindowDays);
      if day - WindowDays >= EpochDay {
        assert (day - EpochDay) / WindowDays == (day - WindowDays - EpochDay) / WindowDays + 1;
      } else {
        assert (day - EpochDay) / WindowDays == 0;
      }
    }
  }

  /** Window `k` ends 30k days before `day`, is 30 days long, and its end is not before the epoch. */
  lemma {:induction false} WindowAt(day: int, k: nat)
    requires k < |Windows(day)|
    ensures Windows(day)[k] == Window(day - WindowDays * k - WindowDays, day - WindowDays * k)
    ensures day - WindowDays * k >= EpochDay
    decreases k
  {
    if k > 0 {
      WindowAt(day - WindowDays, k - 1);
    }
  }

  /**
   * The windows tile the range back from `day`: each starts where the next
   * (older) one ends, every end is on or after the epoch, and the oldest
   * window starts before the epoch, so no day from the epoch on is missed.
   */
  lemma WindowsTile(day: int)
    ensures var ws := Windows(day);
      && (forall k :: 0 <= k < |ws| - 1 ==> ws[k].from == ws[k + 1].to)
      && (forall k :: 0 <= k < |ws| ==> ws[k].to >= EpochDay && ws[k].to - ws[k].from == WindowDays)
      && (|ws| > 0 ==> ws[0].to == day && ws[|ws| - 1].from < EpochDay)
  {
    var ws := Windows(day);
    forall k | 0 <= k < |ws| ensures ws[k].to >= EpochDay && ws[k].to - ws[k].from == WindowDays {
      WindowAt(day, k);
    }
    forall k | 0 <= k < |ws| - 1 ensures ws[k].from == ws[k + 1].to {
      WindowAt(day, k);
      WindowAt(day, k + 1);
    }
    if |ws| > 0 {
      WindowCount(day);
      WindowAt(day, 0);
      WindowAt(day, |ws| - 1);
    }
  }

  // ----- What the scan returns -----

  /** The test for a window that stops the scan. */
  function Stops(api: Api, instructorId: string): Window -> bool
  {
    w => !FetchWindow(api, instructorId, w).Collected?
  }

  /** Every window's recordings, in window order. */
  function Gathered(api: Api, instructorId: string, ws: seq<Window>): seq<Recording>
  {
    if ws == [] then []
    else
      var o := FetchWindow(api, instructorId, ws[0]);
      (if o.Collected? then o.recordings else []) + Gathered(api, instructorId, ws[1..])
  }

  /**
   * When no window fails the scan collects every window's recordings, newest
   * window first; otherwise its outcome is that of the first window that
   * fails ("no user" or an abort), and what earlier windows collected is lost.
   */
  lemma {:induction false} CollectStopsAtFirstFailure(api: Api, instructorId: string, ws: seq<Window>)
    ensures var first := FirstWhere(ws, Stops(api, instructorId));
      && (first.None? ==> Collect(api, instructorId, ws) == Collected(Gathered(api, instructorId, ws)))
      && (first.Some? ==> Collect(api, instructorId, ws) == FetchWindow(api, instructorId, ws[first.value]))
  {
    if ws != [] {
      CollectStopsAtFirstFailure(api, instructorId, ws[1..]);
      var o := FetchWindow(api, instructorId, ws[0]);
      if o.Collected? {
        assert !Stops(api, instructorId)(ws[0]);
        var tail := FirstWhere(ws[1..], Stops(api, instructorId));
        if tail.Some? {
          assert ws[1..][tail.value] == ws[tail.value + 1];
        }
      }
    }
  }

  /**
   * Per window: what a 404, the user lookup and the retry lead to. An HTTP
   * error of the lookup or the retry means "no user"; a failure that is not an
   * HTTP error, at any of the three requests, aborts.
   */
  lemma WindowOutcomes(api: Api, instructorId: string, w: Window)
    ensures forall meetings :: api.userRecordings(instructorId, w) == Ok(meetings) ==>
      FetchWindow(api, instructorId, w) == Collected(meetings)
    ensures api.userRecordings(instructorId, w).Failed? ==> FetchWindow(api, instructorId, w) == Aborted
    ensures forall body :: api.userRecordings(instructorId, w) == HttpError(404, body) && api.user(instructorId).Failed? ==>
      FetchWindow(api, instructorId, w) == Aborted
    ensures forall status, body :: api.userRecordings(instructorId, w) == HttpError(status, body) && status != 404 ==>
      FetchWindow(api, instructorId, w) == Aborted
    ensures forall body, status', body' ::
      api.userRecordings(instructorId, w) == HttpError(404, body) && api.user(instructorId) == HttpError(status', body') ==>
      FetchWindow(api, instructorId, w) == NoUser
    ensures forall body, user ::
      api.userRecordings(instructorId, w) == HttpError(404, body) && api.user(instructorId) == Ok(user) ==>
      FetchWindow(api, instructorId, w) == match api.userRecordings(UserPath(user), w)
        case Ok(meetings) => Collected(meetings)
        case HttpError(_, _) => NoUser
        case Failed => Aborted
  {
  }
}
