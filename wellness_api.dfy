/** The wellness service client (`src/services/wellness-api.ts`): the
    Monday week start it sends to the server, and how one request's outcome
    becomes a value or an error and updates the hook's `loading`/`error`
    state. The request itself (token, `fetch`) is an input: its outcome. */
module WellnessApi {
  import opened Wrappers
  import opened Text
  import opened CivilDate

  // ---------------------------------------------------------------------------
  // getWeekStart

  /** The day offset `getWeekStart` hands to `setDate`, relative to today:
      `- day + (day === 0 ? -6 : 1)`. */
  function WeekStartShift(d: Date): (k: int)
    requires Valid(d)
    ensures -6 <= k <= 0
  {
    var day := Weekday(d);
    -day + (if day == 0 then -6 else 1)
  }

  /** `getWeekStart(date)` for the calendar date `date` has in the chosen
      time zone. */
  function GetWeekStart(d: Date): (s: string)
    requires Valid(d) && d.year >= 2
  {
    LaterYears(d);
    YmdString(AddDays(d, WeekStartShift(d)))
  }

  /** The week start is the Monday on or before the date: a Monday maps to
      itself, a Sunday six days back, any other day `day - 1` days back. */
  lemma GetWeekStartIsMonday(d: Date)
    requires Valid(d) && d.year >= 2
    ensures GetWeekStart(d) == YmdString(MondayOf(d))
    ensures Weekday(MondayOf(d)) == 1
    ensures DayNumber(d) - 6 <= DayNumber(MondayOf(d)) <= DayNumber(d)
    ensures Weekday(d) != 0 ==> DayNumber(MondayOf(d)) == DayNumber(d) - (Weekday(d) - 1)
    ensures Weekday(d) == 0 ==> DayNumber(MondayOf(d)) == DayNumber(d) - 6
  {
    LaterYears(d);
    var a := AddDays(d, WeekStartShift(d));
    assert DayNumber(a) == DayNumber(MondayOf(d));
    DayNumberOrder(a, MondayOf(d));
    MondayOfCorrect(d);
  }

  // ---------------------------------------------------------------------------
  // authenticatedRequest

  /** What the server sent back, with the body already read: `None` when it
      was not JSON, in which case `parseError` is the message of the error
      `response.json()` throws (its wording is the JavaScript engine's). */
  datatype HttpResponse<T> = HttpResponse(ok: bool, status: nat, body: Option<Body<T>>, parseError: string)

  /** The JSON body: the `message` of an error body, the `data` of a success. */
  datatype Body<T> = Body(message: Option<string>, data: Option<T>)

  /** How the request ended before any state is derived from it: `Thrown`
      is any exception caught by the one `catch` around the token request
      and the `fetch` (a token failure or a rejected fetch), with its
      message; `Reply` is a response that arrived. */
  datatype Attempt<T> = Thrown(reason: string) | Reply(response: HttpResponse<T>)

  /** The resolved value: `{}` for 204, else the body's `data` (possibly
      absent). */
  datatype Payload<T> = NoContent | Data(data: Option<T>)

  const RequestFailed := "Request failed"

  /** The message of the `Error` thrown for a non-OK response:
      `errorData.message || "HTTP " + status`, with an unreadable body read
      as `{ message: 'Request failed' }`. */
  function HttpErrorMessage<T>(r: HttpResponse<T>): (m: string)
    ensures |m| > 0
  {
    match r.body
    case None => RequestFailed
    case Some(b) =>
      if b.message.Some? && b.message.value != "" then b.message.value
      else "HTTP " + NatToString(r.status)
  }

  function RequestOutcome<T>(a: Attempt<T>): (r: Result<Payload<T>, string>)
    ensures r.Ok? <==> a.Reply? && a.response.ok && (a.response.status == 204 || a.response.body.Some?)
    ensures r.Ok? && a.response.status == 204 ==> r.value == NoContent
    ensures r.Ok? && a.response.status != 204 ==> r.value == Data(a.response.body.value.data)
    ensures a.Reply? && !a.response.ok ==> r == Err(HttpErrorMessage(a.response))
    ensures a.Reply? && a.response.ok && a.response.status != 204 && a.response.body.None? ==>
      r == Err(a.response.parseError)
  {
    match a
    case Thrown(reason) => Err(reason)
    case Reply(resp) =>
      if !resp.ok then Err(HttpErrorMessage(resp))
      else if resp.status == 204 then Ok(NoContent)
      else if resp.body.None? then Err(resp.parseError)
      else Ok(Data(resp.body.value.data))
  }

  /** The error state a request leaves: every failure's message, except that
      errors about a practice that already exists are left to the caller. */
  function ErrorState<T>(a: Attempt<T>): (e: Option<string>)
    ensures e.Some? ==> RequestOutcome(a) == Err(e.value) && !Contains(e.value, "already exists")
    ensures RequestOutcome(a).Err? && !Contains(RequestOutcome(a).error, "already exists") ==> e.Some?
    ensures RequestOutcome(a).Ok? ==> e == None
  {
    var r := RequestOutcome(a);
    if r.Err? && !Contains(r.error, "already exists") then Some(r.error) else None
  }

  /** The `loading` and `error` state of the hook. */
  class WellnessClient {
    var loading: bool
    var error: Option<string>

    constructor ()
      ensures !loading && error == None
    {
      loading := false;
      error := None;
    }

    /** One `authenticatedRequest`: clears the error, then returns the
        outcome, recording an error message unless it is a duplicate one;
        loading is off again afterwards. */
    method Request<T>(a: Attempt<T>) returns (r: Result<Payload<T>, string>)
      modifies this
      ensures r == RequestOutcome(a)
      ensures !loading
      ensures error == ErrorState(a)
    {
      loading := true;
      error := None;
      r := RequestOutcome(a);
      if r.Err? && !Contains(r.error, "already exists") {
        error := Some(r.error);
      }
      loading := false;
    }

    method ClearError()
      modifies this
      ensures error == None && loading == old(loading)
    {
      error := None;
    }
  }

  /** A 409 whose body says the practice already exists is thrown to the
      caller but leaves the error state clear; a 500 without a body message
      reports "HTTP 500". */
  lemma DuplicateExamples()
    ensures var dup := Reply(HttpResponse(false, 409, Some(Body(Some("Practice already exists"), None)), ""));
      RequestOutcome<string>(dup) == Err("Practice already exists") && ErrorState<string>(dup) == None
    ensures var fail := Reply(HttpResponse(false, 500, Some(Body(None, None)), ""));
      RequestOutcome<string>(fail) == Err("HTTP 500") && ErrorState<string>(fail) == Some("HTTP 500")
  {
    assert OccursAt("Practice already exists", "already exists", 9);
    assert NatToString(500) == "500" by {
      assert NatToString(5) == "5";
      assert NatToString(50) == NatToString(5) + [DigitChar(0)];
    }
    assert "HTTP " + "500" == "HTTP 500";
    assert !Contains("HTTP 500", "already exists");
  }
}
