/** The task service (`src/services/task-api.ts`): the query string of
    `getTasks`, the endpoints of the other calls, and how
    `authenticatedRequest` turns a response into a value or a thrown error.
    The token and the network are left out: the response is an input. */
module TaskApi {
  import opened Wrappers
  import opened Text

  // ---------------------------------------------------------------------------
  // getTasks

  datatype TaskFilters = TaskFilters(
    status: Option<seq<string>>,
    tags: Option<seq<string>>,
    search: Option<string>,
    dateFilter: Option<string>,
    startDate: Option<string>,
    endDate: Option<string>,
    noDueDate: Option<bool>)

  /** The filters `getTasks` may send, in the order it appends them. */
  datatype FilterKey = StatusKey | TagsKey | SearchKey | DateFilterKey | StartDateKey | EndDateKey | NoDueDateKey

  /** A key's position in the append order. */
  function Rank(k: FilterKey): (n: nat)
    ensures n < 7
  {
    match k
    case StatusKey => 0
    case TagsKey => 1
    case SearchKey => 2
    case DateFilterKey => 3
    case StartDateKey => 4
    case EndDateKey => 5
    case NoDueDateKey => 6
  }

  function KeyAt(n: nat): (k: FilterKey)
    requires n < 7
    ensures Rank(k) == n
  {
    [StatusKey, TagsKey, SearchKey, DateFilterKey, StartDateKey, EndDateKey, NoDueDateKey][n]
  }

  /** The name a key has in the query string. */
  function KeyName(k: FilterKey): string
  {
    match k
    case StatusKey => "status"
    case TagsKey => "tags"
    case SearchKey => "search"
    case DateFilterKey => "dateFilter"
    case StartDateKey => "startDate"
    case EndDateKey => "endDate"
    case NoDueDateKey => "noDueDate"
  }

  /** One `append(key, value)` on the `URLSearchParams`. */
  datatype Param = Param(key: FilterKey, value: string)

  /** The value a filter contributes under a key: a list that is not empty,
      joined with commas; a string that is not empty; the flag as "true"
      when it is set. */
  function ValueFor(f: TaskFilters, k: FilterKey): (v: Option<string>)
    ensures k == StatusKey ==> v == (if f.status.Some? && |f.status.value| > 0 then Some(Join(f.status.value, ",")) else None)
    ensures k == TagsKey ==> v == (if f.tags.Some? && |f.tags.value| > 0 then Some(Join(f.tags.value, ",")) else None)
    ensures k == NoDueDateKey ==> v == (if f.noDueDate == Some(true) then Some("true") else None)
    ensures k == SearchKey ==> v == (if f.search == Some("") then None else f.search)
    ensures k == DateFilterKey ==> v == (if f.dateFilter == Some("") then None else f.dateFilter)
    ensures k == StartDateKey ==> v == (if f.startDate == Some("") then None else f.startDate)
    ensures k == EndDateKey ==> v == (if f.endDate == Some("") then None else f.endDate)
  {
    match k
    case StatusKey => if f.status.Some? && |f.status.value| > 0 then Some(Join(f.status.value, ",")) else None
    case TagsKey => if f.tags.Some? && |f.tags.value| > 0 then Some(Join(f.tags.value, ",")) else None
    case SearchKey => NonEmptyText(f.search)
    case DateFilterKey => NonEmptyText(f.dateFilter)
    case StartDateKey => NonEmptyText(f.startDate)
    case EndDateKey => NonEmptyText(f.endDate)
    case NoDueDateKey => if f.noDueDate == Some(true) then Some("true") else None
  }

  /** A string filter is sent when it is truthy. */
  function NonEmptyText(s: Option<string>): (r: Option<string>)
    ensures r == (if s == Some("") then None else s)
  {
    if s.Some? && s.value != "" then s else None
  }

  /** The parameters for the keys from position `n` on, in key order. */
  function ParamsFrom(f: TaskFilters, n: nat): seq<Param>
    requires n <= 7
    decreases 7 - n
  {
    if n == 7 then []
    else
      var v := ValueFor(f, KeyAt(n));
      (if v.Some? then [Param(KeyAt(n), v.value)] else []) + ParamsFrom(f, n + 1)
  }

  /** Keys strictly increase along the parameters, so none repeats. */
  predicate InOrder(params: seq<Param>)
  {
    forall i, j :: 0 <= i < j < |params| ==> Rank(params[i].key) < Rank(params[j].key)
  }

  /** The parameters from position `n` on name only keys from there, each
      with the value the filters give it; every such key with a value
      appears; and they are in key order. */
  lemma {:induction false} ParamsFromCorrect(f: TaskFilters, n: nat)
    requires n <= 7
    ensures forall p :: p in ParamsFrom(f, n) ==> Rank(p.key) >= n && ValueFor(f, p.key) == Some(p.value)
    ensures forall k :: Rank(k) >= n && ValueFor(f, k).Some? ==> Param(k, ValueFor(f, k).value) in ParamsFrom(f, n)
    ensures InOrder(ParamsFrom(f, n))
    decreases 7 - n
  {
    if n < 7 {
      ParamsFromCorrect(f, n + 1);
      var rest := ParamsFrom(f, n + 1);
      var v := ValueFor(f, KeyAt(n));
      var head := if v.Some? then [Param(KeyAt(n), v.value)] else [];
      assert ParamsFrom(f, n) == head + rest;
      forall k | Rank(k) >= n && ValueFor(f, k).Some?
        ensures Param(k, ValueFor(f, k).value) in head + rest
      {
        if Rank(k) == n {
          assert k == KeyAt(n);
        }
      }
      assert forall j :: 0 <= j < |rest| ==> rest[j] in rest;
    }
  }

  lemma ParamsFromStep(f: TaskFilters, n: nat, params: seq<Param>, head: seq<Param>)
    requires n < 7
    requires head == if ValueFor(f, KeyAt(n)).Some? then [Param(KeyAt(n), ValueFor(f, KeyAt(n)).value)] else []
    ensures params + ParamsFrom(f, n) == (params + head) + ParamsFrom(f, n + 1)
  {
  }

  /** `getTasks`'s query: the parameters appended one filter at a time.
      Every filter with a value is sent with that value, nothing else is
      sent, and the keys come in the fixed order. */
  method TasksQuery(f: TaskFilters) returns (params: seq<Param>)
    ensures forall k :: ValueFor(f, k).Some? ==> Param(k, ValueFor(f, k).value) in params
    ensures forall p :: p in params ==> ValueFor(f, p.key) == Some(p.value)
    ensures InOrder(params)
  {
    params := [];
    var n := 0;
    while n < 7
      invariant 0 <= n <= 7
      invariant params + ParamsFrom(f, n) == ParamsFrom(f, 0)
    {
      var v := ValueFor(f, KeyAt(n));
      var head := if v.Some? then [Param(KeyAt(n), v.value)] else [];
      ParamsFromStep(f, n, params, head);
      params := params + head;
      n := n + 1;
    }
    assert params == ParamsFrom(f, 0);
    ParamsFromCorrect(f, 0);
  }

  /** The query string's text: `key=value` pairs joined by `&`; the
      percent-encoding of `URLSearchParams` is left out. */
  function QueryText(params: seq<Param>): string
  {
    if |params| == 0 then ""
    else
      var pair := KeyName(params[0].key) + "=" + params[0].value;
      if |params| == 1 then pair else pair + "&" + QueryText(params[1..])
  }

  // ---------------------------------------------------------------------------
  // The other calls.

  datatype Method = Get | Post | Put | Delete

  datatype Request = Request(verb: Method, endpoint: string)

  const TasksEndpoint := "api/tasks"
  const DefaultActivityLimit: nat := 5

  function TaskEndpoint(taskId: string): string
  {
    TasksEndpoint + "/" + taskId
  }

  /** The calls that send a task or name one by its id. */
  datatype TaskCall = ListTasks(filters: TaskFilters) | CreateTask | UpdateTask(taskId: string) | DeleteTask(taskId: string)

  /** `getTasks` reads the collection with its query, `createTask` posts
      to it, and `updateTask` and `deleteTask` address one task under it. */
  function RequestFor(call: TaskCall): (r: Request)
    ensures call.ListTasks? <==> r.verb == Get
    ensures call.CreateTask? <==> r.verb == Post
    ensures call.UpdateTask? <==> r.verb == Put
    ensures call.DeleteTask? <==> r.verb == Delete
    ensures call.ListTasks? ==> r.endpoint == TasksEndpoint + "?" + QueryText(ParamsFrom(call.filters, 0))
    ensures call.CreateTask? ==> r.endpoint == TasksEndpoint
    ensures call.UpdateTask? || call.DeleteTask? ==> r.endpoint == TaskEndpoint(call.taskId)
  {
    match call
    case ListTasks(f) => Request(Get, TasksEndpoint + "?" + QueryText(ParamsFrom(f, 0)))
    case CreateTask => Request(Post, TasksEndpoint)
    case UpdateTask(id) => Request(Put, TaskEndpoint(id))
    case DeleteTask(id) => Request(Delete, TaskEndpoint(id))
  }

  /** Different tasks are addressed at different endpoints, and none of
      them is the collection itself. */
  lemma TaskEndpointInjective(a: string, b: string)
    ensures TaskEndpoint(a) == TaskEndpoint(b) ==> a == b
    ensures TaskEndpoint(a) != TasksEndpoint
  {
    var ea, eb := TaskEndpoint(a), TaskEndpoint(b);
    assert ea[10..] == a && eb[10..] == b;
    assert |ea| > |TasksEndpoint|;
  }

  /** `getRecentActivity`: the limit defaults to five. */
  function RecentActivityRequest(limit: Option<nat>): (r: Request)
    ensures r.verb == Get
    ensures r.endpoint == "api/tasks/activity?limit=" + NatToString(limit.GetOr(DefaultActivityLimit))
  {
    Request(Get, "api/tasks/activity?limit=" + NatToString(limit.GetOr(DefaultActivityLimit)))
  }

  /** The asked limit is what the endpoint carries. */
  lemma RecentActivityLimit(limit: Option<nat>)
    ensures var e := RecentActivityRequest(limit).endpoint;
      |e| > 25 && DecimalValue(e[25..]) == limit.GetOr(5) && AllDigits(e[25..])
  {
    var e := RecentActivityRequest(limit).endpoint;
    assert e[25..] == NatToString(limit.GetOr(DefaultActivityLimit));
    NatToStringRoundTrip(limit.GetOr(DefaultActivityLimit));
  }

  // ---------------------------------------------------------------------------
  // authenticatedRequest

  /** The JSON of an error response: its `message` and `error` fields. */
  datatype ErrorBody = ErrorBody(message: Option<string>, error: Option<string>)

  /** A response: `errorJson` is the error body when it reads as JSON,
      `json` the success body when it does. */
  datatype Response<T> = Response(ok: bool, status: nat, statusText: string, errorJson: Option<ErrorBody>, json: Option<T>)

  /** What the call resolves to, or what it throws. */
  datatype Outcome<T> =
    | NoContent
    | Json(value: T)
    | ApiError(message: string, status: nat, errorCode: Option<string>, details: ErrorBody)
    | BadJson

  /** An unreadable error body is taken as `{ message: statusText }`. */
  function ErrorData<T>(r: Response<T>): ErrorBody
  {
    r.errorJson.GetOr(ErrorBody(Some(r.statusText), None))
  }

  function OutcomeOf<T>(r: Response<T>): (o: Outcome<T>)
    ensures !r.ok ==> o.ApiError? && o.status == r.status && o.details == ErrorData(r) && o.errorCode == ErrorData(r).error
    ensures !r.ok ==>
      var m := ErrorData(r).message;
      o.message == if m.Some? && m.value != "" then m.value else "API request failed: " + r.statusText
    ensures r.ok && r.status == 204 ==> o == NoContent
    ensures r.ok && r.status != 204 ==> (r.json.Some? ==> o == Json(r.json.value)) && (r.json.None? ==> o == BadJson)
  {
    if !r.ok then
      var data := ErrorData(r);
      var m := if data.message.Some? && data.message.value != "" then data.message.value else "API request failed: " + r.statusText;
      ApiError(m, r.status, data.error, data)
    else if r.status == 204 then NoContent
    else if r.json.Some? then Json(r.json.value)
    else BadJson
  }

  /** A failed response whose body cannot be read carries its status text
      as the message when there is one, and no error code. */
  lemma UnreadableErrorBody<T>(r: Response<T>)
    requires !r.ok && r.errorJson.None?
    ensures OutcomeOf(r).errorCode == None
    ensures r.statusText != "" ==> OutcomeOf(r).message == r.statusText
    ensures r.statusText == "" ==> OutcomeOf(r).message == "API request failed: "
  {
  }
}
