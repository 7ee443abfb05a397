/**
 * The goal list of src/features/goal/GoalsList.tsx: the component's state, the request
 * that `loadGoals` builds from it, how the reply is read back, the handlers of the
 * pagination and filter controls, and what the table body shows. The reply of
 * `goalApi.getGoals` is a parameter.
 */
module GoalsList {
  import opened Basics
  import opened Session
  import opened Http
  import GoalValidation

  datatype Goal = Goal(
    id: int,
    goalTitle: string,
    description: string,
    goalType: string,
    priority: string,
    category: string,
    startDate: string,
    endDate: string,
    isCompleted: bool,
    createdAt: string,
    updatedAt: string)

  /** A query parameter value: `string | number | boolean`. */
  datatype Param = Number(n: int) | Text(s: string) | Flag(b: bool)

  /** The shapes of `response.data` that `loadGoals` tells apart. */
  datatype ResponseBody =
    | GoalsField(goals: seq<Goal>, total: Option<int>)  // an object whose `goals` is an array
    | GoalArray(items: seq<Goal>)                       // a bare array
    | OtherBody                                         // any other non-null value
    | NullBody                                          // null: reading `.goals` throws a TypeError

  datatype Reply = Responded(body: ResponseBody) | Rejected(failure: Failure)

  const LoginRequired := "You must be logged in to view goals. Please login first."
  const NoGoalsFound := "No goals found. Create your first goal!"
  const Unauthorized := "Unauthorized. Please login again."
  const LoadFailed := "Failed to load goals. Please try again."

  /** `getPriorityColor`: total, and "default" exactly off the schema's three priorities. */
  function PriorityColor(priority: string): (c: string)
    ensures priority == "high" ==> c == "error"
    ensures priority == "medium" ==> c == "warning"
    ensures priority == "low" ==> c == "success"
    ensures c == "default" <==> !GoalValidation.PriorityAccepted(priority)
  {
    match priority
    case "high" => "error"
    case "medium" => "warning"
    case "low" => "success"
    case _ => "default"
  }

  /** `getGoalTypeColor`: total, and "default" exactly off the schema's three goal types. */
  function GoalTypeColor(goalType: string): (c: string)
    ensures goalType == "daily" ==> c == "primary"
    ensures goalType == "weekly" ==> c == "secondary"
    ensures goalType == "monthly" ==> c == "info"
    ensures c == "default" <==> !GoalValidation.GoalTypeAccepted(goalType)
  {
    match goalType
    case "daily" => "primary"
    case "weekly" => "secondary"
    case "monthly" => "info"
    case _ => "default"
  }

  /** What a request's parameters must be for a given UI state. */
  ghost predicate DescribesQuery(params: map<string, Param>, page: nat, rowsPerPage: nat,
                                 search: string, priority: string, goalType: string, status: string)
  {
    && params.Keys == {"page", "per_page"}
                      + (if search != "" then {"search"} else {})
                      + (if priority != "" then {"priority"} else {})
                      + (if goalType != "" then {"goal_type"} else {})
                      + (if status != "" then {"status"} else {})
    && params["page"] == Number(page + 1)
    && params["per_page"] == Number(rowsPerPage)
    && (search != "" ==> params["search"] == Text(search))
    && (priority != "" ==> params["priority"] == Text(priority))
    && (goalType != "" ==> params["goal_type"] == Text(goalType))
    && (status != "" ==> params["status"] == Flag(status == "completed"))
  }

  /**
   * The `params` object of `loadGoals`: the 0-based page becomes 1-based, and each filter
   * is added only when it is set; the status filter becomes true exactly for "completed".
   */
  method BuildParams(page: nat, rowsPerPage: nat, search: string, priority: string,
                     goalType: string, status: string)
    returns (params: map<string, Param>)
    ensures DescribesQuery(params, page, rowsPerPage, search, priority, goalType, status)
  {
    params := map["page" := Number(page + 1), "per_page" := Number(rowsPerPage)];
    if search != "" {
      params := params["search" := Text(search)];
    }
    if priority != "" {
      params := params["priority" := Text(priority)];
    }
    if goalType != "" {
      params := params["goal_type" := Text(goalType)];
    }
    if status != "" {
      params := params["status" := Flag(status == "completed")];
    }
  }

  /**
   * The goals and total count read from a response body; None when reading it throws.
   * An object's own `total` is used when it is truthy, its list's length otherwise.
   */
  function Normalised(body: ResponseBody): (r: Option<(seq<Goal>, int)>)
    ensures r.None? <==> body.NullBody?
    ensures body.GoalsField? ==> r.value.0 == body.goals
    ensures body.GoalArray? ==> r == Some((body.items, |body.items|))
    ensures body.OtherBody? ==> r == Some(([], 0))
    ensures body.GoalsField? && (body.total.None? || body.total.value == 0) ==> r.value.1 == |body.goals|
    ensures body.GoalsField? && body.total.Some? && body.total.value != 0 ==> r.value.1 == body.total.value
  {
    match body
    case GoalsField(goals, total) =>
      Some((goals, if total.Some? && total.value != 0 then total.value else |goals|))
    case GoalArray(items) => Some((items, |items|))
    case OtherBody => Some(([], 0))
    case NullBody => None
  }

  /** The list data that `loadGoals` leaves behind. */
  datatype Loaded = Loaded(goals: seq<Goal>, totalCount: int, error: string)

  /**
   * How a call that got through the token check settles. 404 empties the list, 401
   * keeps it and says so, and any other failure keeps it and shows the server's
   * message or the generic one.
   */
  function Settle(before: Loaded, reply: Reply): (r: Loaded)
    ensures r.error == "" <==> reply.Responded? && !reply.body.NullBody?
    ensures reply.Responded? && Normalised(reply.body).Some?
            ==> r == Loaded(Normalised(reply.body).value.0, Normalised(reply.body).value.1, "")
    ensures reply.Responded? && reply.body.NullBody? ==> r == before.(error := LoadFailed)
    ensures reply.Rejected? && !HasResponseKey(reply.failure) ==> r == before.(error := LoadFailed)
    ensures reply.Rejected? && Status(reply.failure) == Some(404)
            ==> r == Loaded([], 0, NoGoalsFound)
    ensures reply.Rejected? && Status(reply.failure) == Some(401)
            ==> r == before.(error := Unauthorized)
    ensures reply.Rejected? && Status(reply.failure) != Some(404) && Status(reply.failure) != Some(401)
            ==> r.goals == before.goals && r.totalCount == before.totalCount
                && r.error == (if ServerMessage(reply.failure) != "" then ServerMessage(reply.failure)
                               else LoadFailed)
  {
    match reply
    case Responded(body) =>
      (match Normalised(body)
       case Some((goals, total)) => Loaded(goals, total, "")
       case None => before.(error := LoadFailed))
    case Rejected(failure) =>
      if !HasResponseKey(failure) then before.(error := LoadFailed)
      else if Status(failure) == Some(404) then Loaded([], 0, NoGoalsFound)
      else if Status(failure) == Some(401) then before.(error := Unauthorized)
      else if ServerMessage(failure) != "" then before.(error := ServerMessage(failure))
      else before.(error := LoadFailed)
  }

  /** `goals.slice(page * rows, page * rows + rows)`: a contiguous run of at most `rows` goals. */
  function PageSlice(goals: seq<Goal>, page: nat, rows: nat): (r: seq<Goal>)
    ensures |r| <= rows
    ensures forall i :: 0 <= i < |r| ==> page * rows + i < |goals| && r[i] == goals[page * rows + i]
    ensures page * rows < |goals| ==> |r| == if |goals| - page * rows < rows then |goals| - page * rows else rows
  {
    var start := page * rows;
    var stop := start + rows;
    if start >= |goals| then []
    else if stop >= |goals| then goals[start..]
    else goals[start..stop]
  }

  /**
   * The server already returns one page of goals for the requested page, and the table
   * slices that page again by the same page index: on any page after the first, a reply
   * of at most one page of goals shows no rows.
   */
  lemma LaterPagesOfOnePageReplyAreEmpty(goals: seq<Goal>, page: nat, rows: nat)
    requires page >= 1 && |goals| <= rows
    ensures PageSlice(goals, page, rows) == []
  {
    assert page * rows >= rows;
  }

  /** The four ways the table body renders. */
  datatype TableBody = LoadingRow | ErrorRow(message: string) | EmptyRow | Rows(goals: seq<Goal>)

  class GoalsListState {
    var goals: seq<Goal>
    var loading: bool
    var error: string
    var page: nat
    var rowsPerPage: nat
    var totalCount: int
    var searchTerm: string
    var priorityFilter: string
    var goalTypeFilter: string
    var statusFilter: string

    /** The state before the first load: loading, first page, ten rows, no filters. */
    constructor ()
      ensures goals == [] && loading && error == "" && page == 0 && rowsPerPage == 10 && totalCount == 0
      ensures searchTerm == priorityFilter == goalTypeFilter == statusFilter == ""
    {
      goals := [];
      loading := true;
      error := "";
      page := 0;
      rowsPerPage := 10;
      totalCount := 0;
      searchTerm := "";
      priorityFilter := "";
      goalTypeFilter := "";
      statusFilter := "";
    }

    /**
     * The table body: the loading row first, then the error, then the empty-list row,
     * and otherwise the current page sliced out of the list.
     */
    function Body(): (b: TableBody)
      reads this
      ensures loading ==> b == LoadingRow
      ensures !loading && error != "" ==> b == ErrorRow(error)
      ensures !loading && error == "" && goals == [] ==> b == EmptyRow
      ensures !loading && error == "" && goals != [] ==> b == Rows(PageSlice(goals, page, rowsPerPage))
      ensures b.Rows? ==> |b.goals| <= rowsPerPage
    {
      if loading then LoadingRow
      else if error != "" then ErrorRow(error)
      else if goals == [] then EmptyRow
      else Rows(PageSlice(goals, page, rowsPerPage))
    }

    /**
     * `loadGoals`: with no truthy `access_token` it sets the login message and sends
     * nothing; otherwise it sends the parameters of the current state and settles on
     * the reply. Either way it ends with `loading` false; page and filters stay.
     */
    method LoadGoals(storage: map<string, string>, reply: Reply)
      returns (request: Option<map<string, Param>>)
      modifies this`loading, this`error, this`goals, this`totalCount
      ensures !loading
      ensures !HasValue(storage, AccessTokenKey) ==>
                request == None && error == LoginRequired
                && goals == old(goals) && totalCount == old(totalCount)
      ensures HasValue(storage, AccessTokenKey) ==>
                request.Some?
                && DescribesQuery(request.value, page, rowsPerPage, searchTerm, priorityFilter,
                                  goalTypeFilter, statusFilter)
                && Loaded(goals, totalCount, error) == Settle(old(Loaded(goals, totalCount, error)), reply)
    {
      loading := true;
      error := "";
      if !HasValue(storage, AccessTokenKey) {
        error := LoginRequired;
        loading := false;
        return None;
      }
      var params := BuildParams(page, rowsPerPage, searchTerm, priorityFilter, goalTypeFilter, statusFilter);
      request := Some(params);
      match reply {
        case Responded(body) => ReadBody(body);
        case Rejected(failure) => ReportFailure(failure);
      }
      loading := false;
    }

    /** The `try` block after the call returned: store what the body holds. */
    method ReadBody(body: ResponseBody)
      requires error == ""
      modifies this`error, this`goals, this`totalCount
      ensures Loaded(goals, totalCount, error) == Settle(old(Loaded(goals, totalCount, error)), Responded(body))
    {
      var read := Normalised(body);
      if read.Some? {
        goals := read.value.0;
        totalCount := read.value.1;
      } else {
        error := LoadFailed;
      }
    }

    /** The `catch` block: choose the message, and empty the list on 404. */
    method ReportFailure(failure: Failure)
      modifies this`error, this`goals, this`totalCount
      ensures Loaded(goals, totalCount, error) == Settle(old(Loaded(goals, totalCount, error)), Rejected(failure))
    {
      if !HasResponseKey(failure) {
        error := LoadFailed;
      } else if Status(failure) == Some(404) {
        goals := [];
        totalCount := 0;
        error := NoGoalsFound;
      } else if Status(failure) == Some(401) {
        error := Unauthorized;
      } else if ServerMessage(failure) != "" {
        error := ServerMessage(failure);
      } else {
        error := LoadFailed;
      }
    }

    /** `handleChangePage`. */
    method ChangePage(newPage: nat)
      modifies this`page
      ensures page == newPage
    {
      page := newPage;
    }

    /** `handleChangeRowsPerPage`: a new page size starts again at the first page. */
    method ChangeRowsPerPage(rows: nat)
      modifies this`rowsPerPage, this`page
      ensures rowsPerPage == rows && page == 0
    {
      rowsPerPage := rows;
      page := 0;
    }

    /** `handleSearchChange`: a new search term starts again at the first page. */
    method ChangeSearch(term: string)
      modifies this`searchTerm, this`page
      ensures searchTerm == term && page == 0
    {
      searchTerm := term;
      page := 0;
    }

    /** The priority select: the page stays where it was. */
    method ChangePriorityFilter(value: string)
      modifies this`priorityFilter
      ensures priorityFilter == value
    {
      priorityFilter := value;
    }

    /** The goal type select: the page stays where it was. */
    method ChangeGoalTypeFilter(value: string)
      modifies this`goalTypeFilter
      ensures goalTypeFilter == value
    {
      goalTypeFilter := value;
    }

    /** The status select: the page stays where it was. */
    method ChangeStatusFilter(value: string)
      modifies this`statusFilter
      ensures statusFilter == value
    {
      statusFilter := value;
    }

    /** `clearFilters`: all four filters empty, first page. */
    method ClearFilters()
      modifies this`searchTerm, this`priorityFilter, this`goalTypeFilter, this`statusFilter, this`page
      ensures searchTerm == priorityFilter == goalTypeFilter == statusFilter == "" && page == 0
    {
      searchTerm := "";
      priorityFilter := "";
      goalTypeFilter := "";
      statusFilter := "";
      page := 0;
    }
  }
}
