/**
 * The goal-creation form of src/features/goal/Add-goal.tsx: its field values, the
 * error line and the submitting flag, and the handlers that change them. The token is
 * read from a snapshot of localStorage; the result of `goalApi.createGoal` is a
 * parameter; the payload the form would send is returned.
 */
module AddGoalForm {
  import opened Basics
  import opened Session
  import opened Http
  import opened EndDate
  import opened GoalValidation

  const LoginRequired := "You must be logged in to create a goal. Please login first."
  const CreateFailed := "Failed to create goal. Please try again."

  /** What `goalApi.createGoal` does with the payload: resolve, or throw a value. */
  datatype CreateOutcome = Created | Rejected(failure: Failure)

  /** The form's initial values: empty fields, both dates set to today. */
  function InitialValues(today: string): (f: GoalForm)
    ensures f.startDate == today && f.endDate == today
    ensures f.goalTitle == f.description == f.goalType == f.priority == f.category == ""
  {
    GoalForm("", "", "", today, today, "", "")
  }

  /**
   * The message shown when creating a goal throws: for a value with a `response` key,
   * the server's message, else the error's own message, else the fixed fallback; for
   * any other value, the fallback.
   */
  function SubmitErrorMessage(f: Failure): (m: string)
    ensures m != ""
    ensures !HasResponseKey(f) ==> m == CreateFailed
    ensures HasResponseKey(f) && ServerMessage(f) != "" ==> m == ServerMessage(f)
    ensures HasResponseKey(f) && ServerMessage(f) == "" && TransportMessage(f) != ""
            ==> m == TransportMessage(f)
    ensures HasResponseKey(f) && ServerMessage(f) == "" && TransportMessage(f) == ""
            ==> m == CreateFailed
  {
    match f
    case Nullish(_) => CreateFailed
    case NonObject => CreateFailed
    case ErrorObject(slot, message) =>
      if slot.NoResponseKey? then CreateFailed
      else if slot.Response? && slot.dataMessage != "" then slot.dataMessage
      else if message != "" then message
      else CreateFailed
  }

  /** The end date after a change of start date or goal type; a thrown RangeError leaves it. */
  function EndDateAfter(current: string, startDate: string, goalType: string): (r: string)
    ensures CalculateEndDate(startDate, goalType).Ok? ==> r == CalculateEndDate(startDate, goalType).value
    ensures CalculateEndDate(startDate, goalType).Err? ==> r == current
  {
    match CalculateEndDate(startDate, goalType)
    case Ok(e) => e
    case Err(_) => current
  }

  class AddGoal {
    var values: GoalForm
    var initialValues: GoalForm
    var error: string
    var submitting: bool

    constructor (today: string)
      ensures values == initialValues == InitialValues(today)
      ensures error == "" && !submitting
    {
      values := InitialValues(today);
      initialValues := InitialValues(today);
      error := "";
      submitting := false;
    }

    /**
     * `handleGoalTypeChange`: store the new type, then recompute the end date from the
     * current start date. For an unreadable start date the computation throws after the
     * type was stored, so the end date stays.
     */
    method HandleGoalTypeChange(goalType: string)
      modifies this`values
      ensures values == old(values).(goalType := goalType,
                                     endDate := EndDateAfter(old(values.endDate), old(values.startDate), goalType))
    {
      values := values.(goalType := goalType);
      var computed := CalculateEndDate(values.startDate, goalType);
      if computed.Ok? {
        values := values.(endDate := computed.value);
      }
    }

    /**
     * `handleStartDateChange`: store the new start date, and recompute the end date only
     * when a goal type is selected.
     */
    method HandleStartDateChange(startDate: string)
      modifies this`values
      ensures old(values.goalType) == "" ==> values == old(values).(startDate := startDate)
      ensures old(values.goalType) != "" ==>
                values == old(values).(startDate := startDate,
                                       endDate := EndDateAfter(old(values.endDate), startDate, old(values.goalType)))
    {
      values := values.(startDate := startDate);
      if values.goalType != "" {
        var computed := CalculateEndDate(startDate, values.goalType);
        if computed.Ok? {
          values := values.(endDate := computed.value);
        }
      }
    }

    /**
     * Formik's submit: validate with the schema built at instant `schemaNow`, and only
     * for a valid form run `onSubmit`. Without a truthy `access_token` it stops with the
     * login message and sends nothing. Otherwise it sends the seven fields unchanged;
     * success resets the form, failure shows the chosen message and keeps the values.
     */
    method HandleSubmit(schemaNow: int, storage: map<string, string>, outcome: CreateOutcome)
      returns (sent: Option<GoalForm>)
      modifies this`values, this`error, this`submitting
      ensures !submitting
      ensures !Accepts(old(values), schemaNow) ==>
                sent == None && values == old(values) && error == old(error)
      ensures Accepts(old(values), schemaNow) && !HasValue(storage, AccessTokenKey) ==>
                sent == None && values == old(values) && error == LoginRequired
      ensures Accepts(old(values), schemaNow) && HasValue(storage, AccessTokenKey) ==>
                sent == Some(old(values))
                && (outcome.Created? ==> values == initialValues && error == "")
                && (outcome.Rejected? ==> values == old(values) && error == SubmitErrorMessage(outcome.failure))
    {
      submitting := true;
      if !Accepts(values, schemaNow) {
        submitting := false;
        return None;
      }
      error := "";
      if !HasValue(storage, AccessTokenKey) {
        error := LoginRequired;
        submitting := false;
        return None;
      }
      var payload := GoalForm(values.goalTitle, values.description, values.goalType,
                              values.startDate, values.endDate, values.priority, values.category);
      sent := Some(payload);
      match outcome {
        case Created =>
          values := initialValues;
        case Rejected(failure) =>
          error := SubmitErrorMessage(failure);
      }
      submitting := false;
    }
  }
}
