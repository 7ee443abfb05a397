/**
 * The goal form's validation schema (src/features/goal/validation/goalValidation.ts)
 * as one predicate per field. A date field holds when its text reads as a date;
 * dates compare by their UTC day number, and `now` is the instant, in milliseconds
 * since 1970-01-01 UTC, read once when the schema is built.
 */
module GoalValidation {
  import opened Basics
  import opened Calendar
  import opened IsoDate
  import opened EndDate

  /** The seven form fields, all strings, as the form and the create payload hold them. */
  datatype GoalForm = GoalForm(
    goalTitle: string,
    description: string,
    goalType: string,
    startDate: string,
    endDate: string,
    priority: string,
    category: string)

  datatype Field = GoalTitle | Description | GoalType | StartDate | EndDate | Priority | Category

  const MsPerDay: int := 86400000

  /** `string().min(3).max(100).required()`. */
  predicate TitleAccepted(s: string) {
    s != [] && 3 <= |s| <= 100
  }

  /** `string().min(10).max(500).required()`. */
  predicate DescriptionAccepted(s: string) {
    s != [] && 10 <= |s| <= 500
  }

  /** `string().oneOf(["daily", "weekly", "monthly"]).required()`. */
  predicate GoalTypeAccepted(s: string) {
    s != [] && (s == "daily" || s == "weekly" || s == "monthly")
  }

  /** `string().oneOf(["low", "medium", "high"]).required()`. */
  predicate PriorityAccepted(s: string) {
    s != [] && (s == "low" || s == "medium" || s == "high")
  }

  /** `string().min(2).required()`: no upper bound. */
  predicate CategoryAccepted(s: string) {
    s != [] && |s| >= 2
  }

  /** The instant of a date field's UTC midnight, when it reads as a date. */
  function Instant(s: string): Option<int> {
    match Parse(s)
    case Some(d) => Some(DayNumber(d) * MsPerDay)
    case None => None
  }

  /** `date().min(new Date()).required()`, with the schema's `new Date()` as `now`. */
  predicate StartDateAccepted(s: string, now: int) {
    Instant(s).Some? && Instant(s).value >= now
  }

  /** `date().min(ref("start_date")).required()`. */
  predicate EndDateAccepted(endDate: string, startDate: string) {
    Instant(endDate).Some? && Instant(startDate).Some? && Instant(endDate).value >= Instant(startDate).value
  }

  predicate FieldAccepted(f: GoalForm, field: Field, now: int) {
    match field
    case GoalTitle => TitleAccepted(f.goalTitle)
    case Description => DescriptionAccepted(f.description)
    case GoalType => GoalTypeAccepted(f.goalType)
    case StartDate => StartDateAccepted(f.startDate, now)
    case EndDate => EndDateAccepted(f.endDate, f.startDate)
    case Priority => PriorityAccepted(f.priority)
    case Category => CategoryAccepted(f.category)
  }

  /** The fields whose error the form would show. */
  function Errors(f: GoalForm, now: int): (r: set<Field>)
    ensures forall field :: field in r <==> !FieldAccepted(f, field, now)
  {
    set field: Field | field in {GoalTitle, Description, GoalType, StartDate, EndDate, Priority, Category}
                       && !FieldAccepted(f, field, now)
  }

  /**
   * The schema accepts a form: every field's predicate holds. Both dates of an
   * accepted form then read as dates, the end on or after the start.
   */
  predicate Accepts(f: GoalForm, now: int)
    ensures Accepts(f, now) ==> Parse(f.startDate).Some? && Parse(f.endDate).Some?
                                && DayNumber(Parse(f.startDate).value) <= DayNumber(Parse(f.endDate).value)
  {
    TitleAccepted(f.goalTitle) && DescriptionAccepted(f.description) && GoalTypeAccepted(f.goalType)
    && StartDateAccepted(f.startDate, now) && EndDateAccepted(f.endDate, f.startDate)
    && PriorityAccepted(f.priority) && CategoryAccepted(f.category)
  }

  /** The schema accepts a form exactly when no field reports an error. */
  lemma AcceptsIffNoErrors(f: GoalForm, now: int)
    ensures Accepts(f, now) <==> Errors(f, now) == {}
  {
    if !Accepts(f, now) {
      var bad :| bad in {GoalTitle, Description, GoalType, StartDate, EndDate, Priority, Category}
                 && !FieldAccepted(f, bad, now);
      assert bad in Errors(f, now);
    }
  }

  /** Length bounds of the text fields, both ends inclusive. */
  lemma TextBounds(f: GoalForm)
    ensures TitleAccepted(f.goalTitle) <==> 3 <= |f.goalTitle| <= 100
    ensures DescriptionAccepted(f.description) <==> 10 <= |f.description| <= 500
    ensures CategoryAccepted(f.category) <==> |f.category| >= 2
  {
  }

  /**
   * Today's date is rejected as a start date whenever the schema was built after
   * midnight: `new Date()` carries the time of day, the date field does not.
   */
  lemma TodayRejected(today: Date, now: int)
    requires IsValid(today) && 0 <= today.year <= 9999
    requires DayNumber(today) == now / MsPerDay && now % MsPerDay != 0
    ensures !StartDateAccepted(Format(today), now)
  {
    ParseFormat(today);
  }

  /** Tomorrow's date is accepted as a start date. */
  lemma TomorrowAccepted(tomorrow: Date, now: int)
    requires IsValid(tomorrow) && 0 <= tomorrow.year <= 9999
    requires DayNumber(tomorrow) == now / MsPerDay + 1
    ensures StartDateAccepted(Format(tomorrow), now)
  {
    ParseFormat(tomorrow);
  }

  /**
   * The end date the form fills in for a goal type the schema accepts always meets
   * the schema's end-after-start rule.
   */
  lemma DefaultEndDateAccepted(startDate: string, goalType: string)
    requires Parse(startDate).Some? && Parse(startDate).value.year <= 9998
    requires GoalTypeAccepted(goalType)
    ensures CalculateEndDate(startDate, goalType).Ok?
    ensures EndDateAccepted(CalculateEndDate(startDate, goalType).value, startDate)
  {
    DefaultEndDate(startDate, goalType);
  }
}
