/**
 * The values of the student leave portal: the signed-in identity, the input of the
 * leave form and the leave application record that is stored in the application list.
 */
module LeaveData {

  datatype Option<T> = None | Some(value: T)

  /** A reading of the host clock (`Date.now()` or `new Date().toISOString()`), supplied by the caller. */
  type Timestamp = int

  /** The identity created by a simulated login; `userType` is the role string the login form passes. */
  datatype Identity = Identity(email: string, userType: string, loginTime: Timestamp)

  /**
   * A form date as the JavaScript `Date` constructor reads it: a point in time, or NaN when
   * the text does not parse. Every ordering comparison against NaN is false.
   */
  datatype DateInput = Parsed(time: int) | Unparseable

  /**
   * The fields of the leave form. `document` and `voice` are the names of the chosen files
   * (None when the form has no such entry; a browser reports "" when no file was chosen).
   */
  datatype LeaveForm = LeaveForm(
    startDate: DateInput,
    endDate: DateInput,
    category: string,
    reason: string,
    document: Option<string>,
    voice: Option<string>)

  /** The optional second argument of the submit handler. */
  datatype SubmitOptions = SubmitOptions(scope: Option<string>)

  const NO_OPTIONS: SubmitOptions := SubmitOptions(None)

  /**
   * One leave application. `status` is the string the page stores; the page itself only ever
   * writes the three values below, but a list restored from storage may hold any string.
   */
  datatype Application = Application(
    id: int,
    email: string,
    startDate: DateInput,
    endDate: DateInput,
    category: string,
    reason: string,
    document: Option<string>,
    voice: Option<string>,
    scope: string,
    status: string,
    submittedAt: Timestamp,
    approvedAt: Option<Timestamp>,
    rejectedAt: Option<Timestamp>,
    rejectionReason: Option<string>)

  const PENDING: string := "pending"
  const APPROVED: string := "approved"
  const REJECTED: string := "rejected"
  const DEFAULT_SCOPE: string := "College"
  const NO_REASON_TEXT: string := "No reason provided"
  const DEMO_REJECTION_REASON: string := "Demo rejection reason"

  /** JavaScript truthiness of an optional string: null, undefined and "" are falsy. */
  predicate Truthy(s: Option<string>) {
    s.Some? && s.value != ""
  }

  /** The JavaScript expression `s || fallback` on an optional string. */
  function OrElse(s: Option<string>, fallback: string): string {
    if Truthy(s) then s.value else fallback
  }

  /** The JavaScript expression `s || null` on an optional string. */
  function OrNull(s: Option<string>): Option<string> {
    if Truthy(s) then s else None
  }

  /** What a page load reads back from the stored application list: the list, or [] when absent. */
  function Restored(stored: Option<seq<Application>>): seq<Application> {
    match stored
    case Some(apps) => apps
    case None => []
  }

  /** No two applications share an id. The page does not enforce this: ids are clock readings. */
  ghost predicate UniqueIds(apps: seq<Application>) {
    forall j, k :: 0 <= j < k < |apps| ==> apps[j].id != apps[k].id
  }
}
