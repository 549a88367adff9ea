/**
 * The application list as a value: the first-match search by id, the approval and
 * rejection updates, the submission of a new application, and what repeated decisions
 * on one id do to the list.
 */
module Applications {
  import opened LeaveData

  /** The index of the first application with id `id`: the element `Array.prototype.find` returns. */
  function FirstIndexOf(apps: seq<Application>, id: int): (r: Option<nat>)
    ensures r.Some? ==> r.value < |apps| && apps[r.value].id == id
    ensures r.Some? ==> forall j :: 0 <= j < r.value ==> apps[j].id != id
    ensures r.None? ==> forall j :: 0 <= j < |apps| ==> apps[j].id != id
    decreases |apps|
  {
    if |apps| == 0 then None
    else if apps[0].id == id then Some(0)
    else match FirstIndexOf(apps[1..], id)
      case None => None
      case Some(k) => Some(k + 1)
  }

  /** The linear search behind `find`, as a loop over the list. */
  method FindFirst(apps: seq<Application>, id: int) returns (found: Option<nat>)
    ensures found == FirstIndexOf(apps, id)
  {
    var i := 0;
    while i < |apps|
      invariant 0 <= i <= |apps|
      invariant forall j :: 0 <= j < i ==> apps[j].id != id
    {
      if apps[i].id == id {
        return Some(i);
      }
      i := i + 1;
    }
    return None;
  }

  /** `b` is `a` with at most the element at index `i` replaced. */
  ghost predicate SameExceptAt(a: seq<Application>, b: seq<Application>, i: int) {
    |b| == |a| && forall j :: 0 <= j < |a| && j != i ==> b[j] == a[j]
  }

  /** The list after `simulateApproval(id)` at time `now`. */
  function Approve(apps: seq<Application>, id: int, now: Timestamp): (r: seq<Application>)
    ensures FirstIndexOf(apps, id).None? ==> r == apps
    ensures FirstIndexOf(apps, id).Some? ==>
      var i := FirstIndexOf(apps, id).value;
      && SameExceptAt(apps, r, i)
      && r[i].status == APPROVED
      && r[i].approvedAt == Some(now)
      && r[i] == apps[i].(status := r[i].status, approvedAt := r[i].approvedAt)
  {
    match FirstIndexOf(apps, id)
    case None => apps
    case Some(i) => apps[i := apps[i].(status := APPROVED, approvedAt := Some(now))]
  }

  /** The list after `simulateRejection(id, reason)` at time `now`. */
  function Reject(apps: seq<Application>, id: int, now: Timestamp, reason: Option<string>): (r: seq<Application>)
    ensures FirstIndexOf(apps, id).None? ==> r == apps
    ensures FirstIndexOf(apps, id).Some? ==>
      var i := FirstIndexOf(apps, id).value;
      && SameExceptAt(apps, r, i)
      && r[i].status == REJECTED
      && r[i].rejectedAt == Some(now)
      && r[i].rejectionReason == reason
      && r[i] == apps[i].(status := r[i].status, rejectedAt := r[i].rejectedAt,
                          rejectionReason := r[i].rejectionReason)
  {
    match FirstIndexOf(apps, id)
    case None => apps
    case Some(i) => apps[i := apps[i].(status := REJECTED, rejectedAt := Some(now), rejectionReason := reason)]
  }

  /** Which alert a submission raises, or the application it creates. */
  datatype SubmitOutcome = Submitted(app: Application) | NotLoggedIn | EndBeforeStart

  /**
   * The date check of the submit handler: `new Date(start) > new Date(end)`. An unparseable
   * date compares as NaN, so the check is false and such a submission is accepted.
   */
  predicate StartsAfterEnd(start: DateInput, end: DateInput) {
    start.Parsed? && end.Parsed? && start.time > end.time
  }

  /** The record the submit handler builds from the form before it checks the dates. */
  function NewApplication(id: int, email: string, form: LeaveForm, options: SubmitOptions,
                          submittedAt: Timestamp): Application
  {
    Application(id, email, form.startDate, form.endDate, form.category, form.reason,
                OrNull(form.document), OrNull(form.voice), OrElse(options.scope, DEFAULT_SCOPE),
                PENDING, submittedAt, None, None, None)
  }

  /** What `submitLeave` decides for the signed-in `user`, with `id` and `submittedAt` read from the clock. */
  function Submit(user: Option<Identity>, form: LeaveForm, options: SubmitOptions, id: int,
                  submittedAt: Timestamp): (r: SubmitOutcome)
    ensures r.NotLoggedIn? <==> user.None?
    ensures r.EndBeforeStart? <==> user.Some? && StartsAfterEnd(form.startDate, form.endDate)
    ensures r.Submitted? ==>
      && r.app.status == PENDING
      && r.app.id == id
      && r.app.email == user.value.email
      && r.app.submittedAt == submittedAt
      && r.app.startDate == form.startDate && r.app.endDate == form.endDate
      && !StartsAfterEnd(r.app.startDate, r.app.endDate)
      && r.app.category == form.category && r.app.reason == form.reason
      && r.app.approvedAt.None? && r.app.rejectedAt.None? && r.app.rejectionReason.None?
      && (Truthy(options.scope) ==> r.app.scope == options.scope.value)
      && (!Truthy(options.scope) ==> r.app.scope == DEFAULT_SCOPE)
      && (Truthy(form.document) ==> r.app.document == form.document)
      && (!Truthy(form.document) ==> r.app.document.None?)
      && (Truthy(form.voice) ==> r.app.voice == form.voice)
      && (!Truthy(form.voice) ==> r.app.voice.None?)
  {
    if user.None? then NotLoggedIn
    else
      var app := NewApplication(id, user.value.email, form, options, submittedAt);
      if StartsAfterEnd(app.startDate, app.endDate) then EndBeforeStart
      else Submitted(app)
  }

  /** The list after a submission with the given outcome. */
  function AfterSubmit(apps: seq<Application>, outcome: SubmitOutcome): seq<Application> {
    if outcome.Submitted? then apps + [outcome.app] else apps
  }

  /** A submission changes the list only by one pending record at the end, and only when accepted. */
  lemma SubmitAppendsOnlyWhenAccepted(apps: seq<Application>, user: Option<Identity>, form: LeaveForm,
                                      options: SubmitOptions, id: int, submittedAt: Timestamp)
    ensures var r := AfterSubmit(apps, Submit(user, form, options, id, submittedAt));
      && (user.None? ==> r == apps)
      && (StartsAfterEnd(form.startDate, form.endDate) ==> r == apps)
      && (user.Some? && !StartsAfterEnd(form.startDate, form.endDate) ==>
            |r| == |apps| + 1 && r[..|apps|] == apps && r[|apps|].status == PENDING)
  {
  }

  /**
   * Ids drawn from a clock that moves forward stay unique: a new id above every stored id
   * keeps the list free of duplicates.
   */
  lemma SubmitKeepsIdsUnique(apps: seq<Application>, outcome: SubmitOutcome)
    requires UniqueIds(apps)
    requires outcome.Submitted? ==> forall j :: 0 <= j < |apps| ==> apps[j].id < outcome.app.id
    ensures UniqueIds(AfterSubmit(apps, outcome))
  {
  }

  /** The first match depends on the ids alone. */
  lemma FirstIndexOfSameIds(a: seq<Application>, b: seq<Application>, id: int)
    requires |a| == |b|
    requires forall j :: 0 <= j < |a| ==> a[j].id == b[j].id
    ensures FirstIndexOf(a, id) == FirstIndexOf(b, id)
  {
  }

  /** Approving twice at the same time is approving once. */
  lemma ApproveIdempotent(apps: seq<Application>, id: int, now: Timestamp)
    ensures Approve(Approve(apps, id, now), id, now) == Approve(apps, id, now)
  {
  }

  /**
   * With unique ids, the id of the last application finds the last application, so the demo
   * helpers act on it.
   */
  lemma UniqueIdsFindLast(apps: seq<Application>)
    requires UniqueIds(apps) && apps != []
    ensures FirstIndexOf(apps, apps[|apps| - 1].id) == Some(|apps| - 1)
  {
  }

  /**
   * Without unique ids the search by the last id stops at an earlier application, and
   * approving "the last application" approves that one and leaves the last one as it was.
   */
  lemma DuplicateIdShadowsLast(apps: seq<Application>, j: nat, now: Timestamp)
    requires j < |apps| - 1 && apps[j].id == apps[|apps| - 1].id
    ensures FirstIndexOf(apps, apps[|apps| - 1].id) != Some(|apps| - 1)
    ensures Approve(apps, apps[|apps| - 1].id, now)[|apps| - 1] == apps[|apps| - 1]
  {
  }

  /** One approval or rejection call, as the demo helpers and the console issue them. */
  datatype Decision = Approval(at: Timestamp) | Rejection(at: Timestamp, reason: Option<string>)

  function Decide(apps: seq<Application>, id: int, d: Decision): seq<Application> {
    match d
    case Approval(at) => Approve(apps, id, at)
    case Rejection(at, reason) => Reject(apps, id, at, reason)
  }

  /** The list after the calls `ds`, in order, all naming `id`. */
  function DecideAll(apps: seq<Application>, id: int, ds: seq<Decision>): seq<Application>
    decreases |ds|
  {
    if ds == [] then apps else DecideAll(Decide(apps, id, ds[0]), id, ds[1..])
  }

  /** The status a decision writes. */
  function StatusOf(d: Decision): string {
    if d.Approval? then APPROVED else REJECTED
  }

  /** A sequence of decisions keeps the length and every id, so the first match stays where it was. */
  lemma {:induction false} DecideAllKeepsIds(apps: seq<Application>, id: int, ds: seq<Decision>)
    ensures |DecideAll(apps, id, ds)| == |apps|
    ensures forall j :: 0 <= j < |apps| ==> DecideAll(apps, id, ds)[j].id == apps[j].id
    ensures FirstIndexOf(DecideAll(apps, id, ds), id) == FirstIndexOf(apps, id)
    decreases |ds|
  {
    if ds != [] {
      var next := Decide(apps, id, ds[0]);
      DecideAllKeepsIds(next, id, ds[1..]);
      FirstIndexOfSameIds(apps, next, id);
      FirstIndexOfSameIds(next, DecideAll(next, id, ds[1..]), id);
    }
  }

  /**
   * Nothing guards a decided application: after any non-empty sequence of calls on its id,
   * its status is the one the last call wrote, whatever came before.
   */
  lemma {:induction false} LastDecisionWins(apps: seq<Application>, id: int, ds: seq<Decision>, i: nat)
    requires FirstIndexOf(apps, id) == Some(i)
    requires ds != []
    ensures i < |DecideAll(apps, id, ds)|
    ensures DecideAll(apps, id, ds)[i].status == StatusOf(ds[|ds| - 1])
    decreases |ds|
  {
    var next := Decide(apps, id, ds[0]);
    FirstIndexOfSameIds(apps, next, id);
    DecideAllKeepsIds(next, id, ds[1..]);
    if |ds| > 1 {
      LastDecisionWins(next, id, ds[1..], i);
      assert ds[1..][|ds[1..]| - 1] == ds[|ds| - 1];
    }
  }

  /** Decisions on `id` leave every application other than the first match untouched. */
  lemma {:induction false} DecisionsTouchOnlyFirstMatch(apps: seq<Application>, id: int, ds: seq<Decision>, j: nat)
    requires j < |apps| && FirstIndexOf(apps, id) != Some(j)
    ensures |DecideAll(apps, id, ds)| == |apps|
    ensures DecideAll(apps, id, ds)[j] == apps[j]
    decreases |ds|
  {
    DecideAllKeepsIds(apps, id, ds);
    if ds != [] {
      var next := Decide(apps, id, ds[0]);
      FirstIndexOfSameIds(apps, next, id);
      DecisionsTouchOnlyFirstMatch(next, id, ds[1..], j);
    }
  }

  /**
   * The approval and rejection times are never cleared: the opposite decision writes only its
   * own fields, so an application that was approved and then rejected keeps its approval time.
   */
  lemma {:induction false} DecisionTimesNeverCleared(apps: seq<Application>, id: int, ds: seq<Decision>, j: nat)
    requires j < |apps|
    ensures |DecideAll(apps, id, ds)| == |apps|
    ensures && (apps[j].approvedAt.Some? ==> DecideAll(apps, id, ds)[j].approvedAt.Some?)
      && (apps[j].rejectedAt.Some? ==> DecideAll(apps, id, ds)[j].rejectedAt.Some?)
    decreases |ds|
  {
    DecideAllKeepsIds(apps, id, ds);
    if ds != [] {
      var next := Decide(apps, id, ds[0]);
      DecisionTimesNeverCleared(next, id, ds[1..], j);
    }
  }
}
