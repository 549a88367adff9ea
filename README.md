# Student leave portal: a Dafny model of its page state

The portal is a browser-only demo of a student leave-request workflow. A user signs in with a
simulated login (any email containing `@`). The user then submits leave applications through a
form. Each application carries a status, `pending`, `approved` or `rejected`; console helpers
approve or reject applications. The page keeps two pieces of state, the signed-in user and
the ordered list of applications, and mirrors both in the browser's local storage.

This project models that state and the handlers that change it (`app.js`):

- `leave_data.dfy` (module `LeaveData`): the identity, the form input, the application record,
  the status strings and the JavaScript `||` fallbacks used on optional strings.
- `applications.dfy` (module `Applications`): the list as a value. It holds the first-match
  search by id (`FirstIndexOf`, and the loop `FindFirst` proved against it), approval and
  rejection, submission, and sequences of approvals and rejections on one id.
- `status_view.dfy` (module `StatusView`): which status row is shown for an application. Also
  the rejection-reason fallback, and what the status panel shows for a user and a list.
- `tracker.dfy` (module `Tracker`): the class `LeaveTracker`. Its fields are `currentUser` and
  `leaveApplications`, and two ghost fields hold their stored copies. Its methods are the page
  load, login, logout, submit, approve, reject and the two demo helpers. `Synced()` says storage
  equals memory, and every method preserves it. A `Scenario` client walks through login, a
  refused submission, an accepted one and an approval.

Modelling choices:

- Clock readings are method parameters. `id` (`Date.now()`) and `submittedAt` (the ISO time)
  are two separate readings.
- A form date is `Parsed(time)` or `Unparseable`, the latter standing for JavaScript's NaN.
  The check `new Date(start) > new Date(end)` is false whenever either side is NaN, so a
  submission with an unparseable date is accepted (`StartsAfterEnd`).
- The status is kept as the string the page stores. A list restored from storage may hold any
  string, and such a record shows no status row (`ViewOf`).
- The login handler's 1.5 s delay is collapsed: validation and sign-in are one step.
- Local storage is abstracted as the ghost fields `storedUser` and `storedApplications`, with
  None for an absent key.

Two behaviours of the code are worth stating outright:

- Approved and rejected are not terminal: a later call overwrites the status, and neither
  decision clears the other's timestamp (`LastDecisionWins`, `DecisionTimesNeverCleared`).
- Ids are clock readings and need not be unique; the search returns the first match
  (`DuplicateIdShadowsLast`). Uniqueness is kept whenever each new id exceeds every stored id
  (`SubmitKeepsIdsUnique`).

## Model

| member | source | states |
|---|---|---|
| Tracker.ValidEmail | app.js:38-41 | an email is accepted exactly when it contains '@'; an accepted email is never empty, so the emptiness test adds nothing |
| Tracker.LeaveTracker.Load | app.js:16-30 | page load restores the saved user and the saved list (or []) and leaves storage synced with memory; the panel it draws is `StartupPanelAsWritten` (drawn before the list is restored), while the restored state's own `CurrentPanel()` is the corrected `StartupPanel` |
| Tracker.LeaveTracker.Login | app.js:33-75 | login succeeds iff the email is valid; on success the user is that email and role at time `now` and is stored; on failure nothing changes; the list is never touched |
| Tracker.LeaveTracker.Logout | app.js:239-243 | the user is cleared in memory and storage, the list is unchanged, storage stays synced so the reload restores the same list, and the panel is hidden |
| Tracker.LeaveTracker.SubmitLeave | app.js:100-146 | the outcome is that of `Submit` for the signed-in user; the list grows by that record only when accepted, and is then stored; the pending row is shown; the user is unchanged |
| Applications.Submit | app.js:100-130 | refused with no user, refused when the start date is after the end date (and only then), otherwise a pending record for the user's email with the form's fields, no decision fields, scope `options.scope` or "College" when absent or empty, file names or null |
| Applications.SubmitAppendsOnlyWhenAccepted | app.js:103-133 | with no user or reversed dates the list is unchanged; otherwise it grows by exactly one pending record and every earlier record is kept |
| Applications.SubmitKeepsIdsUnique | app.js:110-133 | a new id above every stored id keeps the ids unique |
| Applications.FirstIndexOf | app.js:171 | the result is the first index whose id matches, or None exactly when no id matches |
| Applications.FindFirst | app.js:182-183 | the linear search returns exactly `FirstIndexOf` |
| Applications.Approve | app.js:170-178 | only the first matching record changes, to status approved with `approvedAt` now, every other field (rejection fields included) kept; length and all other records unchanged; no match changes nothing |
| Applications.Reject | app.js:181-190 | only the first matching record changes, to status rejected with `rejectedAt` now and the given reason, `approvedAt` and all other fields kept; no match changes nothing |
| Applications.FirstIndexOfSameIds | app.js:171-172 | the first match depends on the ids alone, so in-place status updates never move it |
| Applications.ApproveIdempotent | app.js:170-175 | approving the same id twice at the same time equals approving once |
| Applications.UniqueIdsFindLast | app.js:274-286 | with unique ids, searching for the last record's id finds the last record |
| Applications.DuplicateIdShadowsLast | app.js:274-279 | when an earlier record shares the last record's id, the search stops there and approving "the last id" leaves the last record unchanged |
| Applications.DecideAllKeepsIds | app.js:170-187 | any sequence of approvals and rejections on an id keeps the length, every id and the first match |
| Applications.LastDecisionWins | app.js:170-187 | after any non-empty sequence of approvals and rejections, the matched record's status is the one the last call wrote: neither state is terminal |
| Applications.DecisionsTouchOnlyFirstMatch | app.js:170-187 | such a sequence leaves every record other than the first match unchanged |
| Applications.DecisionTimesNeverCleared | app.js:173-186 | a set `approvedAt` or `rejectedAt` stays set through any later approvals and rejections |
| Tracker.LeaveTracker.SimulateApproval | app.js:170-178 | the list becomes `Approve` of the old list; on a match it is stored and the approval block with time `now` is shown; otherwise storage is untouched and nothing is shown |
| Tracker.LeaveTracker.SimulateRejection | app.js:181-190 | the list becomes `Reject` of the old list; on a match it is stored and the rejected block with the reason text is shown; otherwise nothing changes |
| Tracker.LeaveTracker.DemoApprove | app.js:274-279 | an empty list and its stored copy are left alone; otherwise the last record's id is approved and the list stored, and with unique ids the last record ends up approved |
| Tracker.LeaveTracker.DemoReject | app.js:281-286 | an empty list and its stored copy are left alone; otherwise the last record's id is rejected with "Demo rejection reason" and the list stored, and with unique ids the last record ends up rejected |
| StatusView.ReasonText | app.js:164-165 | the reason when it is non-null and non-empty, otherwise "No reason provided"; never empty |
| StatusView.ViewOf | app.js:149-167 | the pending row iff the status is "pending", the approval block (with `approvedAt`) iff "approved", the rejected block (with the reason text) iff "rejected", no row for any other status |
| StatusView.StatusPanel | app.js:87-97 | the panel is hidden iff nobody is signed in; when shown it displays the row of the last record, and no row iff the list is empty |
| StatusView.StartupPanel | app.js:16-30 | after page load the panel is hidden iff no user was saved; otherwise it shows the row of the latest saved record, and updates no row when the saved list is empty or absent |
| StatusView.StartupPanelMissesLatest | app.js:19-29 | with a saved user and a non-empty saved list, the page as written updates no status row although the latest record has one |
| StatusView.SubmittedShowsPending | app.js:133-137 | an accepted submission shows the pending row, and the panel then shows it too |
| StatusView.ApprovedShowsApprovalBlock | app.js:170-176 | after approval the matched record shows the approval block with the approval time |
| StatusView.RejectedShowsReason | app.js:181-188 | after rejection the matched record shows exactly the reason, or the fallback when it is null or empty |
| StatusView.ShownStatusFollowsLastDecision | app.js:170-188 | after approvals and rejections on an id, the shown row is that of the last call |

## Findings

| source | as written | input that shows it | evidently intended | confidence | as-written member | corrected member |
|---|---|---|---|---|---|---|
| app.js:19-29 | the page-load handler calls `showStatusPanel()` for the saved user before it reads the saved application list, so the list is still empty when the panel is drawn | a reload with a saved user and a saved list holding one pending application: the panel is shown with no status row updated | the panel shows the most recent saved application's status, as `showStatusPanel` does after a login | high; not executed | StatusView.StartupPanelAsWritten (exhibited by StatusView.StartupPanelMissesLatest) | StatusView.StartupPanel (its contract; `LeaveTracker.Load` gives the restored state, whose `CurrentPanel()` is this corrected panel, and records the as-written one in `panelAtLoad`) |

## Left out

- DOM reads and writes are not modelled: form fields, class toggling, `showLoginStatus`, the
  logout button added to the header (app.js:8-13, 78-84, 246-271). Only the choice of status
  row and panel is modelled.
- `localStorage` and `JSON.parse`/`JSON.stringify` are host I/O. They are ghost copies of the
  in-memory values. The stored values are strings, numbers and null, so the JSON round trip is
  taken as exact.
- `setTimeout`, the button state during the login delay, `showNotification` and its styling
  are cosmetic (app.js:43-72, 193-236). A submission made during the login delay is not
  modelled, since login is one step.
- `alert` calls are not modelled as dialogs. They become the refused outcomes: `Login`
  returning false, `SubmitOutcome.NotLoggedIn` and `SubmitOutcome.EndBeforeStart`.
- `location.reload()` in `logout` and `demoReset`, and `demoReset` itself, which clears
  storage and reloads (app.js:242, 288-291), are left out. A page restart is not a state
  transition of this model. `Load` is the state after a reload.
- The clock and date parsing are foreign: `Date.now()`, `toISOString()`, `new Date(text)`.
  They become parameters and `DateInput`. `toLocaleDateString` formatting is locale-dependent
  library output, so the approval block carries the raw `approvedAt`.
- A form field missing from `FormData` (a null `category` or `reason`) is not modelled.
  `category` and `reason` are strings.
- Records are JavaScript objects updated in place through the reference `find` returns. The
  model replaces the element of the `seq`. No other reference to a record outlives a handler,
  so no aliasing is lost.
