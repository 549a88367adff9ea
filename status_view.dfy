/**
 * The choice of which status row the page shows for an application, and of what the status
 * panel shows for the signed-in user. The DOM updates themselves are not modelled.
 */
module StatusView {
  import opened LeaveData
  import opened Applications

  /**
   * The status rows after `updateStatusDisplay`: all rows are hidden first, then at most one
   * is shown. `ApprovalBlock` carries the time its date text is formatted from and
   * `RejectedBlock` the reason text it displays.
   */
  datatype View =
    | PendingRow
    | ApprovalBlock(approvedAt: Option<Timestamp>)
    | RejectedBlock(reasonText: string)
    | NoStatusRow

  /** The text of the rejection reason: the reason, or the fallback when it is null or empty. */
  function ReasonText(reason: Option<string>): (text: string)
    ensures text != ""
    ensures Truthy(reason) ==> text == reason.value
    ensures !Truthy(reason) ==> text == NO_REASON_TEXT
  {
    OrElse(reason, NO_REASON_TEXT)
  }

  /** The row `updateStatusDisplay(app)` shows: one per known status, none for any other string. */
  function ViewOf(app: Application): (v: View)
    ensures v.PendingRow? <==> app.status == PENDING
    ensures v.ApprovalBlock? <==> app.status == APPROVED
    ensures v.RejectedBlock? <==> app.status == REJECTED
    ensures v.NoStatusRow? <==> app.status !in {PENDING, APPROVED, REJECTED}
    ensures v.ApprovalBlock? ==> v.approvedAt == app.approvedAt
    ensures v.RejectedBlock? ==> v.reasonText == ReasonText(app.rejectionReason)
  {
    if app.status == PENDING then PendingRow
    else if app.status == APPROVED then ApprovalBlock(app.approvedAt)
    else if app.status == REJECTED then RejectedBlock(ReasonText(app.rejectionReason))
    else NoStatusRow
  }

  /**
   * The status panel: hidden unless a user is signed in; when shown, it displays the row of
   * the most recent application, and leaves the rows alone (None) when there is none.
   */
  datatype Panel = PanelHidden | PanelShown(latest: Option<View>)

  /** What `showStatusPanel` displays for the given user and list. */
  function StatusPanel(user: Option<Identity>, apps: seq<Application>): (p: Panel)
    ensures p.PanelHidden? <==> user.None?
    ensures p.PanelShown? ==> (p.latest.None? <==> apps == [])
    ensures p.PanelShown? && apps != [] ==> p.latest == Some(ViewOf(apps[|apps| - 1]))
  {
    if user.None? then PanelHidden
    else if apps == [] then PanelShown(None)
    else PanelShown(Some(ViewOf(apps[|apps| - 1])))
  }

  /**
   * The panel as the page-load handler shows it: the saved user is restored and the panel
   * drawn BEFORE the saved application list is read, so the list is still empty at that point.
   */
  function StartupPanelAsWritten(savedUser: Option<Identity>, savedApps: Option<seq<Application>>): Panel {
    StatusPanel(savedUser, [])
  }

  /** The panel once both saved values are restored: the latest saved application's row. */
  function StartupPanel(savedUser: Option<Identity>, savedApps: Option<seq<Application>>): (p: Panel)
    ensures p.PanelHidden? <==> savedUser.None?
    ensures savedUser.Some? && Restored(savedApps) == [] ==> p == PanelShown(None)
    ensures savedUser.Some? && Restored(savedApps) != [] ==>
      p == PanelShown(Some(ViewOf(Restored(savedApps)[|Restored(savedApps)| - 1])))
  {
    StatusPanel(savedUser, Restored(savedApps))
  }

  /**
   * On a reload with a saved user and a non-empty saved list, the panel as written updates no
   * status row, while the latest saved application has one (its status being one of the three).
   */
  lemma StartupPanelMissesLatest(savedUser: Option<Identity>, saved: seq<Application>)
    requires savedUser.Some? && saved != []
    requires saved[|saved| - 1].status in {PENDING, APPROVED, REJECTED}
    ensures StartupPanelAsWritten(savedUser, Some(saved)) == PanelShown(None)
    ensures StartupPanel(savedUser, Some(saved)).latest.value != NoStatusRow
  {
  }

  /** A submission that is accepted shows the pending row, and the panel then shows it too. */
  lemma SubmittedShowsPending(user: Option<Identity>, apps: seq<Application>, form: LeaveForm,
                              options: SubmitOptions, id: int, submittedAt: Timestamp)
    requires Submit(user, form, options, id, submittedAt).Submitted?
    ensures ViewOf(Submit(user, form, options, id, submittedAt).app) == PendingRow
    ensures StatusPanel(user, AfterSubmit(apps, Submit(user, form, options, id, submittedAt)))
            == PanelShown(Some(PendingRow))
  {
  }

  /** After an approval the matched application shows the approval block with the approval time. */
  lemma ApprovedShowsApprovalBlock(apps: seq<Application>, id: int, now: Timestamp, i: nat)
    requires FirstIndexOf(apps, id) == Some(i)
    ensures ViewOf(Approve(apps, id, now)[i]) == ApprovalBlock(Some(now))
  {
  }

  /**
   * After a rejection the matched application shows the rejected block with exactly the
   * reason, or the fallback text when the reason is null or empty.
   */
  lemma RejectedShowsReason(apps: seq<Application>, id: int, now: Timestamp, reason: Option<string>, i: nat)
    requires FirstIndexOf(apps, id) == Some(i)
    ensures ViewOf(Reject(apps, id, now, reason)[i]) ==
      RejectedBlock(if Truthy(reason) then reason.value else NO_REASON_TEXT)
  {
  }

  /**
   * After any non-empty sequence of approvals and rejections on an id, the matched
   * application shows the row of the last call: approval is not final, nor is rejection.
   */
  lemma ShownStatusFollowsLastDecision(apps: seq<Application>, id: int, ds: seq<Decision>, i: nat)
    requires FirstIndexOf(apps, id) == Some(i)
    requires ds != []
    ensures i < |DecideAll(apps, id, ds)|
    ensures ds[|ds| - 1].Approval? ==> ViewOf(DecideAll(apps, id, ds)[i]).ApprovalBlock?
    ensures ds[|ds| - 1].Rejection? ==> ViewOf(DecideAll(apps, id, ds)[i]).RejectedBlock?
  {
    LastDecisionWins(apps, id, ds, i);
  }
}
