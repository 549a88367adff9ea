/**
 * The page state of the leave portal: the signed-in user and the application list, the
 * handlers that change them, and their copies in local storage (ghost fields, since storage
 * is host I/O).
 */
module Tracker {
  import opened LeaveData
  import opened Applications
  import opened StatusView

  /** The email check of the login handler: not empty and containing '@'. */
  function ValidEmail(email: string): (ok: bool)
    ensures ok <==> exists i :: 0 <= i < |email| && email[i] == '@'
    ensures ok ==> |email| > 0
  {
    email != "" && '@' in email
  }

  class LeaveTracker {
    var currentUser: Option<Identity>
    var leaveApplications: seq<Application>

    /** The stored copy of `currentUser`; None when the key is absent. */
    ghost var storedUser: Option<Identity>
    /** The stored copy of `leaveApplications`; None when the key is absent. */
    ghost var storedApplications: Option<seq<Application>>
    /** What the page-load handler drew in the status panel. */
    ghost var panelAtLoad: Panel

    /** Storage holds what is in memory, so a page reload would restore exactly this state. */
    ghost predicate Synced()
      reads this
    {
      storedUser == currentUser && Restored(storedApplications) == leaveApplications
    }

    /** What the status panel shows for the current state. */
    function CurrentPanel(): Panel
      reads this
    {
      StatusPanel(currentUser, leaveApplications)
    }

    /**
     * The page-load handler: restore the saved user and draw the status panel, then restore the
     * saved list. The panel is drawn while the list is still the initial [], so it never shows
     * the latest saved application (`StartupPanelAsWritten`); the restored state's own panel is
     * the corrected `StartupPanel`.
     */
    constructor Load(savedUser: Option<Identity>, savedApplications: Option<seq<Application>>)
      ensures currentUser == savedUser
      ensures leaveApplications == Restored(savedApplications)
      ensures storedUser == savedUser && storedApplications == savedApplications
      ensures Synced()
      ensures panelAtLoad == StartupPanelAsWritten(savedUser, savedApplications)
      ensures CurrentPanel() == StartupPanel(savedUser, savedApplications)
    {
      leaveApplications := [];
      storedUser := savedUser;
      storedApplications := savedApplications;
      currentUser := savedUser;
      panelAtLoad := PanelHidden;
      new;
      panelAtLoad := CurrentPanel();
      leaveApplications := Restored(savedApplications);
    }

    /**
     * The login handler, with its cosmetic delay collapsed into one step: an invalid email is
     * refused and changes nothing; a valid one signs in as `userType` at time `now`.
     */
    method Login(email: string, userType: string, now: Timestamp) returns (ok: bool)
      modifies this
      ensures ok == ValidEmail(email)
      ensures ok ==> currentUser == Some(Identity(email, userType, now)) && storedUser == currentUser
      ensures !ok ==> currentUser == old(currentUser) && storedUser == old(storedUser)
      ensures leaveApplications == old(leaveApplications)
      ensures storedApplications == old(storedApplications)
      ensures old(Synced()) ==> Synced()
    {
      if !ValidEmail(email) {
        return false;
      }
      currentUser := Some(Identity(email, userType, now));
      storedUser := currentUser;
      ok := true;
    }

    /**
     * The logout handler: clear the user in memory and in storage. The page reload that
     * follows restores the stored list, which is the one in memory when the state is synced.
     */
    method Logout()
      modifies this
      ensures currentUser == None && storedUser == None
      ensures leaveApplications == old(leaveApplications)
      ensures storedApplications == old(storedApplications)
      ensures old(Synced()) ==> Synced()
      ensures CurrentPanel() == PanelHidden
    {
      currentUser := None;
      storedUser := None;
    }

    /**
     * The submit handler, with `id` and `submittedAt` read from the clock. Refused when nobody
     * is signed in or the start date is after the end date; otherwise one pending record is
     * appended and stored, and its row is shown.
     */
    method SubmitLeave(form: LeaveForm, options: SubmitOptions, id: int, submittedAt: Timestamp)
      returns (outcome: SubmitOutcome, shown: Option<View>)
      modifies this
      ensures outcome == Submit(old(currentUser), form, options, id, submittedAt)
      ensures leaveApplications == AfterSubmit(old(leaveApplications), outcome)
      ensures outcome.Submitted? ==> storedApplications == Some(leaveApplications)
      ensures !outcome.Submitted? ==> storedApplications == old(storedApplications)
      ensures shown == (if outcome.Submitted? then Some(PendingRow) else None)
      ensures currentUser == old(currentUser) && storedUser == old(storedUser)
      ensures old(Synced()) ==> Synced()
    {
      if currentUser.None? {
        return NotLoggedIn, None;
      }
      var leaveData := NewApplication(id, currentUser.value.email, form, options, submittedAt);
      if StartsAfterEnd(leaveData.startDate, leaveData.endDate) {
        return EndBeforeStart, None;
      }
      leaveApplications := leaveApplications + [leaveData];
      storedApplications := Some(leaveApplications);
      outcome := Submitted(leaveData);
      shown := Some(ViewOf(leaveData));
    }

    /**
     * `simulateApproval(id)` at time `now`: the first application with that id is approved in
     * place and the list stored; its row is shown. An unknown id changes nothing.
     */
    method SimulateApproval(applicationId: int, now: Timestamp) returns (shown: Option<View>)
      modifies this
      ensures leaveApplications == Approve(old(leaveApplications), applicationId, now)
      ensures FirstIndexOf(old(leaveApplications), applicationId).Some? ==>
        storedApplications == Some(leaveApplications) && shown == Some(ApprovalBlock(Some(now)))
      ensures FirstIndexOf(old(leaveApplications), applicationId).None? ==>
        storedApplications == old(storedApplications) && shown == None
      ensures currentUser == old(currentUser) && storedUser == old(storedUser)
      ensures old(Synced()) ==> Synced()
    {
      var found := FindFirst(leaveApplications, applicationId);
      if found.None? {
        return None;
      }
      var i := found.value;
      leaveApplications := leaveApplications[i := leaveApplications[i].(status := APPROVED, approvedAt := Some(now))];
      storedApplications := Some(leaveApplications);
      shown := Some(ViewOf(leaveApplications[i]));
    }

    /**
     * `simulateRejection(id, reason)` at time `now`: the first application with that id is
     * rejected in place with the reason and the list stored; its row is shown. An unknown id
     * changes nothing.
     */
    method SimulateRejection(applicationId: int, reason: Option<string>, now: Timestamp)
      returns (shown: Option<View>)
      modifies this
      ensures leaveApplications == Reject(old(leaveApplications), applicationId, now, reason)
      ensures FirstIndexOf(old(leaveApplications), applicationId).Some? ==>
        storedApplications == Some(leaveApplications) && shown == Some(RejectedBlock(ReasonText(reason)))
      ensures FirstIndexOf(old(leaveApplications), applicationId).None? ==>
        storedApplications == old(storedApplications) && shown == None
      ensures currentUser == old(currentUser) && storedUser == old(storedUser)
      ensures old(Synced()) ==> Synced()
    {
      var found := FindFirst(leaveApplications, applicationId);
      if found.None? {
        return None;
      }
      var i := found.value;
      leaveApplications := leaveApplications[i := leaveApplications[i].(status := REJECTED, rejectedAt := Some(now),
                                                                       rejectionReason := reason)];
      storedApplications := Some(leaveApplications);
      shown := Some(ViewOf(leaveApplications[i]));
    }

    /** The console helper `demoApprove`: approve by the id of the last application, if any. */
    method DemoApprove(now: Timestamp) returns (shown: Option<View>)
      modifies this
      ensures old(leaveApplications) == [] ==> leaveApplications == [] && shown == None
      ensures old(leaveApplications) == [] ==> storedApplications == old(storedApplications)
      ensures old(leaveApplications) != [] ==> storedApplications == Some(leaveApplications)
      ensures old(leaveApplications) != [] ==>
        leaveApplications == Approve(old(leaveApplications), old(leaveApplications)[|old(leaveApplications)| - 1].id, now)
        && shown == Some(ApprovalBlock(Some(now)))
      ensures old(UniqueIds(leaveApplications)) && old(leaveApplications) != [] ==>
        leaveApplications[|leaveApplications| - 1].status == APPROVED
      ensures currentUser == old(currentUser) && storedUser == old(storedUser)
      ensures old(Synced()) ==> Synced()
    {
      if |leaveApplications| == 0 {
        return None;
      }
      ghost var before := leaveApplications;
      shown := SimulateApproval(leaveApplications[|leaveApplications| - 1].id, now);
      if UniqueIds(before) {
        UniqueIdsFindLast(before);
      }
    }

    /** The console helper `demoReject`: reject the last application's id with the demo reason, if any. */
    method DemoReject(now: Timestamp) returns (shown: Option<View>)
      modifies this
      ensures old(leaveApplications) == [] ==> leaveApplications == [] && shown == None
      ensures old(leaveApplications) == [] ==> storedApplications == old(storedApplications)
      ensures old(leaveApplications) != [] ==> storedApplications == Some(leaveApplications)
      ensures old(leaveApplications) != [] ==>
        leaveApplications == Reject(old(leaveApplications), old(leaveApplications)[|old(leaveApplications)| - 1].id,
                                    now, Some(DEMO_REJECTION_REASON))
        && shown == Some(RejectedBlock(DEMO_REJECTION_REASON))
      ensures old(UniqueIds(leaveApplications)) && old(leaveApplications) != [] ==>
        leaveApplications[|leaveApplications| - 1].status == REJECTED
      ensures currentUser == old(currentUser) && storedUser == old(storedUser)
      ensures old(Synced()) ==> Synced()
    {
      if |leaveApplications| == 0 {
        return None;
      }
      ghost var before := leaveApplications;
      shown := SimulateRejection(leaveApplications[|leaveApplications| - 1].id, Some(DEMO_REJECTION_REASON), now);
      if UniqueIds(before) {
        UniqueIdsFindLast(before);
      }
    }
  }

  /**
   * The walk-through of the portal: sign in, submit with the dates reversed (refused), submit
   * with the dates in order (one pending record), approve it by its id.
   */
  method Scenario() {
    var tracker := new LeaveTracker.Load(None, None);
    var ok := tracker.Login("a@b.com", "student", 1000);
    assert "a@b.com"[1] == '@';
    assert ok && tracker.currentUser.value.email == "a@b.com";

    var form := LeaveForm(Parsed(10), Parsed(5), "Medical", "Fever", None, None);
    var outcome, shown := tracker.SubmitLeave(form, NO_OPTIONS, 2000, 2000);
    assert outcome == EndBeforeStart && tracker.leaveApplications == [];

    form := form.(startDate := Parsed(5), endDate := Parsed(10));
    outcome, shown := tracker.SubmitLeave(form, NO_OPTIONS, 3000, 3000);
    assert outcome.Submitted? && tracker.leaveApplications == [outcome.app];
    assert outcome.app.scope == DEFAULT_SCOPE && shown == Some(PendingRow);

    shown := tracker.SimulateApproval(3000, 4000);
    assert tracker.leaveApplications[0].status == APPROVED;
    assert tracker.leaveApplications[0].approvedAt == Some(4000);
    assert tracker.CurrentPanel() == PanelShown(Some(ApprovalBlock(Some(4000))));
    assert tracker.Synced();
  }
}
