/** Who may bring a campaign, its approval and its delivery rows where, and what was reviewed before it goes out. */
module CampaignRules {
  import opened Outcome
  import opened Campaign

  // ----- statuses -----

  predicate Sends(step: Step) {
    step.SendNow? || step.SendByStore?
  }

  predicate Schedules(step: Step) {
    step.Schedule? || step.ScheduleByStore? || Sends(step)
  }

  /** What is needed for a new status, by the status it is. */
  predicate StatusCause(c: Campaign, step: Step, status: Status) {
    match status
    case Draft => step.EditByStaff? && c.vendor && c.status == Scheduled
    case Scheduled =>
      || (Schedules(step) && c.status in {Draft, Failed} && (c.vendor ==> c.approval == Approved))
      || (step.Reclaim? && c.status == Sending && c.at == Idle)
    case Sending => step.Claim? && c.status == Scheduled && c.at == Idle
    case Sent => step.Finish? && c.status == Sending && c.at.Counting?
    case Failed => (step.Fail? || step.Load?) && c.status == Sending && c.at != Idle
    case Cancelled => step.Cancel? && c.status in {Draft, Scheduled, Sending}
  }

  /** What is needed for a new approval: only a review approves, and only an edit takes it back. */
  predicate ApprovalCause(c: Campaign, step: Step, approval: Approval) {
    match approval
    case NotRequired => false
    case Awaiting => c.vendor && ((step.EditByStaff? && c.status in {Draft, Scheduled}) || (step.EditByStore? && c.status == Draft))
    case Approved => c.vendor && step == Review(true) && c.status == Draft
    case Rejected => c.vendor && step == Review(false) && c.status == Draft
  }

  /** No status and no approval comes about but by its own event, and new content has to be reviewed again. */
  lemma NoStatusWithoutCause(c: Campaign, step: Step)
    requires Inv(c)
    ensures var n := Next(c, step);
            && (n.status != c.status ==> StatusCause(c, step, n.status))
            && (n.approval != c.approval ==> ApprovalCause(c, step, n.approval))
            && (n.content != c.content ==>
              && (step.EditByStaff? || step.EditByStore?) && n.content == step.content
              && c.status in {Draft, Scheduled} && c.at == Idle
              && (c.vendor ==> n.status == Draft && n.approval == Awaiting))
  {
    hide Count, PendingFrom, AddRows;
  }

  /** When a scheduling or sending call is heard. */
  predicate MaySchedule(c: Campaign, step: Step) {
    match step
    case Schedule => c.status in {Draft, Scheduled} && (c.vendor ==> c.approval == Approved)
    case ScheduleByStore => c.vendor && c.approval == Approved && c.status in {Draft, Scheduled, Failed}
    case SendNow => c.status in {Draft, Scheduled, Failed} && (c.vendor ==> c.approval == Approved)
    case SendByStore => c.vendor && c.approval == Approved && c.status in {Draft, Scheduled, Failed}
    case _ => false
  }

  /**
   A heard call schedules the campaign as it is, and sending a failed one again retries its failed
   messages and no others; any other call changes nothing.
   */
  lemma SchedulingDecided(c: Campaign, step: Step)
    requires Schedules(step)
    ensures var n := Next(c, step);
            && (MaySchedule(c, step) ==>
              && n == c.(status := Scheduled, rows := n.rows) && |n.rows| == |c.rows|
              && forall i :: 0 <= i < |c.rows| ==>
                n.rows[i] == if c.status == Failed && Sends(step) && c.rows[i].state == Undelivered
                             then Row(c.rows[i].user, Pending) else c.rows[i])
            && (!MaySchedule(c, step) ==> n == c)
  {
  }

  /** Cancelling, reviewing and editing: when they are heard, and all that they change. */
  lemma ManagingDecided(c: Campaign, content: Content, approve: bool)
    ensures var n := Next(c, Cancel);
            if c.status in {Draft, Scheduled, Sending} then n == c.(status := Cancelled) else n == c
    ensures var n := Next(c, Review(approve));
            if c.vendor && c.status == Draft
            then n == c.(approval := n.approval, approved := n.approved)
                 && (n.approval == Approved <==> approve) && (n.approval == Rejected <==> !approve)
                 && (approve ==> n.approved == Some(c.content)) && (!approve ==> n.approved == c.approved)
            else n == c
    ensures var n := Next(c, EditByStore(content));
            if c.vendor && c.status == Draft then n == c.(content := content, approval := Awaiting) else n == c
    ensures var n := Next(c, EditByStaff(content));
            if c.status !in {Draft, Scheduled} then n == c
            else n == c.(content := content, status := n.status, approval := n.approval)
                 && (c.vendor ==> n.status == Draft && n.approval == Awaiting)
                 && (!c.vendor ==> n.status == c.status && n.approval == c.approval)
  {
  }

  // ----- the way out -----

  /** An approved campaign that is sent goes to work, whether it was drafted, scheduled or had failed. */
  lemma ApprovedGoesOut(c: Campaign)
    requires Inv(c) && c.at == Idle && c.status in {Draft, Scheduled, Failed}
    requires c.vendor ==> c.approval == Approved
    ensures var n := Run(c, [SendNow, Claim, Load(true)]);
            n.status == Sending && n.at == Loaded(c.content)
  {
    hide Run, Count;
    RunThree(c, SendNow, Claim, Load(true));
  }

  lemma RunThree(c: Campaign, a: Step, b: Step, d: Step)
    ensures Run(c, [a, b, d]) == Next(Next(Next(c, a), b), d)
  {
    hide Next;
    assert [a, b, d][..2] == [a, b] && [a, b][..1] == [a] && [a][..0] == [];
    assert Run(c, [a]) == Next(c, a);
    assert Run(c, [a, b]) == Next(Next(c, a), b);
  }

  /** A vendor's campaign that was not approved, or whose store was closed meanwhile, fails before anyone is written to. */
  lemma UnapprovedGoesNowhere(c: Campaign, storeActive: bool)
    requires Inv(c) && c.at == Claimed && c.status == Sending
    ensures var n := Next(c, Load(storeActive));
            && n.rows == c.rows && n.log == c.log
            && (n.status == Failed <==> c.vendor && (c.approval != Approved || !storeActive))
            && (n.status != Failed ==> n.at == Loaded(c.content))
  {
  }

  // ----- delivery rows -----

  /** A settled row changes by an answer to its own message, or when a failed campaign is sent again. */
  predicate RowCause(c: Campaign, step: Step, row: nat, state: Delivery)
    requires row < |c.rows|
  {
    match step
    case Deliver(r, outcome) => c.at.Batch? && Member(c.at.rest, row) && r == row && outcome == state && state != Pending
    case Straggle(i, outcome) => i < |c.stragglers| && c.stragglers[i].row == row && outcome == state && state != Pending
    case SendNow => c.status == Failed && c.rows[row].state == Undelivered && state == Pending
    case SendByStore => c.vendor && c.status == Failed && c.rows[row].state == Undelivered && state == Pending
    case _ => false
  }

  /** Rows are never lost, never change hands, and never change their state without cause. */
  lemma RowsChangeByAnswer(c: Campaign, step: Step, row: nat)
    requires Inv(c) && row < |c.rows|
    ensures var n := Next(c, step);
            && |n.rows| >= |c.rows| && n.rows[row].user == c.rows[row].user
            && (n.rows[row].state != c.rows[row].state ==> RowCause(c, step, row, n.rows[row].state))
  {
    hide Count;
    if step.Resolve? {
      AddRowsKeeps(c.rows, step.users);
    }
  }

  /** A batch is the first pending rows, 25 of them or all there are. */
  lemma BatchIsFirst(rows: seq<Row>)
    ensures var batch := NextBatch(rows);
            && |batch| == (if Count(rows, Pending) < BATCH then Count(rows, Pending) else BATCH)
            && (forall i, j :: 0 <= i < j < |batch| ==> batch[i] < batch[j])
            && (forall i :: 0 <= i < |batch| ==> batch[i] < |rows| && rows[batch[i]].state == Pending)
            && (forall r :: 0 <= r < |rows| && rows[r].state == Pending && !Member(batch, r) ==>
              |batch| == BATCH && batch[BATCH - 1] < r)
  {
    PendingRows(rows, 0);
    PendingAll(rows, 0);
    assert rows[0..] == rows;
    var all, batch := PendingFrom(rows, 0), NextBatch(rows);
    CountFrom(rows, 0);
    if |all| > BATCH {
      forall r | 0 <= r < |rows| && rows[r].state == Pending ensures Member(batch, r) || batch[BATCH - 1] < r {
        assert Member(all, r);
        InOrBeyond(all, BATCH, r);
      }
    }
  }

  lemma InOrBeyond(s: seq<nat>, k: nat, x: nat)
    requires 0 < k <= |s| && Member(s, x) && forall i, j :: 0 <= i < j < |s| ==> s[i] < s[j]
    ensures Member(s[..k], x) || s[k - 1] < x
  {
    var i :| 0 <= i < |s| && s[i] == x;
    if i < k {
      assert s[..k][i] == x;
    }
  }

  lemma {:induction false} PendingAll(rows: seq<Row>, from: nat)
    requires from <= |rows|
    ensures forall r :: from <= r < |rows| && rows[r].state == Pending ==> Member(PendingFrom(rows, from), r)
    decreases |rows| - from
  {
    if from < |rows| {
      PendingAll(rows, from + 1);
      var tail, all := PendingFrom(rows, from + 1), PendingFrom(rows, from);
      forall r | from <= r < |rows| && rows[r].state == Pending ensures Member(all, r) {
        if r == from {
          assert all[0] == r;
        } else {
          assert Member(tail, r);
          var i :| 0 <= i < |tail| && tail[i] == r;
          assert all[|all| - |tail| + i] == r;
        }
      }
    }
  }

  lemma {:induction false} CountFrom(rows: seq<Row>, from: nat)
    requires from <= |rows|
    ensures |PendingFrom(rows, from)| == Count(rows[from..], Pending)
    decreases |rows| - from
  {
    if from < |rows| {
      CountFrom(rows, from + 1);
      CountFirst(rows[from..]);
      assert rows[from..][1..] == rows[from + 1..];
    }
  }

  lemma {:induction false} CountFirst(rows: seq<Row>)
    requires rows != []
    ensures Count(rows, Pending) == (if rows[0].state == Pending then 1 else 0) + Count(rows[1..], Pending)
  {
    var k := |rows| - 1;
    if k > 0 {
      CountFirst(rows[..k]);
      assert rows[..k][1..] == rows[1..][..k - 1];
    }
  }

  // ----- reviewed content -----

  /** Staff approved exactly this content, at some step of the run. */
  ghost predicate Reviewed(c: Campaign, steps: seq<Step>, content: Content) {
    exists k :: 0 <= k < |steps| && ReviewedAt(c, steps, content, k)
  }

  ghost predicate ReviewedAt(c: Campaign, steps: seq<Step>, content: Content, k: nat)
    requires k < |steps|
  {
    var before := Run(c, steps[..k]);
    steps[k] == Review(true) && before.vendor && before.status == Draft && before.content == content
  }

  /** Every approval on record goes back to a review. */
  ghost predicate Traced(c: Campaign, steps: seq<Step>) {
    var n := Run(c, steps);
    && (n.approved.Some? ==> Reviewed(c, steps, n.approved.value))
    && (forall i :: 0 <= i < |n.log| && n.log[i].approved.Some? ==> Reviewed(c, steps, n.log[i].approved.value))
    && (forall i :: 0 <= i < |n.stragglers| && n.stragglers[i].approved.Some? ==> Reviewed(c, steps, n.stragglers[i].approved.value))
  }

  lemma ReviewedLater(c: Campaign, steps: seq<Step>, content: Content)
    requires steps != [] && Reviewed(c, steps[..|steps| - 1], content)
    ensures Reviewed(c, steps, content)
  {
    hide Run;
    var before := steps[..|steps| - 1];
    var k :| 0 <= k < |before| && ReviewedAt(c, before, content, k);
    assert before[..k] == steps[..k];
    assert ReviewedAt(c, steps, content, k);
  }

  /** A step approves nothing but what it reviews. */
  lemma ApprovalPasses(c: Campaign, step: Step)
    ensures Next(c, step).approved != c.approved ==>
      step == Review(true) && c.vendor && c.status == Draft && Next(c, step).approved == Some(c.content)
  {
    hide Count, PendingFrom, AddRows;
  }

  /** A step dispatches nothing but what stands approved, or what was under way already. */
  lemma MessagesPass(c: Campaign, step: Step)
    ensures var n := Next(c, step);
            forall i :: 0 <= i < |n.log| ==>
              || n.log[i].approved == c.approved
              || (i < |c.log| && n.log[i] == c.log[i])
              || (exists j :: 0 <= j < |c.stragglers| && n.log[i] == c.stragglers[j])
  {
    hide Count, PendingFrom, AddRows;
    if step.Straggle? && step.index < |c.stragglers| && Next(c, step).log != c.log {
      assert Next(c, step).log[|c.log|] == c.stragglers[step.index];
    }
  }

  lemma StragglersPass(c: Campaign, step: Step)
    ensures var n := Next(c, step);
            forall i :: 0 <= i < |n.stragglers| ==>
              || n.stragglers[i].approved == c.approved
              || (exists j :: 0 <= j < |c.stragglers| && n.stragglers[i] == c.stragglers[j])
  {
    hide Count, PendingFrom, AddRows;
    var n := Next(c, step);
    if step.Straggle? && n.stragglers != c.stragglers {
      forall i | 0 <= i < |n.stragglers|
        ensures exists j :: 0 <= j < |c.stragglers| && n.stragglers[i] == c.stragglers[j]
      {
        assert n.stragglers[i] == c.stragglers[if i < step.index then i else i + 1];
      }
    }
  }

  /** Everything reviewed for the state before the last step was reviewed by its end. */
  lemma TracePasses(c: Campaign, steps: seq<Step>)
    requires steps != [] && Traced(c, steps[..|steps| - 1])
    ensures Traced(c, steps)
  {
    var k := |steps| - 1;
    var b, n := Run(c, steps[..k]), Run(c, steps);
    assert n == Next(b, steps[k]);
    ApprovalPasses(b, steps[k]);
    MessagesPass(b, steps[k]);
    StragglersPass(b, steps[k]);
    if n.approved != b.approved {
      assert ReviewedAt(c, steps, b.content, k);
    }
    forall x: Content | Reviewed(c, steps[..k], x) ensures Reviewed(c, steps, x) {
      ReviewedLater(c, steps, x);
    }
    hide Next, Run, Reviewed;
  }

  lemma {:induction false} ApprovalsTrace(c: Campaign, steps: seq<Step>)
    requires c.approved.None? && c.log == [] && c.stragglers == []
    ensures Traced(c, steps)
  {
    hide Traced;
    if steps == [] {
      NothingToTrace(c);
    } else {
      ApprovalsTrace(c, steps[..|steps| - 1]);
      TracePasses(c, steps);
    }
  }

  lemma NothingToTrace(c: Campaign)
    requires c.approved.None? && c.log == [] && c.stragglers == []
    ensures Traced(c, [])
  {
  }

  /**
   Nothing goes out for a vendor that staff did not review: for every message of every run there is
   a step that approved exactly its content, while the campaign was a draft with that content.
   */
  lemma MessagesWereReviewed(content: Content, steps: seq<Step>, i: nat)
    ensures var c := NewCampaign(true, content);
            i < |Run(c, steps).log| ==> Reviewed(c, steps, Run(c, steps).log[i].content)
  {
    hide Next, Run, Reviewed;
    var c := NewCampaign(true, content);
    ApprovalsTrace(c, steps);
    DispatchedAsApproved(true, content, steps, i);
  }
}
