/**
 A push campaign: drafting, approval, scheduling, and the dispatcher that sends it in batches
 while people may cancel it. Management calls are single steps; the dispatcher moves through
 its program points one database access at a time and may crash anywhere.
 */
module Campaign {
  import opened Outcome

  datatype Status = Draft | Scheduled | Sending | Sent | Failed | Cancelled

  datatype Approval = NotRequired | Awaiting | Approved | Rejected

  datatype Content = Content(title: string, message: string, image: Option<string>, link: Option<string>, inApp: bool)

  datatype Delivery = Pending | Delivered | Undelivered | Skipped

  datatype Row = Row(user: nat, state: Delivery)

  /** Where the dispatcher is with this campaign. */
  datatype Point =
    | Idle
    | Claimed
    | Loaded(content: Content)
    | Rowed(content: Content, recipients: nat)
    | Looping(content: Content)
    | Batch(content: Content, rest: seq<nat>)
    | Counting(delivered: Option<nat>, failed: Option<nat>, skipped: Option<nat>)

  /** A message handed to the push provider, with the approval that stood when its batch was started. */
  datatype Dispatch = Dispatch(row: nat, content: Content, approved: Option<Content>)

  datatype Campaign = Campaign(
    vendor: bool, content: Content, status: Status, approval: Approval, approved: Option<Content>,
    rows: seq<Row>, total: nat, delivered: nat, failed: nat, skipped: nat,
    at: Point, batches: nat, log: seq<Dispatch>, stragglers: seq<Dispatch>, steady: bool)

  const BATCH := 25

  // ----- delivery rows -----

  function Count(rows: seq<Row>, s: Delivery): nat {
    if rows == [] then 0 else Count(rows[..|rows| - 1], s) + if rows[|rows| - 1].state == s then 1 else 0
  }

  /** Rows still to be sent, from a position on, in order. */
  function PendingFrom(rows: seq<Row>, from: nat): seq<nat>
    decreases |rows| - from
  {
    if from >= |rows| then []
    else (if rows[from].state == Pending then [from] else []) + PendingFrom(rows, from + 1)
  }

  function NextBatch(rows: seq<Row>): seq<nat> {
    var all := PendingFrom(rows, 0);
    if |all| <= BATCH then all else all[..BATCH]
  }

  predicate Present(rows: seq<Row>, user: nat) {
    exists i :: 0 <= i < |rows| && rows[i].user == user
  }

  /** One row per user, ever. */
  function AddRows(rows: seq<Row>, users: seq<nat>): seq<Row>
    decreases |users|
  {
    if users == [] then rows
    else AddRows(if Present(rows, users[0]) then rows else rows + [Row(users[0], Pending)], users[1..])
  }

  function Retried(rows: seq<Row>): (r: seq<Row>)
    ensures |r| == |rows|
    ensures forall i :: 0 <= i < |rows| ==>
      r[i] == if rows[i].state == Undelivered then rows[i].(state := Pending) else rows[i]
  {
    seq(|rows|, i requires 0 <= i < |rows| => if rows[i].state == Undelivered then rows[i].(state := Pending) else rows[i])
  }

  predicate Distinct(s: seq<nat>) {
    forall i, j :: 0 <= i < j < |s| ==> s[i] != s[j]
  }

  predicate Member(s: seq<nat>, x: nat) {
    exists i :: 0 <= i < |s| && s[i] == x
  }

  function Without(s: seq<nat>, x: nat): seq<nat> {
    if s == [] then [] else if s[0] == x then s[1..] else [s[0]] + Without(s[1..], x)
  }

  // ----- steps -----

  datatype Step =
    | EditByStaff(content: Content) | EditByStore(content: Content) | Review(approve: bool)
    | Schedule | ScheduleByStore | SendNow | SendByStore | Cancel
    | Reclaim | Claim | Load(storeActive: bool) | Resolve(users: seq<nat>) | SetTotal
    | Check | Deliver(row: nat, outcome: Delivery) | Straggle(index: nat, outcome: Delivery)
    | CountRows(state: Delivery) | Finish | Fail | Crash

  predicate Sendable(c: Campaign) {
    c.vendor ==> c.approval == Approved
  }

  /** A refused or impossible step changes nothing. */
  function Next(c: Campaign, step: Step): Campaign {
    match step
    case EditByStaff(content) =>
      if c.status !in {Draft, Scheduled} then c
      else if c.vendor then c.(content := content, status := Draft, approval := Awaiting)
      else c.(content := content)
    case EditByStore(content) =>
      if !c.vendor || c.status != Draft then c else c.(content := content, approval := Awaiting)
    case Review(approve) =>
      if !c.vendor || c.status != Draft then c
      else if approve then c.(approval := Approved, approved := Some(c.content))
      else c.(approval := Rejected)
    case Schedule =>
      if c.status !in {Draft, Scheduled} || !Sendable(c) then c else c.(status := Scheduled)
    case ScheduleByStore =>
      if !c.vendor || c.approval != Approved || c.status !in {Draft, Scheduled, Failed} then c
      else c.(status := Scheduled)
    case SendNow => Resend(c)
    case SendByStore => if c.vendor then Resend(c) else c
    case Cancel =>
      if c.status !in {Draft, Scheduled, Sending} then c else c.(status := Cancelled)
    case Reclaim =>
      if c.at == Idle && c.status == Sending then c.(status := Scheduled) else c
    case Claim =>
      if c.at == Idle && c.status == Scheduled then c.(status := Sending, at := Claimed) else c
    case Load(storeActive) =>
      if c.at != Claimed then c
      else if c.vendor && (c.approval != Approved || !storeActive) then GiveUp(c)
      else c.(at := Loaded(c.content))
    case Resolve(users) =>
      if !c.at.Loaded? || !Distinct(users) then c
      else c.(rows := AddRows(c.rows, users), at := Rowed(c.at.content, |users|))
    case SetTotal =>
      if !c.at.Rowed? then c else c.(total := c.at.recipients, at := Looping(c.at.content))
    case Check =>
      if !c.at.Looping? then c
      else if c.status != Sending then c.(at := Idle)
      else
        var batch := NextBatch(c.rows);
        if batch == [] then c.(at := Counting(None, None, None), steady := c.stragglers == []) else c.(at := Batch(c.at.content, batch), batches := c.batches + 1)
    case Deliver(row, outcome) =>
      if !c.at.Batch? || !Member(c.at.rest, row) || row >= |c.rows| || outcome == Pending then c
      else
        var rest := Without(c.at.rest, row);
        c.(rows := c.rows[row := c.rows[row].(state := outcome)],
           log := c.log + [Dispatch(row, c.at.content, c.approved)],
           at := if rest == [] then Looping(c.at.content) else Batch(c.at.content, rest))
    case Straggle(i, outcome) =>
      if i >= |c.stragglers| || c.stragglers[i].row >= |c.rows| || outcome == Pending then c
      else
        var d := c.stragglers[i];
        c.(rows := c.rows[d.row := c.rows[d.row].(state := outcome)], log := c.log + [d],
           stragglers := c.stragglers[..i] + c.stragglers[i + 1..])
    case CountRows(state) => if c.at.Counting? then c.(at := CountOne(c.at, c.rows, state)) else c
    case Finish =>
      if !c.at.Counting? || c.at.delivered.None? || c.at.failed.None? || c.at.skipped.None? then c
      else if c.status != Sending then c.(at := Idle)
      else
        c.(status := Sent, delivered := c.at.delivered.value, failed := c.at.failed.value,
           skipped := c.at.skipped.value, at := Idle)
    case Fail => if c.at == Idle then c else GiveUp(c)
    case Crash => c.(at := Idle, stragglers := [])
  }

  /** The three counts are three reads, in any order. */
  function CountOne(at: Point, rows: seq<Row>, state: Delivery): Point
    requires at.Counting?
  {
    match state
    case Pending => at
    case Delivered => at.(delivered := Some(Count(rows, Delivered)))
    case Undelivered => at.(failed := Some(Count(rows, Undelivered)))
    case Skipped => at.(skipped := Some(Count(rows, Skipped)))
  }

  /** When a batch breaks off, its other messages are under way all the same. */
  function Left(c: Campaign): (ds: seq<Dispatch>)
    ensures c.at.Batch? ==> |ds| == |c.at.rest|
    ensures c.at.Batch? ==>
      forall i :: 0 <= i < |ds| ==> ds[i] == Dispatch(c.at.rest[i], c.at.content, c.approved)
    ensures !c.at.Batch? ==> ds == []
  {
    if c.at.Batch?
    then seq(|c.at.rest|, i requires 0 <= i < |c.at.rest| => Dispatch(c.at.rest[i], c.at.content, c.approved))
    else []
  }

  function Resend(c: Campaign): Campaign {
    if c.status !in {Draft, Scheduled, Failed} || !Sendable(c) then c
    else c.(status := Scheduled, rows := if c.status == Failed then Retried(c.rows) else c.rows)
  }

  function GiveUp(c: Campaign): Campaign {
    c.(status := if c.status == Sending then Failed else c.status, at := Idle, stragglers := c.stragglers + Left(c))
  }

  function Run(c: Campaign, steps: seq<Step>): Campaign {
    if steps == [] then c else Next(Run(c, steps[..|steps| - 1]), steps[|steps| - 1])
  }

  function NewCampaign(vendor: bool, content: Content): Campaign {
    Campaign(vendor, content, Draft, if vendor then Awaiting else NotRequired, None, [], 0, 0, 0, 0, Idle, 0, [], [],
             true)
  }

  // ----- what every run keeps -----

  ghost predicate Settled(rows: seq<Row>) {
    forall i :: 0 <= i < |rows| ==> rows[i].state != Pending
  }

  /** The counts read so far are those of the rows. */
  ghost predicate Tallied(rows: seq<Row>, delivered: Option<nat>, failed: Option<nat>, skipped: Option<nat>) {
    && (delivered.Some? ==> delivered.value == Count(rows, Delivered))
    && (failed.Some? ==> failed.value == Count(rows, Undelivered))
    && (skipped.Some? ==> skipped.value == Count(rows, Skipped))
  }

  ghost predicate BatchOk(rows: seq<Row>, rest: seq<nat>) {
    && 0 < |rest| <= BATCH && Distinct(rest)
    && (forall i :: 0 <= i < |rest| ==> rest[i] < |rows|)
  }

  /** Nobody else has written the rows of the batch. */
  ghost predicate BatchPending(rows: seq<Row>, rest: seq<nat>) {
    forall i :: 0 <= i < |rest| ==> rest[i] < |rows| && rows[rest[i]].state == Pending
  }

  ghost predicate UsersApart(rows: seq<Row>) {
    forall i, j :: 0 <= i < j < |rows| ==> rows[i].user != rows[j].user
  }

  ghost predicate Approvals(c: Campaign) {
    && (c.vendor <==> c.approval != NotRequired)
    && (c.vendor && c.approval == Approved ==> c.approved == Some(c.content))
    && (c.vendor && c.status !in {Draft, Cancelled} ==> c.approval == Approved)
    && (forall i :: 0 <= i < |c.log| && c.vendor ==> c.log[i].approved == Some(c.log[i].content))
    && (forall i :: 0 <= i < |c.stragglers| && c.vendor ==> c.stragglers[i].approved == Some(c.stragglers[i].content))
  }

  /** The dispatcher works on a campaign nobody can edit any more. */
  ghost predicate Position(c: Campaign) {
    && (c.at != Idle ==> c.status in {Sending, Cancelled})
    && (c.vendor && c.at !in {Idle, Claimed} ==> c.approval == Approved)
    && match c.at
       case Idle => true
       case Claimed => true
       case Loaded(content) => content == c.content
       case Rowed(content, n) => content == c.content && n <= |c.rows|
       case Looping(content) => content == c.content && c.total <= |c.rows|
       case Batch(content, rest) => content == c.content && c.total <= |c.rows| && BatchOk(c.rows, rest)
       case Counting(d, f, s) =>
         && c.total <= |c.rows| && Settled(c.rows)
         && (c.steady ==> c.stragglers == [] && Tallied(c.rows, d, f, s))
  }

  ghost predicate Accounted(c: Campaign) {
    c.status == Sent ==>
      && c.at == Idle && Settled(c.rows) && c.total <= |c.rows|
      && (c.steady ==> c.delivered + c.failed + c.skipped == |c.rows|)
  }

  ghost predicate Inv(c: Campaign) {
    && Approvals(c) && Position(c) && Accounted(c) && UsersApart(c.rows)
    && (forall i :: 0 <= i < |c.stragglers| ==> c.stragglers[i].row < |c.rows|)
  }

  // ----- rows -----

  lemma {:induction false} CountReplace(rows: seq<Row>, i: nat, row: Row, s: Delivery)
    requires i < |rows|
    ensures Count(rows[i := row], s) == Count(rows, s) - (if rows[i].state == s then 1 else 0) + if row.state == s then 1 else 0
  {
    var k := |rows| - 1;
    if i < k {
      CountReplace(rows[..k], i, row, s);
      assert rows[i := row][..k] == rows[..k][i := row];
    } else {
      assert rows[i := row][..k] == rows[..k];
    }
  }

  lemma {:induction false} CountsCover(rows: seq<Row>)
    ensures Count(rows, Pending) + Count(rows, Delivered) + Count(rows, Undelivered) + Count(rows, Skipped) == |rows|
    ensures Settled(rows) <==> Count(rows, Pending) == 0
  {
    if rows != [] {
      var k := |rows| - 1;
      CountsCover(rows[..k]);
      assert Settled(rows) <==> Settled(rows[..k]) && rows[k].state != Pending;
    }
  }

  lemma {:induction false} PendingRows(rows: seq<Row>, from: nat)
    requires from <= |rows|
    ensures var p := PendingFrom(rows, from);
            && (forall i :: 0 <= i < |p| ==> from <= p[i] < |rows| && rows[p[i]].state == Pending)
            && (forall i, j :: 0 <= i < j < |p| ==> p[i] < p[j])
            && (p == [] ==> forall i :: from <= i < |rows| ==> rows[i].state != Pending)
    decreases |rows| - from
  {
    if from < |rows| {
      PendingRows(rows, from + 1);
    }
  }

  lemma NextBatchIsOk(rows: seq<Row>)
    ensures NextBatch(rows) == [] ==> Settled(rows)
    ensures NextBatch(rows) != [] ==> BatchOk(rows, NextBatch(rows)) && BatchPending(rows, NextBatch(rows))
  {
    PendingRows(rows, 0);
  }

  lemma {:induction false} WithoutMember(s: seq<nat>, x: nat)
    requires Distinct(s) && Member(s, x)
    ensures var w := Without(s, x);
            && |w| == |s| - 1 && Distinct(w)
            && forall i :: 0 <= i < |w| ==> Member(s, w[i]) && w[i] != x
  {
    if s[0] != x {
      assert Member(s[1..], x) by {
        var i :| 0 <= i < |s| && s[i] == x;
        assert s[1..][i - 1] == x;
      }
      WithoutMember(s[1..], x);
      var w := Without(s, x);
      forall i | 0 <= i < |w| ensures Member(s, w[i]) && w[i] != x {
        if i > 0 {
          assert Member(s[1..], w[i]);
          var j :| 0 <= j < |s[1..]| && s[1..][j] == w[i];
          assert s[j + 1] == w[i];
        } else {
          assert s[0] == w[0];
        }
      }
      forall i, j | 0 <= i < j < |w| ensures w[i] != w[j] {
        if i == 0 {
          assert Member(s[1..], w[j]);
          var k :| 0 <= k < |s[1..]| && s[1..][k] == w[j];
          assert s[k + 1] == w[j];
        }
      }
    } else {
      var w := Without(s, x);
      forall i | 0 <= i < |w| ensures Member(s, w[i]) && w[i] != x {
        assert s[i + 1] == w[i];
      }
    }
  }

  // ----- one row per user -----

  lemma {:induction false} AddRowsKeeps(rows: seq<Row>, users: seq<nat>)
    requires UsersApart(rows)
    ensures UsersApart(AddRows(rows, users)) && rows <= AddRows(rows, users)
    ensures forall u :: Member(users, u) ==> Present(AddRows(rows, users), u)
    ensures forall i :: |rows| <= i < |AddRows(rows, users)| ==>
      AddRows(rows, users)[i].state == Pending && Member(users, AddRows(rows, users)[i].user)
    decreases |users|
  {
    if users != [] {
      var next := if Present(rows, users[0]) then rows else rows + [Row(users[0], Pending)];
      assert Present(next, users[0]) by {
        if !Present(rows, users[0]) {
          assert next[|rows|].user == users[0];
        }
      }
      AddRowsKeeps(next, users[1..]);
      var all := AddRows(rows, users);
      PresentInLonger(next, all, users[0]);
      forall i | |rows| <= i < |all| ensures all[i].state == Pending && Member(users, all[i].user) {
        if i < |next| {
          assert all[i] == next[i] == Row(users[0], Pending) && Member(users, users[0]);
        } else {
          assert Member(users[1..], all[i].user);
          var j :| 0 <= j < |users[1..]| && users[1..][j] == all[i].user;
          assert users[j + 1] == all[i].user;
        }
      }
      forall u | Member(users, u) ensures Present(all, u) {
        var i :| 0 <= i < |users| && users[i] == u;
        if i > 0 {
          assert users[1..][i - 1] == u;
          assert Member(users[1..], u);
        }
      }
    }
  }

  lemma PresentInLonger(a: seq<Row>, b: seq<Row>, user: nat)
    requires a <= b && Present(a, user)
    ensures Present(b, user)
  {
    var i :| 0 <= i < |a| && a[i].user == user;
    assert b[i].user == user;
  }

  /** Distinct users that all have rows are no more than there are rows. */
  lemma {:induction false} NoMoreUsersThanRows(users: seq<nat>, rows: seq<Row>)
    requires Distinct(users) && forall u :: Member(users, u) ==> Present(rows, u)
    ensures |users| <= |rows|
    decreases |rows|
  {
    if users != [] {
      var u := users[|users| - 1];
      assert Member(users, u);
      var i :| 0 <= i < |rows| && rows[i].user == u;
      var fewer, others := users[..|users| - 1], rows[..i] + rows[i + 1..];
      forall v | Member(fewer, v) ensures Present(others, v) {
        var j :| 0 <= j < |fewer| && fewer[j] == v;
        assert users[j] == v && v != u;
        assert Member(users, v);
        var k :| 0 <= k < |rows| && rows[k].user == v;
        assert others[if k < i then k else k - 1] == rows[k];
      }
      NoMoreUsersThanRows(fewer, others);
    }
  }

  // ----- one step -----

  lemma ManagementKeeps(c: Campaign, step: Step)
    requires Inv(c)
    requires step.EditByStaff? || step.EditByStore? || step.Review? || step.Schedule? || step.ScheduleByStore? || step.Cancel?
    ensures Inv(Next(c, step))
  {
  }

  lemma ResendKeeps(c: Campaign)
    requires Inv(c)
    ensures Inv(Resend(c))
  {
    assert UsersApart(Retried(c.rows));
  }

  lemma StartKeeps(c: Campaign, step: Step)
    requires Inv(c)
    requires step.Reclaim? || step.Claim? || step.Load? || step.SetTotal? || step.Fail? || step.Crash?
    ensures Inv(Next(c, step))
  {
  }

  lemma FinishKeeps(c: Campaign)
    requires Inv(c)
    ensures Inv(Next(c, Finish))
  {
    CountsCover(c.rows);
    hide Count;
  }

  lemma ResolveKeeps(c: Campaign, users: seq<nat>)
    requires Inv(c)
    ensures Inv(Next(c, Resolve(users)))
  {
    AddRowsKeeps(c.rows, users);
    if Distinct(users) {
      NoMoreUsersThanRows(users, AddRows(c.rows, users));
    }
  }

  lemma CheckKeeps(c: Campaign)
    requires Inv(c)
    ensures Inv(Next(c, Check))
  {
    NextBatchIsOk(c.rows);
  }

  lemma CountKeeps(c: Campaign, state: Delivery)
    requires Inv(c)
    ensures Inv(Next(c, CountRows(state)))
  {
    hide Count;
  }

  /** One answer of a batch is written; if its row was still pending, one pending row less. */
  lemma DeliverRows(rows: seq<Row>, rest: seq<nat>, row: nat, outcome: Delivery)
    requires BatchOk(rows, rest) && UsersApart(rows) && Member(rest, row) && row < |rows| && outcome != Pending
    ensures var after := rows[row := rows[row].(state := outcome)];
            && UsersApart(after)
            && Count(after, Pending) == Count(rows, Pending) - (if rows[row].state == Pending then 1 else 0)
            && (Without(rest, row) != [] ==> BatchOk(after, Without(rest, row)))
            && (BatchPending(rows, rest) ==> BatchPending(after, Without(rest, row)))
            && |Without(rest, row)| == |rest| - 1
  {
    WithoutMember(rest, row);
    CountReplace(rows, row, rows[row].(state := outcome), Pending);
    var after, w := rows[row := rows[row].(state := outcome)], Without(rest, row);
    forall i | 0 <= i < |w| ensures w[i] < |after| && (BatchPending(rows, rest) ==> after[w[i]].state == Pending) {
      assert Member(rest, w[i]) && w[i] != row;
    }
  }

  lemma DeliverKeeps(c: Campaign, row: nat, outcome: Delivery)
    requires Inv(c)
    ensures Inv(Next(c, Deliver(row, outcome)))
  {
    if c.at.Batch? && Member(c.at.rest, row) && row < |c.rows| && outcome != Pending {
      DeliverRows(c.rows, c.at.rest, row, outcome);
    }
  }

  lemma StraggleKeeps(c: Campaign, i: nat, outcome: Delivery)
    requires Inv(c)
    ensures Inv(Next(c, Straggle(i, outcome)))
  {
    hide Count;
  }

  lemma StepKeeps(c: Campaign, step: Step)
    requires Inv(c)
    ensures Inv(Next(c, step))
  {
    hide Inv;
    match step
    case SendNow =>
      ResendKeeps(c);
    case SendByStore =>
      ResendKeeps(c);
    case Resolve(users) =>
      ResolveKeeps(c, users);
    case Check =>
      CheckKeeps(c);
    case CountRows(state) =>
      CountKeeps(c, state);
    case Finish =>
      FinishKeeps(c);
    case Deliver(row, outcome) =>
      DeliverKeeps(c, row, outcome);
    case Straggle(i, outcome) =>
      StraggleKeeps(c, i, outcome);
    case EditByStaff(_) =>
      ManagementKeeps(c, step);
    case EditByStore(_) =>
      ManagementKeeps(c, step);
    case Review(_) =>
      ManagementKeeps(c, step);
    case Schedule =>
      ManagementKeeps(c, step);
    case ScheduleByStore =>
      ManagementKeeps(c, step);
    case Cancel =>
      ManagementKeeps(c, step);
    case _ =>
      StartKeeps(c, step);
  }

  // ----- whole runs -----

  lemma {:induction false} RunKeeps(c: Campaign, steps: seq<Step>)
    requires Inv(c)
    ensures Inv(Run(c, steps))
  {
    hide Inv, Next;
    if steps != [] {
      RunKeeps(c, steps[..|steps| - 1]);
      StepKeeps(Run(c, steps[..|steps| - 1]), steps[|steps| - 1]);
    }
  }

  /** Every campaign, however it was handled, keeps the invariant. */
  lemma EveryRunIsConsistent(vendor: bool, content: Content, steps: seq<Step>)
    ensures Inv(Run(NewCampaign(vendor, content), steps))
  {
    RunKeeps(NewCampaign(vendor, content), steps);
  }

  /**
   At SENT every row is settled and every recipient has one; and if no message of an earlier batch
   was still under way when counting began, the three counts add up to the rows.
   */
  lemma SentIsAccounted(vendor: bool, content: Content, steps: seq<Step>)
    ensures var c := Run(NewCampaign(vendor, content), steps);
            c.status == Sent ==>
              && c.total <= |c.rows| && Settled(c.rows)
              && (c.steady ==> c.delivered + c.failed + c.skipped == |c.rows|)
  {
    EveryRunIsConsistent(vendor, content, steps);
  }

  /** Whatever was dispatched for a vendor was, word for word, the content last approved. */
  lemma DispatchedAsApproved(vendor: bool, content: Content, steps: seq<Step>, i: nat)
    ensures var c := Run(NewCampaign(vendor, content), steps);
            vendor && i < |c.log| ==> c.log[i].approved == Some(c.log[i].content)
  {
    EveryRunIsConsistent(vendor, content, steps);
    VendorStays(NewCampaign(vendor, content), steps);
  }

  lemma {:induction false} VendorStays(c: Campaign, steps: seq<Step>)
    ensures Run(c, steps).vendor == c.vendor
  {
    hide Next;
    if steps != [] {
      VendorStays(c, steps[..|steps| - 1]);
      VendorKept(Run(c, steps[..|steps| - 1]), steps[|steps| - 1]);
    }
  }

  lemma VendorKept(c: Campaign, step: Step)
    ensures Next(c, step).vendor == c.vendor
  {
  }

  /** Messages already started: of the batch under way, and of batches that broke off. */
  function InFlight(c: Campaign): nat {
    (if c.at.Batch? then |c.at.rest| else 0) + |c.stragglers|
  }

  /** What a step can do to a cancelled or sent campaign. */
  lemma FinalStep(c: Campaign, step: Step)
    requires Inv(c) && c.status in {Cancelled, Sent}
    ensures var n := Next(c, step);
            && n.status == c.status && n.batches == c.batches
            && |n.log| + InFlight(n) <= |c.log| + InFlight(c)
  {
    if step.Deliver? && c.at.Batch? && Member(c.at.rest, step.row) {
      WithoutMember(c.at.rest, step.row);
    }
  }

  /**
   A cancelled campaign stays cancelled and never becomes SENT, a sent one stays sent; no further
   batch is started, and only messages already under way still go out: at most 25 of the batch at
   work, and those of batches that broke off.
   */
  lemma {:induction false} CancelledStops(c: Campaign, steps: seq<Step>)
    requires Inv(c) && c.status in {Cancelled, Sent}
    ensures var n := Run(c, steps);
            && n.status == c.status && n.batches == c.batches
            && |n.log| + InFlight(n) <= |c.log| + InFlight(c) <= |c.log| + BATCH + |c.stragglers|
            && c.log <= n.log
            && (c.status == Sent && c.stragglers == [] ==> n.log == c.log)
  {
    if steps != [] {
      var k := |steps| - 1;
      CancelledStops(c, steps[..k]);
      RunKeeps(c, steps[..k]);
      hide Inv;
      FinalStep(Run(c, steps[..k]), steps[k]);
      LogGrows(Run(c, steps[..k]), steps[k]);
    }
    SentIsIdle(c);
  }

  lemma SentIsIdle(c: Campaign)
    requires Inv(c)
    ensures c.status == Sent ==> InFlight(c) == |c.stragglers|
    ensures InFlight(c) <= BATCH + |c.stragglers|
  {
  }

  lemma LogGrows(c: Campaign, step: Step)
    ensures c.log <= Next(c, step).log
  {
  }

  // ----- the counts -----

  /** While no further batch is started, nothing disturbs the counting. */
  ghost predicate Undisturbed(c: Campaign) {
    && !c.at.Batch? && c.stragglers == []
    && (c.at.Counting? ==> Tallied(c.rows, c.at.delivered, c.at.failed, c.at.skipped))
    && (c.status == Sent ==> c.delivered + c.failed + c.skipped == |c.rows|)
  }

  lemma UndisturbedStep(c: Campaign, step: Step)
    requires Inv(c) && Undisturbed(c)
    ensures Next(c, step).batches == c.batches ==> Undisturbed(Next(c, step))
  {
    CountsCover(c.rows);
    hide Count;
  }

  lemma {:induction false} UndisturbedRun(c: Campaign, steps: seq<Step>)
    requires Inv(c) && Undisturbed(c)
    ensures Run(c, steps).batches >= c.batches
    ensures Run(c, steps).batches == c.batches ==> Undisturbed(Run(c, steps))
  {
    if steps != [] {
      var k := |steps| - 1;
      UndisturbedRun(c, steps[..k]);
      RunKeeps(c, steps[..k]);
      BatchesGrow(Run(c, steps[..k]), steps[k]);
      hide Inv, Undisturbed, Next;
      if Run(c, steps[..k]).batches == c.batches {
        UndisturbedStep(Run(c, steps[..k]), steps[k]);
      }
    }
  }

  lemma BatchesGrow(c: Campaign, step: Step)
    ensures Next(c, step).batches >= c.batches
  {
  }

  ghost predicate SentAndOff(c: Campaign) {
    c.status == Sent && c.delivered + c.failed + c.skipped != |c.rows|
  }

  /**
   A campaign about to be counted can be SENT with counts that do not add up, without another
   batch, exactly when a message of a batch that broke off is still under way.
   */
  lemma CountsAddUpExactly(c: Campaign)
    requires Inv(c) && c.at == Counting(None, None, None) && c.status == Sending
    ensures (forall steps :: Run(c, steps).batches == c.batches ==> !SentAndOff(Run(c, steps))) <==> c.stragglers == []
  {
    if c.stragglers == [] {
      forall steps | Run(c, steps).batches == c.batches ensures !SentAndOff(Run(c, steps)) {
        UndisturbedRun(c, steps);
        RunKeeps(c, steps);
      }
    } else {
      var steps := CountsCanBeOff(c);
    }
  }

  /** The state a straggler's row is given so that it is counted twice. */
  function Other(s: Delivery): Delivery {
    if s == Delivered then Skipped else Delivered
  }

  function Third(s: Delivery): Delivery {
    if s == Undelivered then Skipped else Undelivered
  }

  lemma CountsCanBeOff(c: Campaign) returns (steps: seq<Step>)
    requires Inv(c) && c.at == Counting(None, None, None) && c.status == Sending && c.stragglers != []
    ensures Run(c, steps).batches == c.batches && SentAndOff(Run(c, steps))
  {
    var row := c.stragglers[0].row;
    var first := c.rows[row].state;
    var second := Other(first);
    var a, b, d, e := CountRows(first), Straggle(0, second), CountRows(second), CountRows(Third(first));
    steps := [a, b, d, e, Finish];
    RunFive(c, a, b, d, e, Finish);
    CountedTwice(c, row);
  }

  lemma RunFive(c: Campaign, a: Step, b: Step, d: Step, e: Step, f: Step)
    ensures Run(c, [a, b, d, e, f]) == Next(Next(Next(Next(Next(c, a), b), d), e), f)
  {
    hide Next;
    assert [a][..0] == [] && [a, b][..1] == [a] && [a, b, d][..2] == [a, b] && [a, b, d, e][..3] == [a, b, d];
    assert [a, b, d, e, f][..4] == [a, b, d, e];
    assert Run(c, [a]) == Next(c, a);
    assert Run(c, [a, b]) == Next(Next(c, a), b);
    assert Run(c, [a, b, d]) == Next(Next(Next(c, a), b), d);
  }

  lemma CountedTwice(c: Campaign, row: nat)
    requires Inv(c) && c.at == Counting(None, None, None) && c.status == Sending && c.stragglers != []
    requires row == c.stragglers[0].row
    ensures var first := c.rows[row].state;
            var n := Next(Next(Next(Next(Next(c, CountRows(first)), Straggle(0, Other(first))), CountRows(Other(first))),
                               CountRows(Third(first))), Finish);
            n.batches == c.batches && n.status == Sent && n.delivered + n.failed + n.skipped == |n.rows| + 1
  {
    var first := c.rows[row].state;
    var after := c.rows[row := c.rows[row].(state := Other(first))];
    OneTooMany(c.rows, row, after);
    hide Count;
    assert Settled(c.rows) && row < |c.rows| && first != Pending;
    hide Inv, Next;
    CountStep(c, first);
    var one := Next(c, CountRows(first));
    StraggleStep(one, Other(first));
    var two := Next(one, Straggle(0, Other(first)));
    CountStep(two, Other(first));
    var three := Next(two, CountRows(Other(first)));
    CountStep(three, Third(first));
    FinishStep(Next(three, CountRows(Third(first))));
  }

  lemma CountStep(c: Campaign, state: Delivery)
    requires c.at.Counting?
    ensures Next(c, CountRows(state)) == c.(at := CountOne(c.at, c.rows, state))
  {
  }

  lemma StraggleStep(c: Campaign, outcome: Delivery)
    requires c.stragglers != [] && c.stragglers[0].row < |c.rows| && outcome != Pending
    ensures var n, row := Next(c, Straggle(0, outcome)), c.stragglers[0].row;
            && n.rows == c.rows[row := c.rows[row].(state := outcome)]
            && n.at == c.at && n.status == c.status && n.batches == c.batches
  {
  }

  lemma FinishStep(c: Campaign)
    requires c.at.Counting? && c.at.delivered.Some? && c.at.failed.Some? && c.at.skipped.Some? && c.status == Sending
    ensures Next(c, Finish)
         == c.(status := Sent, delivered := c.at.delivered.value, failed := c.at.failed.value,
               skipped := c.at.skipped.value, at := Idle)
  {
  }

  lemma OneTooMany(rows: seq<Row>, row: nat, after: seq<Row>)
    requires row < |rows| && Settled(rows) && after == rows[row := rows[row].(state := Other(rows[row].state))]
    ensures var first := rows[row].state;
            Count(rows, first) + Count(after, Other(first)) + Count(after, Third(first)) == |rows| + 1
  {
    var first := rows[row].state;
    CountReplace(rows, row, after[row], Other(first));
    CountReplace(rows, row, after[row], Third(first));
    CountsCover(rows);
    hide Count;
  }
}
