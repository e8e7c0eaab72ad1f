/** The dispatcher's own code: it claims nothing, it is given a claimed campaign and works it off. */
module Dispatcher {
  import opened Outcome
  import opened Campaign

  /** What the notification service answers for one recipient; an exception is no answer. */
  datatype Answer = Answer(inApp: bool, successful: nat, failed: nat)

  function Classify(a: Option<Answer>): Delivery {
    if a.None? then Undelivered
    else if a.value.inApp || a.value.successful > 0 then Delivered
    else if a.value.failed > 0 then Undelivered
    else Skipped
  }

  /** Delivered means seen in the app or taken by a device; failed, that nobody answered or every push failed. */
  predicate Answered(a: Option<Answer>, s: Delivery) {
    match s
    case Delivered => a.Some? && (a.value.inApp || a.value.successful > 0)
    case Undelivered => a.None? || (!a.value.inApp && a.value.successful == 0 && a.value.failed > 0)
    case Skipped => a.Some? && !a.value.inApp && a.value.successful == 0 && a.value.failed == 0
    case Pending => false
  }

  lemma ClassifiedAsAnswered(a: Option<Answer>)
    ensures Answered(a, Classify(a)) && Classify(a) != Pending
  {
  }

  /** The rows of the batch have the outcomes their answers demand, all others are as they were. */
  ghost predicate BatchAnswered(
    before: seq<Row>, after: seq<Row>, batch: seq<nat>, ask: (nat, Content) -> Option<Answer>, content: Content)
  {
    && |after| == |before|
    && (forall i :: 0 <= i < |after| ==> after[i].user == before[i].user)
    && (forall i :: 0 <= i < |after| && i in batch ==> Answered(ask(before[i].user, content), after[i].state))
    && (forall i :: 0 <= i < |after| && i !in batch ==> after[i] == before[i])
  }

  /** Rows that were pending are as they were or have the outcome their answer demands; no other row changed. */
  ghost predicate Answering(before: seq<Row>, after: seq<Row>, ask: (nat, Content) -> Option<Answer>, content: Content) {
    && |after| == |before|
    && (forall i :: 0 <= i < |after| ==> after[i].user == before[i].user)
    && (forall i :: 0 <= i < |after| ==>
      after[i] == before[i] || (before[i].state == Pending && Answered(ask(before[i].user, content), after[i].state)))
  }

  lemma BatchIsAnswering(
    start: seq<Row>, before: seq<Row>, after: seq<Row>, batch: seq<nat>, ask: (nat, Content) -> Option<Answer>, content: Content)
    requires Answering(start, before, ask, content) && BatchAnswered(before, after, batch, ask, content)
    requires BatchPending(before, batch)
    ensures Answering(start, after, ask, content)
  {
    forall i | 0 <= i < |after|
      ensures after[i] == start[i] || (start[i].state == Pending && Answered(ask(start[i].user, content), after[i].state))
    {
      if i in batch {
        var k :| 0 <= k < |batch| && batch[k] == i;
        assert before[batch[k]].state == Pending;
      }
    }
  }

  /** Every row that was pending has its outcome, and no other row changed. */
  ghost predicate AllAnswered(before: seq<Row>, after: seq<Row>, ask: (nat, Content) -> Option<Answer>, content: Content) {
    && |after| == |before|
    && (forall i :: 0 <= i < |after| ==> after[i].user == before[i].user)
    && (forall i :: 0 <= i < |after| ==>
      if before[i].state == Pending then Answered(ask(before[i].user, content), after[i].state) else after[i] == before[i])
  }

  lemma SettledIsAnswered(c: Campaign, before: seq<Row>, ask: (nat, Content) -> Option<Answer>, content: Content)
    requires Inv(c) && c.at.Counting? && Answering(before, c.rows, ask, content)
    ensures AllAnswered(before, c.rows, ask, content)
  {
  }

  class PushCampaign {
    const vendor: bool
    var content: Content
    var status: Status
    var approval: Approval
    var rows: seq<Row>
    var total: nat
    var delivered: nat
    var failed: nat
    var skipped: nat
    ghost var approved: Option<Content>
    ghost var at: Point
    ghost var batches: nat
    ghost var log: seq<Dispatch>
    ghost var stragglers: seq<Dispatch>
    ghost var steady: bool

    ghost function Snapshot(): Campaign
      reads this
    {
      Campaign(vendor, content, status, approval, approved, rows, total, delivered, failed, skipped, at, batches, log,
               stragglers, steady)
    }

    constructor (vendor: bool, content: Content)
      ensures Snapshot() == NewCampaign(vendor, content)
    {
      this.vendor := vendor;
      this.content := content;
      status := Draft;
      approval := if vendor then Awaiting else NotRequired;
      rows, total, delivered, failed, skipped := [], 0, 0, 0, 0;
      approved, at, batches, log, stragglers, steady := None, Idle, 0, [], [], true;
    }

    /** One delivery row per recipient; those who have one already keep it. */
    method CreateRows(users: seq<nat>)
      requires at.Loaded? && Distinct(users)
      modifies this`rows, this`at
      ensures Snapshot() == Next(old(Snapshot()), Resolve(users)) && at == Rowed(old(at).content, |users|)
      ensures rows == AddRows(old(rows), users)
    {
      ghost var start := rows;
      var i := 0;
      assert users[0..] == users;
      while i < |users|
        invariant i <= |users| && AddRows(rows, users[i..]) == AddRows(start, users)
        invariant at == old(at)
      {
        assert users[i..][0] == users[i] && users[i..][1..] == users[i + 1..];
        if !Present(rows, users[i]) {
          rows := rows + [Row(users[i], Pending)];
        }
        i := i + 1;
      }
      at := Rowed(at.content, |users|);
    }

    /** The first row of the batch gets its answer. */
    method RecordAnswer(row: nat, state: Delivery)
      requires Inv(Snapshot()) && at.Batch? && BatchPending(rows, at.rest) && at.rest[0] == row && state != Pending
      modifies this`rows, this`at, this`log
      ensures Snapshot() == Next(old(Snapshot()), Deliver(row, state)) && Inv(Snapshot())
      ensures Count(rows, Pending) == Count(old(rows), Pending) - 1 && |rows| == |old(rows)|
      ensures BatchPending(rows, old(at).rest[1..])
      ensures row < |old(rows)| && rows == old(rows)[row := old(rows)[row].(state := state)]
      ensures at == if |old(at).rest| == 1 then Looping(old(at).content) else Batch(old(at).content, old(at).rest[1..])
    {
      SendOne(Snapshot(), row, state);
      hide Inv, Count, Next, BatchPending;
      log := log + [Dispatch(row, at.content, approved)];
      rows := rows[row := rows[row].(state := state)];
      at := if |at.rest| == 1 then Looping(at.content) else Batch(at.content, at.rest[1..]);
    }

    /** Sends one batch, row by row, and records each answer. */
    method SendBatch(batch: seq<nat>, ask: (nat, Content) -> Option<Answer>, ghost steps: seq<Step>, ghost start: Campaign)
      returns (ghost now: seq<Step>)
      requires batch != [] && Inv(Snapshot()) && at == Batch(content, batch) && BatchPending(rows, batch)
      requires Snapshot() == Run(start, steps)
      modifies this`rows, this`at, this`log
      ensures Inv(Snapshot()) && at == Looping(content) && Snapshot() == Run(start, now)
      ensures Count(rows, Pending) == Count(old(rows), Pending) - |batch|
      ensures BatchAnswered(old(rows), rows, batch, ask, content)
    {
      hide Inv, Next, Count, Run, Classify, BatchPending, Answered;
      now := steps;
      var rest := batch;
      StillBegins(rows, batch, ask, content);
      while rest != []
        invariant Inv(Snapshot()) && Snapshot() == Run(start, now) && BatchPending(rows, rest)
        invariant at == if rest == [] then Looping(content) else Batch(content, rest)
        invariant Count(rows, Pending) == Count(old(rows), Pending) - |batch| + |rest|
        invariant Still(old(rows), rows, batch, rest, ask, content)
      {
        var row := rest[0];
        BatchInRange(Snapshot());
        var answer := ask(rows[row].user, content);
        var state := Classify(answer);
        ClassifiedAsAnswered(answer);
        StillOn(old(rows), rows, batch, rest, ask, content, state);
        hide Still;
        RunMore(start, now, Deliver(row, state));
        RecordAnswer(row, state);
        now := now + [Deliver(row, state)];
        rest := rest[1..];
      }
      StillEnds(old(rows), rows, batch, ask, content);
    }

    method LoadContent(storeActive: bool) returns (loaded: bool)
      requires Inv(Snapshot()) && at == Claimed && status == Sending
      modifies this`status, this`at
      ensures Snapshot() == Next(old(Snapshot()), Load(storeActive)) && Inv(Snapshot())
      ensures loaded == (vendor ==> storeActive)
      ensures if loaded then at == Loaded(content) && status == Sending else at == Idle && status == Failed
    {
      StepKeeps(Snapshot(), Load(storeActive));
      loaded := !vendor || (approval == Approved && storeActive);
      if loaded {
        at := Loaded(content);
      } else {
        status := Failed;
        at := Idle;
      }
    }

    /** An exception anywhere ends the work; a campaign still SENDING is FAILED. */
    method MarkFailed()
      requires Inv(Snapshot()) && at != Idle
      modifies this`status, this`at, this`stragglers
      ensures Snapshot() == Next(old(Snapshot()), Fail) && Inv(Snapshot())
      ensures at == Idle && status == if old(status) == Sending then Failed else old(status)
    {
      StepKeeps(Snapshot(), Fail);
      if status == Sending {
        status := Failed;
      }
      stragglers := stragglers + Left(Snapshot().(status := old(status)));
      at := Idle;
    }

    method WriteTotal(recipients: nat)
      requires Inv(Snapshot()) && at.Rowed? && recipients == at.recipients
      modifies this`total, this`at
      ensures Snapshot() == Next(old(Snapshot()), SetTotal) && Inv(Snapshot())
      ensures total == recipients && at == Looping(content)
    {
      StepKeeps(Snapshot(), SetTotal);
      total := recipients;
      at := Looping(content);
    }

    /** Looks at the status and for pending rows before every batch. */
    method CheckStatus() returns (batch: seq<nat>)
      requires Inv(Snapshot()) && at == Looping(content)
      modifies this`at, this`batches, this`steady
      ensures Snapshot() == Next(old(Snapshot()), Check) && Inv(Snapshot())
      ensures status != Sending ==> at == Idle
      ensures status == Sending && batch == [] ==> at == Counting(None, None, None)
      ensures status == Sending && batch != [] ==> at == Batch(content, batch) && BatchPending(rows, batch)
    {
      StepKeeps(Snapshot(), Check);
      NextBatchIsOk(rows);
      batch := NextBatch(rows);
      if status != Sending {
        at := Idle;
      } else if batch == [] {
        at := Counting(None, None, None);
        steady := stragglers == [];
      } else {
        at := Batch(content, batch);
        batches := batches + 1;
      }
    }

    /** Somebody cancels while the dispatcher works. */
    method CancelSending()
      requires Inv(Snapshot()) && status == Sending
      modifies this`status
      ensures Snapshot() == Next(old(Snapshot()), Cancel) && Inv(Snapshot()) && status == Cancelled
    {
      StepKeeps(Snapshot(), Cancel);
      status := Cancelled;
    }

    method WriteCounts()
      requires Inv(Snapshot()) && at == Counting(None, None, None) && status == Sending
      modifies this`delivered, this`failed, this`skipped, this`status, this`at
      ensures Snapshot() == CountedAndSent(old(Snapshot())) && Inv(Snapshot())
      ensures status == Sent && at == Idle && delivered + failed + skipped == |rows|
      ensures delivered == Count(rows, Delivered) && failed == Count(rows, Undelivered) && skipped == Count(rows, Skipped)
    {
      Finished(Snapshot());
      hide Inv, Next, Count;
      var d, f, s := Count(rows, Delivered), Count(rows, Undelivered), Count(rows, Skipped);
      delivered, failed, skipped, status, at := d, f, s, Sent, Idle;
    }

    /** What may come between two batches: somebody cancels, something throws. */
    method Interfere(cancel: bool, breaks: bool, ghost steps: seq<Step>, ghost start: Campaign)
      returns (stopped: bool, ghost now: seq<Step>)
      requires Inv(Snapshot()) && at == Looping(content) && status == Sending && Snapshot() == Run(start, steps)
      modifies this`status, this`at, this`stragglers
      ensures Snapshot() == Run(start, now) && Inv(Snapshot()) && stopped == breaks
      ensures if breaks then at == Idle && status == (if cancel then Cancelled else Failed)
              else at == Looping(content) && status == if cancel then Cancelled else Sending
    {
      hide Inv, Next, Run;
      now := steps;
      if cancel {
        RunMore(start, now, Cancel);
        CancelSending();
        now := now + [Cancel];
      }
      if breaks {
        RunMore(start, now, Fail);
        MarkFailed();
        now := now + [Fail];
      }
      stopped := breaks;
    }

    /** The loop: stop when no longer SENDING, stop when nothing is left, else send the next batch. */
    method Drain(
      ask: (nat, Content) -> Option<Answer>, cancelled: nat -> bool, broken: nat -> bool, ghost steps: seq<Step>, ghost start: Campaign)
      returns (drained: bool, ghost now: seq<Step>)
      requires Inv(Snapshot()) && at == Looping(content) && status == Sending && Snapshot() == Run(start, steps)
      modifies this`rows, this`status, this`at, this`batches, this`log, this`steady, this`stragglers
      ensures Snapshot() == Run(start, now) && Inv(Snapshot())
      ensures drained ==> at == Counting(None, None, None) && status == Sending
      ensures !drained ==> at == Idle && status in {Cancelled, Failed}
      ensures !drained && status == Cancelled ==> exists i :: cancelled(i)
      ensures !drained && status == Failed ==> exists i :: broken(i)
      ensures Answering(old(rows), rows, ask, content)
      ensures drained ==> AllAnswered(old(rows), rows, ask, content)
    {
      hide Inv, Next, Run, Count, Answering, BatchAnswered, AllAnswered, BatchPending;
      AnsweringBegins(rows, ask, content);
      now := steps;
      var round := 0;
      while true
        invariant Snapshot() == Run(start, now) && Inv(Snapshot())
        invariant at == Looping(content) && status == Sending && Answering(old(rows), rows, ask, content)
        decreases Count(rows, Pending)
      {
        var stopped: bool;
        stopped, now := Interfere(cancelled(round), broken(round), now, start);
        if stopped {
          return false, now;
        }
        RunMore(start, now, Check);
        var batch := CheckStatus();
        now := now + [Check];
        if status != Sending {
          return false, now;
        }
        if batch == [] {
          SettledIsAnswered(Snapshot(), old(rows), ask, content);
          return true, now;
        }
        BatchIsPending(Snapshot());
        ghost var before := rows;
        now := SendBatch(batch, ask, now, start);
        BatchIsAnswering(old(rows), before, rows, batch, ask, content);
        round := round + 1;
      }
    }

    /** Content, delivery rows and recipient count, before the first batch. */
    method Prepare(storeActive: bool, users: seq<nat>, broken: bool) returns (loaded: bool, ghost steps: seq<Step>)
      requires Inv(Snapshot()) && at == Claimed && status == Sending && Distinct(users)
      modifies this`status, this`rows, this`total, this`at, this`stragglers
      ensures Snapshot() == Run(old(Snapshot()), steps) && Inv(Snapshot())
      ensures loaded == ((vendor ==> storeActive) && !broken)
      ensures if loaded then at == Looping(content) && status == Sending && total == |users| && rows == AddRows(old(rows), users)
              else at == Idle && status == Failed
    {
      hide Inv, Next, AddRows;
      ghost var start := Snapshot();
      steps := [Load(storeActive)];
      RunOne(start, Load(storeActive));
      hide Run, Distinct;
      loaded := LoadContent(storeActive);
      if !loaded {
        return;
      }
      if broken {
        RunMore(start, steps, Fail);
        MarkFailed();
        return false, steps + [Fail];
      }
      RunMore(start, steps, Resolve(users));
      CreateRows(users);
      steps := steps + [Resolve(users)];
      RunMore(start, steps, SetTotal);
      WriteTotal(|users|);
      steps := steps + [SetTotal];
    }

    /**
     Works a claimed campaign off, with anybody cancelling it between any two batches and an
     exception possible before the recipients, before every batch and before the counts. It always
     comes to an end, takes only steps of the machine, and leaves the campaign resolved: SENT
     unless it was cancelled, broke off or may not be sent.
     */
    method ProcessCampaign(
      storeActive: bool, users: seq<nat>, ask: (nat, Content) -> Option<Answer>, cancelled: nat -> bool,
      broken: nat -> bool, recipientsBroken: bool, countsBroken: bool)
      returns (ghost steps: seq<Step>)
      requires Inv(Snapshot()) && at == Claimed && status == Sending && Distinct(users)
      modifies this
      ensures Snapshot() == Run(old(Snapshot()), steps) && Inv(Snapshot())
      ensures at == Idle && status in {Sent, Failed, Cancelled}
      ensures (vendor && !storeActive) || recipientsBroken ==> status == Failed
      ensures status == Failed ==> (vendor && !storeActive) || recipientsBroken || countsBroken || exists i :: broken(i)
      ensures status == Cancelled ==> exists i :: cancelled(i)
      ensures status == Sent ==> delivered + failed + skipped == |rows| && total == |users|
      ensures status == Sent ==>
        && AllAnswered(AddRows(old(rows), users), rows, ask, content)
        && delivered == Count(rows, Delivered) && failed == Count(rows, Undelivered) && skipped == Count(rows, Skipped)
    {
      hide Inv, Next, Count, Run, AddRows, AllAnswered, Answering;
      ghost var start := Snapshot();
      var loaded;
      loaded, steps := Prepare(storeActive, users, recipientsBroken);
      if !loaded {
        return;
      }
      var drained: bool;
      drained, steps := Drain(ask, cancelled, broken, steps, start);
      if !drained {
        return;
      }
      if countsBroken {
        RunMore(start, steps, Fail);
        MarkFailed();
        return steps + [Fail];
      }
      CountingSteps(start, steps);
      WriteCounts();
      steps := steps + COUNT_AND_FINISH;
    }
  }

  /** The batch so far: rows still to come are as they were, the others are answered. */
  ghost predicate Still(
    before: seq<Row>, after: seq<Row>, batch: seq<nat>, rest: seq<nat>, ask: (nat, Content) -> Option<Answer>, content: Content)
  {
    && |after| == |before| && (forall row :: row in rest ==> row in batch)
    && (forall i :: 0 <= i < |after| ==> after[i].user == before[i].user)
    && (forall i :: 0 <= i < |after| && i in batch && i !in rest ==> Answered(ask(before[i].user, content), after[i].state))
    && (forall i :: 0 <= i < |after| && (i !in batch || i in rest) ==> after[i] == before[i])
  }

  lemma StillBegins(rows: seq<Row>, batch: seq<nat>, ask: (nat, Content) -> Option<Answer>, content: Content)
    ensures Still(rows, rows, batch, batch, ask, content)
  {
  }

  lemma StillOn(
    before: seq<Row>, after: seq<Row>, batch: seq<nat>, rest: seq<nat>, ask: (nat, Content) -> Option<Answer>, content: Content,
    state: Delivery)
    requires Still(before, after, batch, rest, ask, content) && rest != [] && Distinct(rest) && rest[0] < |after|
    requires Answered(ask(after[rest[0]].user, content), state)
    ensures Still(before, after[rest[0] := after[rest[0]].(state := state)], batch, rest[1..], ask, content)
  {
    var row, tail := rest[0], rest[1..];
    var now := after[row := after[row].(state := state)];
    assert rest == [row] + tail;
    hide Answered;
    HeadApart(rest);
  }

  lemma HeadApart(s: seq<nat>)
    requires s != [] && Distinct(s)
    ensures s[0] !in s[1..]
  {
    forall k | 0 <= k < |s[1..]| ensures s[1..][k] != s[0] {
      assert s[1..][k] == s[k + 1];
    }
  }

  lemma StillEnds(before: seq<Row>, after: seq<Row>, batch: seq<nat>, ask: (nat, Content) -> Option<Answer>, content: Content)
    requires Still(before, after, batch, [], ask, content)
    ensures BatchAnswered(before, after, batch, ask, content)
  {
  }

  lemma AnsweringBegins(rows: seq<Row>, ask: (nat, Content) -> Option<Answer>, content: Content)
    ensures Answering(rows, rows, ask, content)
  {
  }

  const COUNT_AND_FINISH: seq<Step> := [CountRows(Delivered), CountRows(Undelivered), CountRows(Skipped), Finish]

  /** The three counts and the final write. */
  function CountedAndSent(c: Campaign): Campaign {
    Next(Next(Next(Next(c, CountRows(Delivered)), CountRows(Undelivered)), CountRows(Skipped)), Finish)
  }

  lemma CountingSteps(start: Campaign, steps: seq<Step>)
    requires Inv(Run(start, steps))
    ensures Run(start, steps + COUNT_AND_FINISH) == CountedAndSent(Run(start, steps))
    ensures Inv(Run(start, steps + COUNT_AND_FINISH))
  {
    hide Inv, Next;
    var a, b, c := CountRows(Delivered), CountRows(Undelivered), CountRows(Skipped);
    RunMore(start, steps, a);
    RunMore(start, steps + [a], b);
    RunMore(start, steps + [a] + [b], c);
    RunMore(start, steps + [a] + [b] + [c], Finish);
    assert steps + COUNT_AND_FINISH == steps + [a] + [b] + [c] + [Finish];
  }

  lemma Finished(c: Campaign)
    requires Inv(c) && c.at == Counting(None, None, None) && c.status == Sending
    ensures var d, f, s := Count(c.rows, Delivered), Count(c.rows, Undelivered), Count(c.rows, Skipped);
            var n := CountedAndSent(c);
            && n == c.(delivered := d, failed := f, skipped := s, status := Sent, at := Idle)
            && Inv(n) && d + f + s == |c.rows|
  {
    var d, f, s := Count(c.rows, Delivered), Count(c.rows, Undelivered), Count(c.rows, Skipped);
    CountsCover(c.rows);
    assert Settled(c.rows);
    CountingSteps(c, []);
    assert [] + COUNT_AND_FINISH == COUNT_AND_FINISH && Run(c, []) == c;
    hide Inv, Count, Run, Next;
    var one := c.(at := Counting(Some(d), None, None));
    var two := c.(at := Counting(Some(d), Some(f), None));
    CountStep(c, Delivered);
    CountStep(one, Undelivered);
    CountStep(two, Skipped);
    FinishStep(c.(at := Counting(Some(d), Some(f), Some(s))));
  }

  lemma BatchInRange(c: Campaign)
    requires Inv(c) && c.at.Batch?
    ensures Distinct(c.at.rest) && forall i :: 0 <= i < |c.at.rest| ==> c.at.rest[i] < |c.rows|
  {
  }

  lemma BatchIsPending(c: Campaign)
    requires Inv(c) && c.at.Batch? && BatchPending(c.rows, c.at.rest)
    ensures |c.at.rest| > 0 && Count(c.rows, Pending) > 0
  {
    CountsCover(c.rows);
    assert c.rows[c.at.rest[0]].state == Pending;
  }

  lemma RunOne(c: Campaign, step: Step)
    ensures Run(c, [step]) == Next(c, step)
  {
    assert [step][..0] == [];
  }

  lemma RunMore(start: Campaign, steps: seq<Step>, step: Step)
    requires Inv(Run(start, steps))
    ensures Run(start, steps + [step]) == Next(Run(start, steps), step)
    ensures Inv(Run(start, steps + [step]))
  {
    assert (steps + [step])[..|steps|] == steps;
    StepKeeps(Run(start, steps), step);
  }

  lemma SendOne(c: Campaign, row: nat, state: Delivery)
    requires Inv(c) && c.at.Batch? && BatchPending(c.rows, c.at.rest) && c.at.rest[0] == row && state != Pending
    ensures var n := Next(c, Deliver(row, state));
            && Inv(n) && row < |c.rows|
            && n == c.(rows := c.rows[row := c.rows[row].(state := state)],
                       log := c.log + [Dispatch(row, c.at.content, c.approved)],
                       at := if |c.at.rest| == 1 then Looping(c.at.content) else Batch(c.at.content, c.at.rest[1..]))
            && Count(n.rows, Pending) == Count(c.rows, Pending) - 1 && BatchPending(n.rows, c.at.rest[1..])
  {
    assert Member(c.at.rest, row);
    DeliverRows(c.rows, c.at.rest, row, state);
    StepKeeps(c, Deliver(row, state));
  }
}
