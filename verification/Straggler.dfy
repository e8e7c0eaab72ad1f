/** A campaign sent with counts that do not add up, computed step by step. */
module Straggler {
  import opened Outcome
  import opened Campaign

  const TEXT := Content("t", "m", None, None, true)

  const LATE := Dispatch(0, TEXT, None)

  /** One recipient, and where the dispatcher is. */
  function World(
    status: Status, rows: seq<Row>, total: nat, at: Point, batches: nat, log: seq<Dispatch>, stragglers: seq<Dispatch>): Campaign
  {
    Campaign(false, TEXT, status, NotRequired, None, rows, total, 0, 0, 0, at, batches, log, stragglers, true)
  }

  const WAITING := [Row(1, Pending)]

  const MISSED := [Row(1, Undelivered)]

  const BEGIN := NewCampaign(false, TEXT)

  lemma OneRow()
    ensures AddRows([], [1]) == WAITING && AddRows(WAITING, [1]) == WAITING
    ensures NextBatch(WAITING) == [0] && NextBatch(MISSED) == []
  {
    assert [1][1..] == [] && [] + [Row(1, Pending)] == WAITING;
    assert AddRows(WAITING, []) == WAITING;
    assert !Present([], 1) && Present(WAITING, 1) by {
      assert WAITING[0].user == 1;
    }
    assert PendingFrom(WAITING, 1) == [] && PendingFrom(MISSED, 1) == [];
    assert PendingFrom(WAITING, 0) == [0] + [] && PendingFrom(MISSED, 0) == [] + [];
  }

  lemma {:induction false} RunFirst(c: Campaign, step: Step, rest: seq<Step>)
    ensures Run(c, [step] + rest) == Run(Next(c, step), rest)
  {
    hide Next;
    if rest == [] {
      assert [step] + rest == [step] && [step][..0] == [] && Run(c, []) == c;
    } else {
      var k := |rest| - 1;
      RunFirst(c, step, rest[..k]);
      assert ([step] + rest)[..|[step] + rest| - 1] == [step] + rest[..k];
    }
  }

  /** The steps of one round up to its batch. */
  function ToBatch(rest: seq<Step>): seq<Step> {
    [Claim] + ([Load(true)] + ([Resolve([1])] + ([SetTotal] + ([Check] + rest))))
  }

  lemma RoundBegins(rows: seq<Row>, total: nat, batches: nat, stragglers: seq<Dispatch>)
    ensures Next(World(Scheduled, rows, total, Idle, batches, [], stragglers), Claim)
         == World(Sending, rows, total, Claimed, batches, [], stragglers)
    ensures Next(World(Sending, rows, total, Claimed, batches, [], stragglers), Load(true))
         == World(Sending, rows, total, Loaded(TEXT), batches, [], stragglers)
  {
  }

  lemma RowsAreThere(rows: seq<Row>, total: nat, batches: nat, stragglers: seq<Dispatch>)
    requires rows == [] || rows == WAITING
    ensures Next(World(Sending, rows, total, Loaded(TEXT), batches, [], stragglers), Resolve([1]))
         == World(Sending, WAITING, total, Rowed(TEXT, 1), batches, [], stragglers)
    ensures Next(World(Sending, WAITING, total, Rowed(TEXT, 1), batches, [], stragglers), SetTotal)
         == World(Sending, WAITING, 1, Looping(TEXT), batches, [], stragglers)
  {
    OneRow();
    hide AddRows;
  }

  lemma BatchIsFound(batches: nat, stragglers: seq<Dispatch>)
    ensures Next(World(Sending, WAITING, 1, Looping(TEXT), batches, [], stragglers), Check)
         == World(Sending, WAITING, 1, Batch(TEXT, [0]), batches + 1, [], stragglers)
  {
    OneRow();
    hide NextBatch;
  }

  lemma BatchIsStarted(rows: seq<Row>, total: nat, batches: nat, stragglers: seq<Dispatch>, rest: seq<Step>)
    requires rows == [] || rows == WAITING
    ensures Run(World(Scheduled, rows, total, Idle, batches, [], stragglers), ToBatch(rest))
         == Run(World(Sending, WAITING, 1, Batch(TEXT, [0]), batches + 1, [], stragglers), rest)
  {
    hide Next, Run, World;
    RoundBegins(rows, total, batches, stragglers);
    RowsAreThere(rows, total, batches, stragglers);
    BatchIsFound(batches, stragglers);
    RunFirst(World(Scheduled, rows, total, Idle, batches, [], stragglers), Claim,
             [Load(true)] + ([Resolve([1])] + ([SetTotal] + ([Check] + rest))));
    RunFirst(World(Sending, rows, total, Claimed, batches, [], stragglers), Load(true),
             [Resolve([1])] + ([SetTotal] + ([Check] + rest)));
    RunFirst(World(Sending, rows, total, Loaded(TEXT), batches, [], stragglers), Resolve([1]), [SetTotal] + ([Check] + rest));
    RunFirst(World(Sending, WAITING, total, Rowed(TEXT, 1), batches, [], stragglers), SetTotal, [Check] + rest);
    RunFirst(World(Sending, WAITING, 1, Looping(TEXT), batches, [], stragglers), Check, rest);
  }

  /** The first batch breaks off, the second delivers the row and finds nothing pending. */
  const TO_COUNTING: seq<Step> :=
    [Schedule] + ToBatch([Fail] + ([SendNow] + ToBatch([Deliver(0, Undelivered)] + ([Check] + []))))

  const BROKEN := World(Failed, WAITING, 1, Idle, 1, [], [LATE])

  const AGAIN := World(Scheduled, WAITING, 1, Idle, 1, [], [LATE])

  const WRITTEN := World(Sending, MISSED, 1, Looping(TEXT), 2, [LATE], [LATE])

  const COUNTING := WRITTEN.(at := Counting(None, None, None), steady := false)

  lemma BatchBreaksOff()
    ensures Next(BEGIN, Schedule) == World(Scheduled, [], 0, Idle, 0, [], [])
    ensures Next(World(Sending, WAITING, 1, Batch(TEXT, [0]), 1, [], []), Fail) == BROKEN
  {
    var first := World(Sending, WAITING, 1, Batch(TEXT, [0]), 1, [], []);
    assert Left(first) == [LATE] && [] + [LATE] == [LATE];
  }

  lemma CampaignIsResent()
    ensures Next(BROKEN, SendNow) == AGAIN
  {
    assert Retried(WAITING) == WAITING;
  }

  lemma RowIsWritten()
    ensures Next(World(Sending, WAITING, 1, Batch(TEXT, [0]), 2, [], [LATE]), Deliver(0, Undelivered)) == WRITTEN
  {
    assert Member([0], 0) by {
      assert [0][0] == 0;
    }
    assert Without([0], 0) == [] && WAITING[0 := Row(1, Undelivered)] == MISSED && [] + [LATE] == [LATE];
  }

  lemma NothingIsPending()
    ensures Next(WRITTEN, Check) == COUNTING
  {
    OneRow();
    hide NextBatch;
  }

  lemma CountingWithStraggler()
    ensures Run(BEGIN, TO_COUNTING) == COUNTING
  {
    BatchBreaksOff();
    CampaignIsResent();
    RowIsWritten();
    NothingIsPending();
    hide Next, Run, World;
    var tail := [Deliver(0, Undelivered)] + ([Check] + []);
    RunFirst(BEGIN, Schedule, ToBatch([Fail] + ([SendNow] + ToBatch(tail))));
    BatchIsStarted([], 0, 0, [], [Fail] + ([SendNow] + ToBatch(tail)));
    RunFirst(World(Sending, WAITING, 1, Batch(TEXT, [0]), 1, [], []), Fail, [SendNow] + ToBatch(tail));
    RunFirst(BROKEN, SendNow, ToBatch(tail));
    BatchIsStarted(WAITING, 1, 1, [LATE], tail);
    RunFirst(World(Sending, WAITING, 1, Batch(TEXT, [0]), 2, [], [LATE]), Deliver(0, Undelivered), [Check] + []);
    RunFirst(WRITTEN, Check, []);
    NoSteps(COUNTING);
  }

  lemma NoSteps(c: Campaign)
    ensures Run(c, []) == c
  {
  }

  /** So a campaign of one recipient can be SENT with two outcomes on its record. */
  lemma CountsAreOff() returns (steps: seq<Step>)
    ensures SentAndOff(Run(Run(BEGIN, TO_COUNTING), steps))
  {
    CountingWithStraggler();
    EveryRunIsConsistent(false, TEXT, TO_COUNTING);
    hide Run, Inv;
    steps := CountsCanBeOff(Run(BEGIN, TO_COUNTING));
  }
}
