/** Redeeming cashback: the oldest rewards are used up first. */
module Rewards {
  import opened Outcome

  datatype Reward = Reward(amount: nat, redeemed: nat, available: bool)

  /** A reward is never redeemed beyond its amount; one of nothing may well be available. */
  predicate RowOk(r: Reward) {
    r.redeemed <= r.amount
  }

  ghost predicate Sound(rows: seq<Reward>) {
    forall i :: 0 <= i < |rows| ==> RowOk(rows[i])
  }

  function Left(r: Reward): int {
    if r.available then r.amount - r.redeemed else 0
  }

  function Available(rows: seq<Reward>): int {
    if rows == [] then 0 else Left(rows[0]) + Available(rows[1..])
  }

  function Min(a: int, b: int): int {
    if a < b then a else b
  }

  /** One row gives what it can. */
  function Take(r: Reward, applied: nat): Reward {
    if r.available then r.(redeemed := r.redeemed + applied, available := r.redeemed + applied != r.amount) else r
  }

  /** The rows, oldest first, after `need` was taken from them. */
  function Draw(rows: seq<Reward>, need: nat): seq<Reward>
    requires Sound(rows)
  {
    if rows == [] || need == 0 then rows
    else
      var applied := Min(Left(rows[0]), need);
      [Take(rows[0], applied)] + Draw(rows[1..], need - applied)
  }

  /** No row is over-redeemed, and exactly the amount is taken when there is enough. */
  lemma {:induction false} DrawIsExact(rows: seq<Reward>, need: nat)
    requires Sound(rows)
    ensures |Draw(rows, need)| == |rows| && Sound(Draw(rows, need))
    ensures need <= Available(rows) ==> Available(Draw(rows, need)) == Available(rows) - need
  {
    if rows != [] && need > 0 {
      var applied := Min(Left(rows[0]), need);
      DrawIsExact(rows[1..], need - applied);
      var after := Draw(rows, need);
      assert after[1..] == Draw(rows[1..], need - applied);
      forall i | 0 <= i < |after| ensures RowOk(after[i]) {
        if i > 0 {
          assert after[i] == after[1..][i - 1];
        }
      }
    }
  }

  /** Rows only ever gain redeemed amount, and a row is drawn on only when all older ones are used up. */
  lemma {:induction false} DrawIsOldestFirst(rows: seq<Reward>, need: nat, i: nat, j: nat)
    requires Sound(rows) && i < j < |rows|
    ensures |Draw(rows, need)| == |rows|
    ensures Draw(rows, need)[j].amount == rows[j].amount && rows[j].redeemed <= Draw(rows, need)[j].redeemed
    ensures Draw(rows, need)[j] != rows[j] ==> Left(Draw(rows, need)[i]) == 0
  {
    DrawIsExact(rows, need);
    if need > 0 {
      var applied := Min(Left(rows[0]), need);
      if i > 0 {
        DrawIsOldestFirst(rows[1..], need - applied, i - 1, j - 1);
      } else {
        DrawKeeps(rows[1..], need - applied, j - 1);
      }
    }
  }

  lemma {:induction false} DrawKeeps(rows: seq<Reward>, need: nat, j: nat)
    requires Sound(rows) && j < |rows|
    ensures |Draw(rows, need)| == |rows|
    ensures Draw(rows, need)[j].amount == rows[j].amount && rows[j].redeemed <= Draw(rows, need)[j].redeemed
    ensures need == 0 ==> Draw(rows, need)[j] == rows[j]
  {
    DrawIsExact(rows, need);
    if need > 0 && j > 0 {
      DrawKeeps(rows[1..], need - Min(Left(rows[0]), need), j - 1);
    }
  }

  /** A row drawn on stays available exactly while something of it is left; one not available is never drawn on. */
  lemma {:induction false} DrawClosesRows(rows: seq<Reward>, need: nat, j: nat)
    requires Sound(rows) && j < |rows|
    ensures |Draw(rows, need)| == |rows|
    ensures var after := Draw(rows, need)[j];
            && (after != rows[j] ==> rows[j].available && (after.available <==> after.redeemed < after.amount))
            && (!rows[j].available ==> after == rows[j])
  {
    DrawIsExact(rows, need);
    if need > 0 && j > 0 {
      DrawClosesRows(rows[1..], need - Min(Left(rows[0]), need), j - 1);
    }
  }

  /** A user's rewards, oldest first, and the wallet they are redeemed into. */
  class Cashback {
    var rows: seq<Reward>
    var wallet: int

    constructor (rows: seq<Reward>, wallet: int)
      ensures this.rows == rows && this.wallet == wallet
    {
      this.rows := rows;
      this.wallet := wallet;
    }

    /** What the user can still redeem. */
    method Balance() returns (sum: int)
      ensures sum == Available(rows)
    {
      sum := 0;
      var i := 0;
      while i < |rows|
        invariant i <= |rows| && sum + Available(rows[i..]) == Available(rows)
      {
        assert rows[i..][1..] == rows[i + 1..];
        if rows[i].available {
          sum := sum + (rows[i].amount - rows[i].redeemed);
        }
        i := i + 1;
      }
    }

    /** Redeems exactly the amount asked for, or nothing: cashback falls by what the wallet gains. */
    method Redeem(amount: int) returns (r: Result<int>)
      requires Sound(rows)
      modifies this
      ensures r.Ok? <==> 0 < amount <= Available(old(rows))
      ensures r.Err? ==> rows == old(rows) && wallet == old(wallet)
      ensures Sound(rows)
      ensures r.Ok? ==>
        && rows == Draw(old(rows), amount) && wallet == old(wallet) + amount
        && r.value == Available(rows) == Available(old(rows)) - amount
    {
      if amount <= 0 {
        return Err(Invalid);
      }
      var available := Balance();
      if available < amount {
        return Err(Insufficient);
      }
      hide Draw, Available;
      ghost var start := rows;
      var remaining: nat := amount;
      var i := 0;
      DrawBegins(start, amount);
      while i < |rows| && remaining > 0
        invariant wallet == old(wallet) && i <= |rows| && Drawing(start, rows, i, remaining, amount)
      {
        var row := rows[i];
        DrawStep(start, rows, i, remaining, amount);
        hide Drawing;
        if row.available {
          var balance := row.amount - row.redeemed;
          var applied := Min(balance, remaining);
          var redeemed := row.redeemed + applied;
          rows := rows[i := row.(redeemed := redeemed, available := redeemed != row.amount)];
          remaining := remaining - applied;
        } else {
          assert rows[i := row] == rows;
        }
        i := i + 1;
      }
      DrawEnds(start, rows, i, remaining, amount);
      wallet := wallet + amount;
      r := Ok(available - amount);
    }
  }

  /** The loop so far: the rows below `i` are done, and drawing the rest finishes the whole draw. */
  ghost predicate Drawing(start: seq<Reward>, rows: seq<Reward>, i: nat, remaining: nat, amount: nat) {
    && Sound(start) && i <= |rows| == |start| && rows[i..] == start[i..]
    && rows[..i] + Draw(start[i..], remaining) == Draw(start, amount)
  }

  lemma DrawBegins(start: seq<Reward>, amount: nat)
    requires Sound(start)
    ensures Drawing(start, start, 0, amount, amount)
  {
    assert start[0..] == start;
  }

  lemma DrawStep(start: seq<Reward>, rows: seq<Reward>, i: nat, remaining: nat, amount: nat)
    requires Drawing(start, rows, i, remaining, amount) && i < |rows| && remaining > 0
    ensures var applied := Min(Left(rows[i]), remaining);
            && 0 <= applied <= remaining
            && Drawing(start, rows[i := Take(rows[i], applied)], i + 1, remaining - applied, amount)
  {
    var rest := start[i..];
    assert rest[0] == rows[i..][0] == rows[i] == start[i] && rest[1..] == start[i + 1..];
    var applied := Min(Left(rows[i]), remaining);
    var next := rows[i := Take(rows[i], applied)];
    assert next[..i + 1] == rows[..i] + [Take(rows[i], applied)];
    assert next[i + 1..] == rows[i..][1..];
    assert rows[..i] + Draw(rest, remaining) == next[..i + 1] + Draw(rest[1..], remaining - applied);
  }

  lemma DrawEnds(start: seq<Reward>, rows: seq<Reward>, i: nat, remaining: nat, amount: nat)
    requires Drawing(start, rows, i, remaining, amount) && (i == |rows| || remaining == 0)
    ensures rows == Draw(start, amount) && Sound(rows)
    ensures amount <= Available(start) ==> Available(rows) == Available(start) - amount
  {
    DrawIsExact(start, amount);
    assert rows[..i] + rows[i..] == rows;
  }
}
