/**
 A book of wallets: one balance per owner and an append-only list of entries whose
 references are unique. Every change of a balance is posted together with its entry.
 */
module Ledger {
  import opened Outcome

  datatype Kind = Credit | Debit | Hold | Release

  datatype Entry<Ref> = Entry(owner: nat, kind: Kind, amount: nat, ref: Ref)

  datatype Book<Ref> = Book(balances: map<nat, int>, entries: seq<Entry<Ref>>)

  /** What an entry does to the balance of its owner: a hold changes nothing. */
  function Signed<Ref>(e: Entry<Ref>): int {
    match e.kind
    case Credit => e.amount
    case Release => e.amount
    case Debit => 0 - e.amount
    case Hold => 0
  }

  function Balance<Ref>(b: Book<Ref>, owner: nat): int {
    if owner in b.balances then b.balances[owner] else 0
  }

  /** Credits and releases minus debits of one owner. */
  function Total<Ref>(es: seq<Entry<Ref>>, owner: nat): int {
    if |es| == 0 then 0
    else
      var e := es[|es| - 1];
      Total(es[..|es| - 1], owner) + if e.owner == owner then Signed(e) else 0
  }

  /** The entry carrying a reference, if there is one. */
  function Find<Ref(==)>(es: seq<Entry<Ref>>, ref: Ref): (r: Option<Entry<Ref>>)
    ensures r.Some? ==> r.value in es && r.value.ref == ref
    ensures r.None? ==> forall e :: e in es ==> e.ref != ref
  {
    if |es| == 0 then None
    else if es[|es| - 1].ref == ref then Some(es[|es| - 1])
    else Find(es[..|es| - 1], ref)
  }

  /** Opens the wallet of an owner who has none yet. */
  function Open<Ref>(b: Book<Ref>, owner: nat): Book<Ref> {
    if owner in b.balances then b else b.(balances := b.balances[owner := 0])
  }

  /** Moves the balance and records the entry; a reference already used is refused. */
  function Post<Ref(==)>(b: Book<Ref>, e: Entry<Ref>): (r: Result<Book<Ref>>)
    ensures r.Ok? <==> Find(b.entries, e.ref).None?
    ensures r.Ok? ==> r.value.entries == b.entries + [e]
  {
    if Find(b.entries, e.ref).Some? then Err(DuplicateReference)
    else Ok(Book(b.balances[e.owner := Balance(b, e.owner) + Signed(e)], b.entries + [e]))
  }

  /** Debits only a wallet that exists and covers the amount. */
  function Charge<Ref(==)>(b: Book<Ref>, owner: nat, amount: nat, ref: Ref): (r: Result<Book<Ref>>) {
    if owner !in b.balances || b.balances[owner] < amount then Err(Insufficient)
    else Post(b, Entry(owner, Debit, amount, ref))
  }

  /** Every balance is what its entries add up to, no reference was used twice, every owner has a wallet. */
  ghost predicate Sound<Ref>(b: Book<Ref>) {
    && (forall owner: nat :: Balance(b, owner) == Total(b.entries, owner))
    && (forall i, j :: 0 <= i < j < |b.entries| ==> b.entries[i].ref != b.entries[j].ref)
    && (forall i :: 0 <= i < |b.entries| ==> b.entries[i].owner in b.balances)
  }

  lemma TotalAppend<Ref>(es: seq<Entry<Ref>>, e: Entry<Ref>, owner: nat)
    ensures Total(es + [e], owner) == Total(es, owner) + if e.owner == owner then Signed(e) else 0
  {
    assert (es + [e])[..|es|] == es;
  }

  lemma FindAppend<Ref>(es: seq<Entry<Ref>>, e: Entry<Ref>, ref: Ref)
    ensures Find(es + [e], ref) == if e.ref == ref then Some(e) else Find(es, ref)
  {
    assert (es + [e])[..|es|] == es;
  }

  lemma FindAppendAll<Ref(!new)>(es: seq<Entry<Ref>>, e: Entry<Ref>)
    ensures forall ref :: Find(es + [e], ref) == if e.ref == ref then Some(e) else Find(es, ref)
  {
    forall ref ensures Find(es + [e], ref) == if e.ref == ref then Some(e) else Find(es, ref) {
      FindAppend(es, e, ref);
    }
  }

  lemma OpenKeepsSound<Ref>(b: Book<Ref>, owner: nat)
    requires Sound(b)
    ensures Sound(Open(b, owner)) && Open(b, owner).entries == b.entries
    ensures owner in Open(b, owner).balances
  {
    var o := Open(b, owner);
    forall w: nat ensures Balance(o, w) == Total(o.entries, w) {
      assert Balance(b, w) == Total(b.entries, w);
    }
  }

  /** Posting keeps the book sound, whatever the entry. */
  lemma PostKeepsSound<Ref>(b: Book<Ref>, e: Entry<Ref>)
    requires Sound(b) && Post(b, e).Ok?
    ensures Sound(Post(b, e).value)
  {
    var c := Post(b, e).value;
    forall w: nat ensures Balance(c, w) == Total(c.entries, w) {
      assert Balance(b, w) == Total(b.entries, w);
      TotalAppend(b.entries, e, w);
    }
  }

  /** A guarded debit takes the amount from a sound book and never takes the wallet below zero. */
  lemma ChargeCovered<Ref>(b: Book<Ref>, owner: nat, amount: nat, ref: Ref)
    requires Sound(b) && Charge(b, owner, amount, ref).Ok?
    ensures var c := Charge(b, owner, amount, ref).value;
            && Sound(c) && Balance(c, owner) == Balance(b, owner) - amount >= 0
            && c.entries == b.entries + [Entry(owner, Debit, amount, ref)]
  {
    PostKeepsSound(b, Entry(owner, Debit, amount, ref));
  }

  /** In a sound book a reference is carried by exactly the entry that `Find` returns. */
  lemma FindIsUnique<Ref>(b: Book<Ref>, i: nat)
    requires Sound(b) && i < |b.entries|
    ensures Find(b.entries, b.entries[i].ref) == Some(b.entries[i])
  {
    var f := Find(b.entries, b.entries[i].ref);
    var j :| 0 <= j < |b.entries| && b.entries[j] == f.value;
    assert i == j;
  }

  /** What all entries under one reference did to balances together. */
  function Moved<Ref(==)>(es: seq<Entry<Ref>>, ref: Ref): int {
    if |es| == 0 then 0
    else
      var e := es[|es| - 1];
      Moved(es[..|es| - 1], ref) + if e.ref == ref then Signed(e) else 0
  }

  lemma {:induction false} NeverMoved<Ref>(es: seq<Entry<Ref>>, ref: Ref)
    requires forall i :: 0 <= i < |es| ==> es[i].ref != ref
    ensures Moved(es, ref) == 0
  {
    if |es| > 0 {
      NeverMoved(es[..|es| - 1], ref);
    }
  }

  /** However often a reference was tried, at most one entry under it moved money. */
  lemma {:induction false} MovedOnce<Ref>(es: seq<Entry<Ref>>, ref: Ref)
    requires forall i, j :: 0 <= i < j < |es| ==> es[i].ref != es[j].ref
    ensures Moved(es, ref) == if Find(es, ref).Some? then Signed(Find(es, ref).value) else 0
  {
    if |es| > 0 {
      var k := |es| - 1;
      if es[k].ref == ref {
        NeverMoved(es[..k], ref);
      } else {
        MovedOnce(es[..k], ref);
      }
    }
  }

  lemma MovedInBook<Ref>(b: Book<Ref>, ref: Ref)
    requires Sound(b)
    ensures Moved(b.entries, ref) == if Find(b.entries, ref).Some? then Signed(Find(b.entries, ref).value) else 0
  {
    MovedOnce(b.entries, ref);
  }
}
