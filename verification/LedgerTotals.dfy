/** Sums over all transactions, the quantities the ledger's invariants are about. */
module LedgerTotals {
  import opened Options
  import opened Ledger

  /** What is added up: money held by, or credited to, a user; transactions of a bill, all or by status. */
  datatype Quantity =
    | HeldFrom(user: UserId)
    | CreditedTo(user: UserId)
    | AttemptsOn(bill: BillId)
    | ProcessingOn(bill: BillId)
    | SucceededOn(bill: BillId)
    | FailedOn(bill: BillId)

  function One(yes: bool): nat {
    if yes then 1 else 0
  }

  /** A debit holds its amount and fee from the moment it is committed until it fails. */
  function Weight(q: Quantity, t: Txn): int {
    match q
    case HeldFrom(u) =>
      if t.user == u && t.kind.Debit? && (t.status == TxnProcessing || t.status == TxnSuccess)
      then t.amount + t.fee else 0
    case CreditedTo(u) => if t.user == u then t.credited else 0
    case AttemptsOn(b) => One(t.bill == Some(b))
    case ProcessingOn(b) => One(t.bill == Some(b) && t.status == TxnProcessing)
    case SucceededOn(b) => One(t.bill == Some(b) && t.status == TxnSuccess)
    case FailedOn(b) => One(t.bill == Some(b) && t.status == TxnFailed)
  }

  ghost function Total(txns: map<Ref, Txn>, q: Quantity): int {
    if txns == map[] then 0
    else
      var r :| r in txns;
      Weight(q, txns[r]) + Total(txns - {r}, q)
  }

  /** The sum does not depend on the order in which rows are picked. */
  lemma {:induction false} TotalWithout(txns: map<Ref, Txn>, q: Quantity, r: Ref)
    requires r in txns
    ensures Total(txns, q) == Weight(q, txns[r]) + Total(txns - {r}, q)
    decreases |txns|
  {
    var first :| first in txns && Total(txns, q) == Weight(q, txns[first]) + Total(txns - {first}, q);
    if first != r {
      TotalWithout(txns - {first}, q, r);
      TotalWithout(txns - {r}, q, first);
      assert txns - {first} - {r} == txns - {r} - {first};
    }
  }

  ghost predicate MovedBy(before: map<Ref, Txn>, r: Ref, t: Txn, q: Quantity) {
    Total(before[r := t], q) == Total(before, q) + Weight(q, t) - (if r in before then Weight(q, before[r]) else 0)
  }

  /** Writing one row changes every sum by that row's difference. */
  lemma TotalAfterWrite(txns: map<Ref, Txn>, q: Quantity, r: Ref, t: Txn)
    ensures MovedBy(txns, r, t, q)
  {
    TotalWithout(txns[r := t], q, r);
    assert txns[r := t] - {r} == txns - {r};
    if r in txns {
      TotalWithout(txns, q, r);
    } else {
      assert txns - {r} == txns;
    }
  }

  lemma BillTotalsAfterWrite(txns: map<Ref, Txn>, r: Ref, t: Txn, b: BillId)
    ensures MovedBy(txns, r, t, AttemptsOn(b)) && MovedBy(txns, r, t, ProcessingOn(b))
    ensures MovedBy(txns, r, t, SucceededOn(b)) && MovedBy(txns, r, t, FailedOn(b))
  {
    TotalAfterWrite(txns, AttemptsOn(b), r, t);
    TotalAfterWrite(txns, ProcessingOn(b), r, t);
    TotalAfterWrite(txns, SucceededOn(b), r, t);
    TotalAfterWrite(txns, FailedOn(b), r, t);
  }

  lemma WalletTotalsAfterWrite(txns: map<Ref, Txn>, r: Ref, t: Txn, u: UserId)
    ensures MovedBy(txns, r, t, HeldFrom(u)) && MovedBy(txns, r, t, CreditedTo(u))
  {
    TotalAfterWrite(txns, HeldFrom(u), r, t);
    TotalAfterWrite(txns, CreditedTo(u), r, t);
  }

  predicate Counts(q: Quantity) {
    !q.HeldFrom? && !q.CreditedTo?
  }

  lemma {:induction false} CountBounds(txns: map<Ref, Txn>, q: Quantity)
    requires Counts(q)
    ensures 0 <= Total(txns, q)
    ensures Total(txns, q) == 0 <==> forall r :: r in txns ==> Weight(q, txns[r]) == 0
    decreases |txns|
  {
    if txns != map[] {
      var first :| first in txns && Total(txns, q) == Weight(q, txns[first]) + Total(txns - {first}, q);
      var rest := txns - {first};
      CountBounds(rest, q);
      assert forall r :: r in txns && r != first ==> r in rest && rest[r] == txns[r];
      assert 0 <= Weight(q, txns[first]);
    }
  }

  /** A count of one means exactly one row. */
  lemma CountOfOne(txns: map<Ref, Txn>, q: Quantity)
    requires Counts(q)
    ensures Total(txns, q) == 1
            <==> exists r :: r in txns && Weight(q, txns[r]) == 1
                             && forall r' :: r' in txns && r' != r ==> Weight(q, txns[r']) == 0
  {
    CountBounds(txns, q);
    forall r | r in txns && Weight(q, txns[r]) == 1
      ensures Total(txns, q) == 1 <==> forall r' :: r' in txns && r' != r ==> Weight(q, txns[r']) == 0
    {
      var rest := txns - {r};
      TotalWithout(txns, q, r);
      CountBounds(rest, q);
      assert forall r' :: r' in rest <==> r' in txns && r' != r;
      assert forall r' :: r' in rest ==> rest[r'] == txns[r'];
    }
    if Total(txns, q) == 1 {
      var r :| r in txns && Weight(q, txns[r]) != 0;
      assert Weight(q, txns[r]) == 1;
    }
  }
}
