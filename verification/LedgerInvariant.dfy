/** What every reachable store satisfies: conservation of money, no negative balance, and agreement between
    a bill's status, its retry counter and its debits. */
module LedgerInvariant {
  import opened Options
  import opened Ledger
  import opened LedgerTotals

  // ----- foreign keys -----

  /** Rows only refer to rows that exist; nothing is ever deleted. */
  ghost predicate Linked(s: Store) {
    && (forall b :: b in s.bills ==> s.bills[b].user in s.users)
    && (forall r :: r in s.txns ==> s.txns[r].user in s.users)
    && (forall r :: r in s.txns && s.txns[r].bill.Some? ==> s.txns[r].bill.value in s.bills)
  }

  lemma LinkedIsKept(s: Store, st: Step)
    requires Linked(s)
    ensures Linked(Apply(s, st))
  {
  }

  // ----- the invariant -----

  predicate RowOk(s: Store, t: Txn) {
    match t.kind
    case Credit =>
      t.bill == None && (t.status == TxnPending || t.status == TxnSuccess)
    case Debit =>
      && t.bill.Some? && t.bill.value in s.bills && s.bills[t.bill.value].user == t.user
      && (t.status == TxnProcessing || t.status == TxnSuccess || t.status == TxnFailed)
  }

  /** A bill's status, retry counter and debits tell the same story. */
  ghost predicate BillAgrees(s: Store, b: BillId)
    requires b in s.bills
  {
    var bill := s.bills[b];
    && Total(s.txns, ProcessingOn(b)) == One(bill.status == Processing)
    && Total(s.txns, SucceededOn(b)) == One(bill.status == Paid)
    && Total(s.txns, FailedOn(b)) == bill.retries
    && Total(s.txns, AttemptsOn(b)) == bill.retries + One(bill.status == Processing || bill.status == Paid)
    && (bill.status == Pending || bill.status == Scheduled ==> bill.retries < bill.maxRetries)
    && (bill.status == Failed ==> bill.maxRetries <= bill.retries)
  }

  /** Conservation: a wallet holds what was credited less what its debits hold, and never less than zero. */
  ghost predicate WalletAgrees(s: Store, u: UserId)
    requires u in s.users
  {
    && s.users[u] == Total(s.txns, CreditedTo(u)) - Total(s.txns, HeldFrom(u))
    && 0 <= s.users[u]
  }

  ghost predicate Inv(s: Store) {
    && Linked(s)
    && (forall r :: r in s.txns ==> RowOk(s, s.txns[r]))
    && (forall b :: b in s.bills ==> BillAgrees(s, b))
    && (forall u :: u in s.users ==> WalletAgrees(s, u))
  }

  /** The one assumption about the outside: a `charge.success` that takes effect names a credit (the handler
      does not look at the transaction's type) and does not push the wallet below zero. */
  predicate Safe(s: Store, st: Step) {
    st.Webhook? && EffectOf(s, st.event).Credits? ==>
      var t := s.txns[st.event.reference];
      t.kind.Credit? && 0 <= s.users[t.user] + EffectOf(s, st.event).amount
  }

  predicate SafeRun(s: Store, steps: seq<Step>)
    decreases |steps|
  {
    steps == [] || (Safe(s, steps[0]) && SafeRun(Apply(s, steps[0]), steps[1..]))
  }

  lemma InvAtStart()
    ensures Inv(EMPTY)
  {
  }

  // ----- one step -----

  lemma RowsStayOk(s: Store, s': Store, r: Ref, t: Txn)
    requires forall r' :: r' in s.txns ==> RowOk(s, s.txns[r'])
    requires s'.txns == s.txns[r := t] && RowOk(s', t)
    requires s'.bills.Keys == s.bills.Keys
    requires forall b :: b in s.bills ==> s'.bills[b].user == s.bills[b].user
    ensures forall r' :: r' in s'.txns ==> RowOk(s', s'.txns[r'])
  {
    forall r' | r' in s'.txns && r' != r ensures RowOk(s', s'.txns[r']) {
      var other := s.txns[r'];
      assert RowOk(s, other);
      if other.kind.Debit? {
        var b: BillId := other.bill.value;
        assert s'.bills[b].user == s.bills[b].user;
      }
    }
  }

  /** A step that writes one transaction row, and apart from that only the bill and the user this row names,
      needs to be checked only there. */
  lemma LocalChangeKeepsInv(s: Store, s': Store, r: Ref, t: Txn)
    requires Inv(s) && s'.txns == s.txns[r := t]
    requires r in s.txns ==> t.user == s.txns[r].user && t.bill == s.txns[r].bill
    requires s'.users.Keys == s.users.Keys && s'.bills.Keys == s.bills.Keys
    requires forall b :: b in s.bills ==> s'.bills[b].user == s.bills[b].user
    requires forall b :: b in s.bills && t.bill != Some(b) ==> s'.bills[b] == s.bills[b]
    requires forall u :: u in s.users && t.user != u ==> s'.users[u] == s.users[u]
    requires t.user in s'.users && RowOk(s', t)
    requires t.bill.Some? ==> t.bill.value in s'.bills && BillAgrees(s', t.bill.value)
    requires WalletAgrees(s', t.user)
    ensures Inv(s')
  {
    forall b | b in s'.bills ensures BillAgrees(s', b) {
      if t.bill != Some(b) {
        assert BillAgrees(s, b);
        BillTotalsAfterWrite(s.txns, r, t, b);
      }
    }
    forall u | u in s'.users ensures WalletAgrees(s', u) {
      if t.user != u {
        assert WalletAgrees(s, u);
        WalletTotalsAfterWrite(s.txns, r, t, u);
      }
    }
    RowsStayOk(s, s', r, t);
  }

  lemma PayoutKeepsInv(s: Store, b: BillId, r: Ref, fee: nat)
    requires Inv(s)
    ensures Inv(Payout(s, b, r, fee))
  {
    if CanPay(s, b, r, fee) {
      var s' := Payout(s, b, r, fee);
      var t := DebitFor(b, s.bills[b], fee);
      assert BillAgrees(s, b) && WalletAgrees(s, t.user);
      BillTotalsAfterWrite(s.txns, r, t, b);
      WalletTotalsAfterWrite(s.txns, r, t, t.user);
      LocalChangeKeepsInv(s, s', r, t);
    }
  }

  lemma SuccessKeepsInv(s: Store, r: Ref)
    requires Inv(s) && Settleable(s, r)
    ensures Inv(Settle(s, r, true))
  {
    var s' := Settle(s, r, true);
    var t := s'.txns[r];
    var b := t.bill.value;
    assert RowOk(s, s.txns[r]) && BillAgrees(s, b) && WalletAgrees(s, t.user);
    ProcessingDebitMeansProcessingBill(s, r);
    BillTotalsAfterWrite(s.txns, r, t, b);
    WalletTotalsAfterWrite(s.txns, r, t, t.user);
    LocalChangeKeepsInv(s, s', r, t);
  }

  lemma RefundKeepsInv(s: Store, r: Ref)
    requires Inv(s) && Settleable(s, r)
    ensures Inv(Settle(s, r, false))
  {
    var s' := Settle(s, r, false);
    var t := s'.txns[r];
    var b := t.bill.value;
    assert RowOk(s, s.txns[r]) && BillAgrees(s, b) && WalletAgrees(s, t.user);
    ProcessingDebitMeansProcessingBill(s, r);
    BillTotalsAfterWrite(s.txns, r, t, b);
    WalletTotalsAfterWrite(s.txns, r, t, t.user);
    LocalChangeKeepsInv(s, s', r, t);
  }

  lemma ProcessingDebitMeansProcessingBill(s: Store, r: Ref)
    requires Inv(s) && r in s.txns && s.txns[r].bill.Some? && s.txns[r].status == TxnProcessing
    ensures s.bills[s.txns[r].bill.value].status == Processing
  {
    assert BillAgrees(s, s.txns[r].bill.value);
    CountBounds(s.txns, ProcessingOn(s.txns[r].bill.value));
  }

  lemma CreditKeepsInv(s: Store, r: Ref, amount: int)
    requires Inv(s) && r in s.txns && s.txns[r].kind.Credit?
    requires 0 <= s.users[s.txns[r].user] + amount
    ensures Inv(CreditWallet(s, r, amount))
  {
    var s' := CreditWallet(s, r, amount);
    var t := s'.txns[r];
    assert RowOk(s, s.txns[r]) && WalletAgrees(s, t.user);
    WalletTotalsAfterWrite(s.txns, r, t, t.user);
    LocalChangeKeepsInv(s, s', r, t);
  }

  /** A charge that hits a debit, or drives the wallet negative, does break the invariant. */
  lemma UnsafeChargeBreaksInv(s: Store, r: Ref, amount: int)
    requires Inv(s) && r in s.txns && s.txns[r].status != TxnSuccess
    requires s.txns[r].kind.Debit? || s.users[s.txns[r].user] + amount < 0
    ensures !Inv(CreditWallet(s, r, amount))
  {
    var s' := CreditWallet(s, r, amount);
    var t := s'.txns[r];
    if s.txns[r].kind.Debit? {
      assert RowOk(s, s.txns[r]) && BillAgrees(s, t.bill.value);
      BillTotalsAfterWrite(s.txns, r, t, t.bill.value);
      assert !BillAgrees(s', t.bill.value);
    } else {
      assert !WalletAgrees(s', t.user);
    }
  }

  lemma SeenIsNotPartOfInv(s: Store, ids: set<EventId>)
    ensures Inv(s.(seen := ids)) <==> Inv(s)
  {
  }

  /** A user or bill that no row refers to has nothing recorded against it. */
  lemma {:induction false} TotalOfZeros(txns: map<Ref, Txn>, q: Quantity)
    requires forall r :: r in txns ==> Weight(q, txns[r]) == 0
    ensures Total(txns, q) == 0
    decreases |txns|
  {
    if txns != map[] {
      var first :| first in txns && Total(txns, q) == Weight(q, txns[first]) + Total(txns - {first}, q);
      TotalOfZeros(txns - {first}, q);
    }
  }

  lemma NewUserKeepsInv(s: Store, u: UserId)
    requires Inv(s)
    ensures Inv(Apply(s, AddUser(u)))
  {
    var s' := Apply(s, AddUser(u));
    if u !in s.users {
      TotalOfZeros(s.txns, HeldFrom(u));
      TotalOfZeros(s.txns, CreditedTo(u));
      assert forall b :: b in s.bills ==> BillAgrees(s', b);
      assert forall u' :: u' in s.users ==> WalletAgrees(s', u');
      assert forall r :: r in s.txns ==> RowOk(s', s.txns[r]);
    }
  }

  lemma NewBillKeepsInv(s: Store, b: BillId, row: Bill)
    requires Inv(s)
    ensures Inv(Apply(s, AddBill(b, row)))
  {
    var s' := Apply(s, AddBill(b, row));
    if NewBill(s, b, row) {
      TotalOfZeros(s.txns, AttemptsOn(b));
      TotalOfZeros(s.txns, ProcessingOn(b));
      TotalOfZeros(s.txns, SucceededOn(b));
      TotalOfZeros(s.txns, FailedOn(b));
      assert forall b' :: b' in s.bills ==> BillAgrees(s', b');
      assert forall u :: u in s.users ==> WalletAgrees(s', u);
      assert forall r :: r in s.txns ==> RowOk(s', s.txns[r]);
    }
  }

  lemma NewCreditKeepsInv(s: Store, r: Ref, u: UserId, amount: nat)
    requires Inv(s)
    ensures Inv(Apply(s, AddCredit(r, u, amount)))
  {
    var s' := Apply(s, AddCredit(r, u, amount));
    if r !in s.txns && u in s.users {
      var t := s'.txns[r];
      assert WalletAgrees(s, u);
      WalletTotalsAfterWrite(s.txns, r, t, u);
      LocalChangeKeepsInv(s, s', r, t);
    }
  }

  /** Cancelling and releasing change a bill's status only, and never to or from one that counts debits. */
  lemma StatusChangeKeepsInv(s: Store, b: BillId, status: BillStatus)
    requires Inv(s) && b in s.bills
    requires Payable(s.bills[b].status) || s.bills[b].status == Cancelled
    requires status == Cancelled || (status == Pending && s.bills[b].status == Scheduled)
    ensures Inv(s.(bills := s.bills[b := s.bills[b].(status := status)]))
  {
  }

  lemma DeliveryKeepsInvIffSafe(s: Store, e: Event)
    requires Inv(s)
    ensures Inv(Deliver(s, e)) <==> Safe(s, Webhook(e))
  {
    var seen' := s.seen + {e.id};
    match EffectOf(s, e) {
      case Dropped =>
      case Noted => SeenIsNotPartOfInv(s, seen');
      case Credits(amount) =>
        SeenIsNotPartOfInv(CreditWallet(s, e.reference, amount), seen');
        if Safe(s, Webhook(e)) {
          CreditKeepsInv(s, e.reference, amount);
        } else {
          UnsafeChargeBreaksInv(s, e.reference, amount);
        }
      case Settles(success) =>
        if success {
          SuccessKeepsInv(s, e.reference);
        } else {
          RefundKeepsInv(s, e.reference);
        }
        SeenIsNotPartOfInv(Settle(s, e.reference, success), seen');
    }
  }

  /** Every step keeps the invariant except a charge that violates the assumption, and that one never does. */
  lemma StepKeepsInvIffSafe(s: Store, st: Step)
    requires Inv(s)
    ensures Inv(Apply(s, st)) <==> Safe(s, st)
  {
    match st {
      case Webhook(e) => DeliveryKeepsInvIffSafe(s, e);
      case Pay(b, r, fee) => PayoutKeepsInv(s, b, r, fee);
      case CancelBill(b, caller) =>
        if Cancellable(s, b, caller) {
          StatusChangeKeepsInv(s, b, Cancelled);
        }
      case SchedulerTurn(b, now, fee) =>
        if Apply(s, st) != s {
          StatusChangeKeepsInv(s, b, Pending);
        }
      case AddUser(u) => NewUserKeepsInv(s, u);
      case AddBill(b, row) => NewBillKeepsInv(s, b, row);
      case AddCredit(r, u, amount) => NewCreditKeepsInv(s, r, u, amount);
    }
  }

  // ----- every run -----

  lemma {:induction false} InvOverRuns(s: Store, steps: seq<Step>)
    requires Inv(s) && SafeRun(s, steps)
    ensures Inv(Run(s, steps))
    decreases |steps|
  {
    if steps != [] {
      StepKeepsInvIffSafe(s, steps[0]);
      InvOverRuns(Apply(s, steps[0]), steps[1..]);
    }
  }

  /** A condition on the run alone that implies the assumption: charges carry no negative amount, and no charge
      uses a reference from `payouts`, which covers the references of all debits, past and to come. */
  predicate WellAddressed(steps: seq<Step>, payouts: set<Ref>) {
    forall st :: st in steps ==>
      && (st.Pay? ==> st.reference in payouts)
      && (st.Webhook? && st.event.kind.ChargeSuccess? ==>
            st.event.reference !in payouts && (st.event.amount.Some? ==> 0 <= st.event.amount.value))
  }

  lemma StepAddsOnlyItsOwnDebit(s: Store, st: Step, r: Ref)
    requires r in Apply(s, st).txns && Apply(s, st).txns[r].kind.Debit?
    ensures (r in s.txns && s.txns[r].kind.Debit?) || (st.Pay? && st.reference == r)
  {
  }

  lemma {:induction false} SeparateReferencesAreSafe(s: Store, steps: seq<Step>, payouts: set<Ref>)
    requires Inv(s) && WellAddressed(steps, payouts)
    requires forall r :: r in s.txns && s.txns[r].kind.Debit? ==> r in payouts
    ensures SafeRun(s, steps)
    decreases |steps|
  {
    if steps != [] {
      var st, s' := steps[0], Apply(s, steps[0]);
      assert st in steps;
      assert Safe(s, st) by {
        if st.Webhook? && EffectOf(s, st.event).Credits? {
          assert WalletAgrees(s, s.txns[st.event.reference].user);
        }
      }
      StepKeepsInvIffSafe(s, st);
      forall r | r in s'.txns && s'.txns[r].kind.Debit? ensures r in payouts {
        StepAddsOnlyItsOwnDebit(s, st, r);
      }
      SeparateReferencesAreSafe(s', steps[1..], payouts);
    }
  }

  const TOP_UP: seq<Step> :=
    [AddUser(1), AddCredit("topup", 1, 0), Webhook(Event(ChargeSuccess, "topup", "e1", Some(1000)))]

  const PAYMENT: seq<Step> := [AddBill(7, Bill(1, 500, 0, Pending, 0, 3, true)), Pay(7, "payout", 50)]

  const STRAY_CHARGE: Event := Event(ChargeSuccess, "payout", "e2", Some(500))

  const TOPPED_UP: Store :=
    Store(map[1 := 1000], map[], map["topup" := Txn(Credit, 1, None, 0, 0, TxnSuccess, 1000)], {"e1"})

  lemma RunTwo(s: Store, st1: Step, st2: Step)
    ensures Run(s, [st1, st2]) == Apply(Apply(s, st1), st2)
  {
    assert [st1, st2][1..] == [st2];
    assert Run(Apply(s, st1), [st2]) == Run(Apply(Apply(s, st1), st2), [st2][1..]);
  }

  lemma AfterTopUp()
    ensures Run(EMPTY, TOP_UP) == TOPPED_UP && Inv(TOPPED_UP)
  {
  }

  /** The assumption cannot be dropped: a charge under the reference of a payout in progress marks the debit
      successful, leaves the bill in `processing` for good, and credits the wallet. */
  lemma StrayChargeBreaksInv()
    ensures Run(EMPTY, TOP_UP) == TOPPED_UP
    ensures Inv(Run(TOPPED_UP, PAYMENT)) && !Inv(Deliver(Run(TOPPED_UP, PAYMENT), STRAY_CHARGE))
  {
    AfterTopUp();
    RunTwo(TOPPED_UP, PAYMENT[0], PAYMENT[1]);
    var s1 := Apply(TOPPED_UP, PAYMENT[0]);
    StepKeepsInvIffSafe(TOPPED_UP, PAYMENT[0]);
    StepKeepsInvIffSafe(s1, PAYMENT[1]);
    StepKeepsInvIffSafe(Apply(s1, PAYMENT[1]), Webhook(STRAY_CHARGE));
  }

  // ----- what the counts say about individual rows -----

  predicate DebitOf(t: Txn, b: BillId, status: TxnStatus) {
    t.kind.Debit? && t.bill == Some(b) && t.status == status
  }

  /** Charged at most once: a bill never has two debits that have not failed; it is `processing` exactly when
      one of its debits is, and `paid` exactly when one has succeeded. */
  lemma ChargedAtMostOnce(s: Store, b: BillId)
    requires Inv(s) && b in s.bills
    ensures forall r1, r2 ::
              (r1 in s.txns && s.txns[r1].bill == Some(b) && s.txns[r1].status != TxnFailed &&
               r2 in s.txns && s.txns[r2].bill == Some(b) && s.txns[r2].status != TxnFailed) ==> r1 == r2
    ensures s.bills[b].status == Processing <==> exists r :: r in s.txns && DebitOf(s.txns[r], b, TxnProcessing)
    ensures s.bills[b].status == Paid <==> exists r :: r in s.txns && DebitOf(s.txns[r], b, TxnSuccess)
  {
    CountOfOne(s.txns, ProcessingOn(b));
    CountOfOne(s.txns, SucceededOn(b));
    CountBounds(s.txns, ProcessingOn(b));
    CountBounds(s.txns, SucceededOn(b));
    forall r | r in s.txns ensures RowOk(s, s.txns[r]) {}
  }
}
