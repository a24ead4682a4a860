/** What the ledger's operations do, column by column, and what they do to each other: a failed transfer undoes
    its payout, and the bill it leaves behind can be released and paid again. */
module LedgerOutcomes {
  import opened Options
  import opened Decisions
  import opened Ledger
  import opened LedgerInvariant
  import Scheduler

  // ----- payout -----

  /** A payout goes through exactly for a stored bill that is pending, scheduled or failed, has an account, and
      whose owner can cover amount and fee, under a new reference. It debits the owner and files the debit. */
  lemma PayoutColumns(s: Store, b: BillId, r: Ref, fee: nat)
    ensures CanPay(s, b, r, fee)
            <==> && b in s.bills && s.bills[b].user in s.users && r !in s.txns && s.bills[b].hasAccount
                 && s.bills[b].status in {Pending, Scheduled, Failed}
                 && s.bills[b].amount + fee <= s.users[s.bills[b].user]
    ensures CanPay(s, b, r, fee) ==>
              var bill := s.bills[b];
              Payout(s, b, r, fee)
              == s.(users := s.users[bill.user := s.users[bill.user] - bill.amount - fee],
                    bills := s.bills[b := bill.(status := Processing)],
                    txns := s.txns[r := Txn(kind := Debit, user := bill.user, bill := Some(b), amount := bill.amount,
                                            fee := fee, status := TxnProcessing, credited := 0)])
    ensures !CanPay(s, b, r, fee) ==> Payout(s, b, r, fee) == s
  {
  }

  // ----- transfer webhooks -----

  /** A debit whose transfer has no outcome yet. */
  predicate Unsettled(s: Store, r: Ref) {
    && r in s.txns && s.txns[r].status != TxnSuccess && s.txns[r].status != TxnFailed
    && s.txns[r].bill.Some? && s.txns[r].bill.value in s.bills && s.txns[r].user in s.users
  }

  /** `transfer.failed` and `transfer.reversed`: the recorded amount and fee go back to the owner, the bill has one
      more retry behind it and is scheduled again, or failed if that was the last one. */
  lemma FailureColumns(s: Store, e: Event)
    requires e.kind == TransferFailed || e.kind == TransferReversed
    requires e.id !in s.seen && Unsettled(s, e.reference)
    ensures var t := s.txns[e.reference];
            var b, bill := t.bill.value, s.bills[t.bill.value];
            Deliver(s, e)
            == Store(s.users[t.user := s.users[t.user] + t.amount + t.fee],
                     s.bills[b := bill.(retries := bill.retries + 1,
                                        status := if bill.retries + 1 < bill.maxRetries then Scheduled else Failed)],
                     s.txns[e.reference := t.(status := TxnFailed)],
                     s.seen + {e.id})
  {
  }

  /** `transfer.success`: the debit succeeded and the bill is paid; no money moves. */
  lemma SuccessColumns(s: Store, e: Event)
    requires e.kind == TransferSuccess && e.id !in s.seen && Unsettled(s, e.reference)
    ensures var t := s.txns[e.reference];
            var b := t.bill.value;
            Deliver(s, e)
            == s.(bills := s.bills[b := s.bills[b].(status := Paid)],
                  txns := s.txns[e.reference := t.(status := TxnSuccess)],
                  seen := s.seen + {e.id})
  {
  }

  // ----- charges -----

  /** A charge for a stored reference that has not succeeded yet adds its amount, nothing if it carries none. */
  lemma ChargeColumns(s: Store, e: Event)
    requires e.kind == ChargeSuccess && e.id !in s.seen && e.reference != ""
    requires e.reference in s.txns && s.txns[e.reference].status != TxnSuccess && s.txns[e.reference].user in s.users
    ensures var t := s.txns[e.reference];
            var amount := if e.amount == None then 0 else e.amount.value;
            Deliver(s, e)
            == s.(users := s.users[t.user := s.users[t.user] + amount],
                  txns := s.txns[e.reference := t.(status := TxnSuccess, credited := t.credited + amount)],
                  seen := s.seen + {e.id})
  {
  }

  /** All other deliveries move nothing. A new event id is recorded, except for a charge without a reference, or
      one that was applied before, whose handler returns before the commit. */
  lemma OtherDeliveriesColumns(s: Store, e: Event)
    requires Linked(s)
    requires e.kind == ChargeSuccess ==>
               e.reference == "" || e.reference !in s.txns || s.txns[e.reference].status == TxnSuccess
    requires e.kind in {TransferSuccess, TransferFailed, TransferReversed} ==> !Unsettled(s, e.reference)
    ensures Deliver(s, e)
            == if e.kind == ChargeSuccess && (e.reference == "" || e.reference in s.txns) then s
               else s.(seen := s.seen + {e.id})
  {
  }

  lemma ReplayColumns(s: Store, e: Event)
    requires e.id in s.seen
    ensures Deliver(s, e) == s
  {
  }

  // ----- cancelling -----

  lemma CancelColumns(s: Store, b: BillId, caller: UserId)
    ensures Cancel(s, b, caller)
            == if b in s.bills && s.bills[b].user == caller
                  && s.bills[b].status in {Pending, Scheduled, Failed, Cancelled}
               then s.(bills := s.bills[b := s.bills[b].(status := Cancelled)])
               else s
  {
  }

  // ----- the remaining steps -----

  lemma SchedulerTurnColumns(s: Store, b: BillId, now: Time, fee: nat)
    ensures Apply(s, SchedulerTurn(b, now, fee))
            == if b in s.bills && s.bills[b].status == Scheduled && s.bills[b].due <= now
                  && s.bills[b].user in s.users && s.bills[b].amount + fee <= s.users[s.bills[b].user]
               then s.(bills := s.bills[b := s.bills[b].(status := Pending)])
               else s
  {
    if b in s.bills && s.bills[b].user in s.users {
      DecideOnTheClock(s.users[s.bills[b].user], s.bills[b].amount, fee, s.bills[b].due, now);
    }
  }

  lemma NewRowsColumns(s: Store, u: UserId, b: BillId, row: Bill, r: Ref, amount: nat)
    ensures u !in s.users ==> Apply(s, AddUser(u)) == s.(users := s.users[u := 0])
    ensures (b !in s.bills && row.user in s.users && row.status in {Pending, Scheduled} && row.retries == 0
             && 0 < row.maxRetries) ==> Apply(s, AddBill(b, row)) == s.(bills := s.bills[b := row])
    ensures r !in s.txns && u in s.users ==>
              Apply(s, AddCredit(r, u, amount))
              == s.(txns := s.txns[r := Txn(kind := Credit, user := u, bill := None, amount := amount, fee := 0,
                                            status := TxnPending, credited := 0)])
  {
  }

  // ----- what one operation undoes -----

  predicate Fails(e: Event, r: Ref) {
    e.reference == r && (e.kind == TransferFailed || e.kind == TransferReversed)
  }

  /** A payout followed by the failure of its transfer leaves every wallet as it was, whatever was paid as a fee,
      and of the bill only the retry counter and the status differ. */
  lemma FailureUndoesPayout(s: Store, b: BillId, r: Ref, fee: nat, e: Event)
    requires CanPay(s, b, r, fee) && Fails(e, r) && e.id !in s.seen
    ensures var s' := Deliver(Payout(s, b, r, fee), e);
            && s'.users == s.users
            && s'.bills == s.bills[b := s.bills[b].(retries := s.bills[b].retries + 1, status := s'.bills[b].status)]
            && s'.bills[b].status == (if s.bills[b].retries + 1 < s.bills[b].maxRetries then Scheduled else Failed)
  {
    PayoutColumns(s, b, r, fee);
    FailureColumns(Payout(s, b, r, fee), e);
  }

  /** With retries left, such a bill is picked up by the next scheduler tick after its due date, and can then be
      paid under a new reference. */
  lemma FailedPayoutIsRetried(s: Store, b: BillId, r: Ref, fee: nat, e: Event, now: Time, r': Ref)
    requires CanPay(s, b, r, fee) && Fails(e, r) && e.id !in s.seen
    requires s.bills[b].retries + 1 < s.bills[b].maxRetries && s.bills[b].due <= now
    requires r' !in s.txns && r' != r
    ensures var failed := Deliver(Payout(s, b, r, fee), e);
            && Scheduler.Releasable(failed, b, now, fee)
            && Scheduler.Tick(failed, now, fee).bills[b].status == Pending
            && CanPay(Scheduler.Tick(failed, now, fee), b, r', fee)
  {
    FailureUndoesPayout(s, b, r, fee, e);
    PayoutColumns(s, b, r, fee);
    FailureColumns(Payout(s, b, r, fee), e);
    PayoutColumns(Scheduler.Tick(Deliver(Payout(s, b, r, fee), e), now, fee), b, r', fee);
  }

  /** A bill out of retries is not picked up again, but its owner can still pay it. */
  lemma ExhaustedBillWaitsForItsOwner(s: Store, b: BillId, r: Ref, fee: nat, e: Event, now: Time, r': Ref)
    requires CanPay(s, b, r, fee) && Fails(e, r) && e.id !in s.seen
    requires s.bills[b].maxRetries <= s.bills[b].retries + 1
    requires r' !in s.txns && r' != r
    ensures var failed := Deliver(Payout(s, b, r, fee), e);
            && !Scheduler.Releasable(failed, b, now, fee)
            && Scheduler.Tick(failed, now, fee).bills[b].status == Failed
            && CanPay(failed, b, r', fee)
  {
    FailureUndoesPayout(s, b, r, fee, e);
    PayoutColumns(s, b, r, fee);
    FailureColumns(Payout(s, b, r, fee), e);
    PayoutColumns(Deliver(Payout(s, b, r, fee), e), b, r', fee);
  }
}
