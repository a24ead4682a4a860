/** The code that drives one database session at a time: `execute_payout` and its callers, the webhook
    handlers, the bill endpoints and the scheduler job. `view` is what the session sees, with its own
    uncommitted writes; `committed` is the database. */
module PayoutSession {
  import opened Options
  import opened Provider
  import opened Decisions
  import opened Ledger
  import Outcomes = LedgerOutcomes
  import Scheduler
  import Workers = PayoutWorkers

  datatype Error =
    | NotFound | Conflict | PaymentRequired | Unprocessable | BadGateway
    | ProviderRaised(reply: Reply)
    | IntegrityError

  datatype Outcome = Initiated(newBalance: int) | Refused(error: Error)

  /** Raised as an HTTPException, and so passed on to the client as it is. */
  predicate IsHttp(e: Error) {
    !e.ProviderRaised? && !e.IntegrityError?
  }

  datatype Answers = Answers(resolve: Reply, recipient: Reply, transfer: Reply)

  predicate AllGranted(a: Answers) {
    a.resolve.Granted? && a.recipient.Granted? && a.transfer.Granted?
  }

  predicate Found(s: Store, b: BillId) {
    b in s.bills && s.bills[b].user in s.users
  }

  /** The caller's own bill, in a status from which it can be paid. */
  predicate Presentable(s: Store, b: BillId, caller: UserId) {
    && b in s.bills && s.bills[b].user == caller && caller in s.users
    && s.bills[b].status in {Pending, Scheduled, Failed}
  }

  /** The concurrent machine's worker for this attempt, run alone from the moment it holds both locks. */
  function Solo(s: Store, b: BillId, r: Ref, fee: nat, a: Answers): Workers.Worker
    requires Found(s, b)
  {
    var row := s.bills[b];
    var w := Workers.Checked(Workers.Worker(b, r, Workers.BothLocked(row, s.users[row.user]), Workers.NO_WRITES), fee);
    if !w.pc.Awaiting? then w else
    var w := Workers.Answered(w, a.resolve);
    if !w.pc.Awaiting? then w else
    var w := Workers.Answered(w, a.recipient);
    if !w.pc.Awaiting? then w else Workers.Answered(w, a.transfer)
  }

  /** A worker's buffer, written into the session's view. */
  function Written(s: Store, w: Workers.Worker): Store
    requires w.bill in s.bills
  {
    s.(users := if w.writes.balance.Some? then s.users[s.bills[w.bill].user := w.writes.balance.value] else s.users,
       bills := if w.writes.bill.Some? then s.bills[w.bill := w.writes.bill.value] else s.bills,
       txns := if w.writes.debit.Some? then s.txns[w.reference := w.writes.debit.value] else s.txns)
  }

  /** The bill one failed attempt further, the debit failed, and no balance touched. */
  function AfterRefund(s: Store, b: BillId, r: Ref): Store
    requires b in s.bills && r in s.txns
  {
    s.(bills := s.bills[b := AfterFailure(s.bills[b])],
       txns := s.txns[r := s.txns[r].(status := TxnFailed)])
  }

  function FirstFailure(a: Answers): Reply {
    if !a.resolve.Granted? then a.resolve else if !a.recipient.Granted? then a.recipient else a.transfer
  }

  /** The session's view once the debit is flushed: the bill and its new debit in `processing`. */
  function Reserved(s: Store, b: BillId, r: Ref, fee: nat): Store
    requires b in s.bills
  {
    s.(bills := s.bills[b := s.bills[b].(status := Processing)], txns := s.txns[r := DebitFor(b, s.bills[b], fee)])
  }

  /** The concurrent worker ends in the same three ways as the sequential code. */
  lemma SoloEndings(s: Store, b: BillId, r: Ref, fee: nat, a: Answers)
    requires Found(s, b) && Payable(s.bills[b].status)
    requires s.bills[b].amount + fee <= s.users[s.bills[b].user]
    ensures var w := Solo(s, b, r, fee, a);
            && (w.pc.ReadyToCommit? <==> s.bills[b].hasAccount && AllGranted(a))
            && Written(s, w)
               == if w.pc.ReadyToCommit? then
                    Reserved(s, b, r, fee).(users := TopUp(s.users, s.bills[b].user, -(s.bills[b].amount + fee)))
                  else if RefundsOnFailure(s.bills[b].hasAccount, a) then AfterRefund(Reserved(s, b, r, fee), b, r)
                  else Reserved(s, b, r, fee)
  {
  }

  /** Whether the first failing provider call is one whose error is caught. */
  predicate RefundsOnFailure(hasAccount: bool, a: Answers) {
    if !hasAccount then true
    else if !a.resolve.Granted? then Workers.Refunds(Workers.ResolveAccount, a.resolve)
    else if !a.recipient.Granted? then Workers.Refunds(Workers.CreateRecipient, a.recipient)
    else Workers.Refunds(Workers.InitiateTransfer, a.transfer)
  }

  /** What the buffers of a caught and of an escaping provider error contain, column by column. */
  lemma RaisedColumns(s: Store, b: BillId, r: Ref, fee: nat)
    requires b in s.bills
    ensures var bill := s.bills[b];
            Reserved(s, b, r, fee)
            == s.(bills := s.bills[b := bill.(status := Processing)],
                  txns := s.txns[r := Txn(kind := Debit, user := bill.user, bill := Some(b), amount := bill.amount,
                                          fee := fee, status := TxnProcessing, credited := 0)])
    ensures var bill := s.bills[b];
            AfterRefund(Reserved(s, b, r, fee), b, r)
            == s.(bills := s.bills[b := bill.(retries := bill.retries + 1,
                                              status := if bill.retries + 1 < bill.maxRetries then Scheduled
                                                        else Failed)],
                  txns := s.txns[r := Txn(kind := Debit, user := bill.user, bill := Some(b), amount := bill.amount,
                                          fee := fee, status := TxnFailed, credited := 0)])
  {
  }

  datatype CancelResult = NoSuchBill | NotCancellable | NowCancelled

  class Session {
    var committed: Store
    var view: Store

    constructor (db: Store)
      ensures committed == view == db
    {
      committed, view := db, db;
    }

    method Commit()
      modifies this`committed
      ensures committed == view
    {
      committed := view;
    }

    /** Also what closing a session without a commit amounts to. */
    method Rollback()
      modifies this`view
      ensures view == committed
    {
      view := committed;
    }

    // ----- app/services/payout.py -----

    method RefundOnFailure(b: BillId, r: Ref)
      requires b in view.bills && r in view.txns
      modifies this`view
      ensures view == AfterRefund(old(view), b, r)
      ensures var bill := old(view).bills[b];
              view == old(view).(
                bills := old(view).bills[b := bill.(retries := bill.retries + 1,
                                                    status := if bill.retries + 1 < bill.maxRetries then Scheduled
                                                              else Failed)],
                txns := old(view).txns[r := old(view).txns[r].(status := TxnFailed)])
    {
      view := view.(txns := view.txns[r := view.txns[r].(status := TxnFailed)]);
      var bill := view.bills[b];
      bill := bill.(retries := bill.retries + 1);
      if bill.retries >= bill.maxRetries {
        bill := bill.(status := Failed);
      } else {
        bill := bill.(status := Scheduled);
      }
      view := view.(bills := view.bills[b := bill]);
    }

    /** Steps 6 and 7 of the payout: the three provider calls and their error handling. */
    method AskProvider(b: BillId, r: Ref, hasAccount: bool, a: Answers) returns (failure: Option<Error>)
      requires b in view.bills && r in view.txns
      modifies this`view
      ensures failure.None? <==> hasAccount && AllGranted(a)
      ensures view == if RefundsOnFailure(hasAccount, a) then AfterRefund(old(view), b, r) else old(view)
      ensures RefundsOnFailure(hasAccount, a)
              <==> || !hasAccount
                   || a.resolve == InvalidAccount
                   || (a.resolve == Granted && a.recipient != Granted && a.recipient != Crashed)
                   || (a.resolve == Granted && a.recipient == Granted && a.transfer != Granted && a.transfer != Crashed)
      ensures failure.Some? ==> !failure.value.NotFound? && !failure.value.Conflict? && !failure.value.PaymentRequired?
      ensures failure.Some? && failure.value.ProviderRaised? ==> failure.value.reply == FirstFailure(a)
      ensures failure != Some(IntegrityError)
      ensures failure == Some(BadGateway)
              <==> hasAccount && a.resolve.Granted? && a.recipient.Granted? && a.transfer.InsufficientFunds?
      ensures failure == Some(Unprocessable)
              <==> !hasAccount || a.resolve.InvalidAccount? || (a.resolve.Granted? && a.recipient.AccountNameMismatch?)
    {
      if !hasAccount {
        RefundOnFailure(b, r);
        return Some(Unprocessable);
      }
      if a.resolve.InvalidAccount? {
        RefundOnFailure(b, r);
        return Some(Unprocessable);
      } else if !a.resolve.Granted? {
        return Some(ProviderRaised(a.resolve));
      }
      if a.recipient.AccountNameMismatch? {
        RefundOnFailure(b, r);
        return Some(Unprocessable);
      } else if IsPaymentError(a.recipient) {
        RefundOnFailure(b, r);
        return Some(ProviderRaised(a.recipient));
      } else if !a.recipient.Granted? {
        return Some(ProviderRaised(a.recipient));
      }
      if a.transfer.InsufficientFunds? {
        RefundOnFailure(b, r);
        return Some(BadGateway);
      } else if IsPaymentError(a.transfer) {
        RefundOnFailure(b, r);
        return Some(ProviderRaised(a.transfer));
      } else if !a.transfer.Granted? {
        return Some(ProviderRaised(a.transfer));
      }
      return None;
    }

    /** The payout protocol. It initiates a transfer exactly when every check passes and every provider call
        is granted, and then its writes are the atomic payout step. If it raises, no balance has changed, and
        the session holds what the concurrent machine's worker has in its buffer. */
    method ExecutePayout(b: BillId, r: Ref, fee: nat, a: Answers) returns (out: Outcome)
      modifies this`view
      ensures out.Initiated? <==> CanPay(old(view), b, r, fee) && AllGranted(a)
      ensures out.Initiated? ==>
                view == Payout(old(view), b, r, fee) && out.newBalance == view.users[view.bills[b].user]
      ensures out.Refused? ==> view.users == old(view).users && view.seen == old(view).seen
      ensures !Found(old(view), b) || r in old(view).txns ==> view.txns == old(view).txns
      ensures Found(old(view), b) && r !in old(view).txns ==>
                && view == Written(old(view), Solo(old(view), b, r, fee, a))
                && (out.Initiated? <==> Solo(old(view), b, r, fee, a).pc.ReadyToCommit?)
      ensures out.Initiated?
              <==> && b in old(view).bills && old(view).bills[b].user in old(view).users && r !in old(view).txns
                   && old(view).bills[b].status in {Pending, Scheduled, Failed}
                   && old(view).bills[b].amount + fee <= old(view).users[old(view).bills[b].user]
                   && old(view).bills[b].hasAccount
                   && a.resolve == Granted && a.recipient == Granted && a.transfer == Granted
      ensures out.Initiated? ==>
                var bill := old(view).bills[b];
                view == old(view).(
                  users := old(view).users[bill.user := old(view).users[bill.user] - bill.amount - fee],
                  bills := old(view).bills[b := bill.(status := Processing)],
                  txns := old(view).txns[r := Txn(kind := Debit, user := bill.user, bill := Some(b),
                                                  amount := bill.amount, fee := fee, status := TxnProcessing,
                                                  credited := 0)])
      ensures out == Refused(NotFound) || out == Refused(Conflict) ==> view == old(view)
      ensures out == Refused(NotFound)
              <==> b !in old(view).bills || old(view).bills[b].user !in old(view).users
      ensures out == Refused(Conflict)
              <==> Found(old(view), b) && old(view).bills[b].status in {Paid, Cancelled, Processing}
      ensures out == Refused(PaymentRequired)
              <==> Found(old(view), b) && old(view).bills[b].status in {Pending, Scheduled, Failed}
                   && old(view).users[old(view).bills[b].user] < old(view).bills[b].amount + fee
      ensures out == Refused(IntegrityError)
              <==> Found(old(view), b) && old(view).bills[b].status in {Pending, Scheduled, Failed}
                   && old(view).bills[b].amount + fee <= old(view).users[old(view).bills[b].user] && r in old(view).txns
      ensures out == Refused(Unprocessable)
              <==> Found(old(view), b) && old(view).bills[b].status in {Pending, Scheduled, Failed}
                   && old(view).bills[b].amount + fee <= old(view).users[old(view).bills[b].user] && r !in old(view).txns
                   && (!old(view).bills[b].hasAccount || a.resolve == InvalidAccount
                       || (a.resolve == Granted && a.recipient == AccountNameMismatch))
      ensures out == Refused(BadGateway)
              <==> Found(old(view), b) && old(view).bills[b].status in {Pending, Scheduled, Failed}
                   && old(view).bills[b].amount + fee <= old(view).users[old(view).bills[b].user] && r !in old(view).txns
                   && old(view).bills[b].hasAccount
                   && a.resolve == Granted && a.recipient == Granted && a.transfer == InsufficientFunds
      ensures out == Refused(PaymentRequired) ==>
                view == old(view).(bills := old(view).bills[b := old(view).bills[b].(status := Pending)])
    {
      if b !in view.bills {
        return Refused(NotFound);
      }
      var bill := view.bills[b];
      if bill.user !in view.users {
        return Refused(NotFound);
      }
      if bill.status == Paid || bill.status == Cancelled || bill.status == Processing {
        return Refused(Conflict);
      }
      var totalCharge := bill.amount + fee;
      if view.users[bill.user] < totalCharge {
        view := view.(bills := view.bills[b := bill.(status := Pending)]);
        return Refused(PaymentRequired);
      }
      bill := bill.(status := Processing);
      view := view.(bills := view.bills[b := bill]);
      if r in view.txns {
        return Refused(IntegrityError);
      }
      view := view.(txns := view.txns[r := Txn(Debit, bill.user, Some(b), bill.amount, fee, TxnProcessing, 0)]);
      assert view == Reserved(old(view), b, r, fee);
      SoloEndings(old(view), b, r, fee, a);
      var failure := AskProvider(b, r, bill.hasAccount, a);
      if failure.Some? {
        return Refused(failure.value);
      }
      Outcomes.PayoutColumns(old(view), b, r, fee);
      var balance := view.users[bill.user] - totalCharge;
      view := view.(users := view.users[bill.user := balance]);
      return Initiated(balance);
    }

    method ConfirmPayout(r: Ref, success: bool)
      modifies this`view
      ensures view == Settle(old(view), r, success)
      ensures !Outcomes.Unsettled(old(view), r) ==> view == old(view)
      ensures Outcomes.Unsettled(old(view), r) ==>
                var t := old(view).txns[r];
                var b, bill := t.bill.value, old(view).bills[t.bill.value];
                view == if success then
                          old(view).(bills := old(view).bills[b := bill.(status := Paid)],
                                     txns := old(view).txns[r := t.(status := TxnSuccess)])
                        else
                          old(view).(
                            users := old(view).users[t.user := old(view).users[t.user] + t.amount + t.fee],
                            bills := old(view).bills[b := bill.(retries := bill.retries + 1,
                                                                status := if bill.retries + 1 < bill.maxRetries
                                                                          then Scheduled else Failed)],
                            txns := old(view).txns[r := t.(status := TxnFailed)])
    {
      if r !in view.txns {
        return;
      }
      var txn := view.txns[r];
      if txn.bill == None || txn.bill.value !in view.bills {
        return;
      }
      if txn.status == TxnSuccess || txn.status == TxnFailed {
        return;
      }
      if txn.user !in view.users {
        return;
      }
      var b := txn.bill.value;
      var bill := view.bills[b];
      if success {
        txn := txn.(status := TxnSuccess);
        bill := bill.(status := Paid);
      } else {
        txn := txn.(status := TxnFailed);
        view := view.(users := view.users[txn.user := view.users[txn.user] + txn.amount + txn.fee]);
        bill := bill.(retries := bill.retries + 1);
        bill := bill.(status := if bill.retries >= bill.maxRetries then Failed else Scheduled);
      }
      view := view.(txns := view.txns[r := txn]);
      view := view.(bills := view.bills[b := bill]);
    }

    // ----- app/api/bills.py -----

    /** Every refusal, at whichever exit, leaves the database exactly as it was. */
    method PayBill(caller: UserId, b: BillId, r: Ref, fee: nat, a: Answers) returns (out: Outcome)
      requires view == committed
      modifies this
      ensures view == committed
      ensures out.Initiated? <==>
                CanPay(old(committed), b, r, fee) && old(committed).bills[b].user == caller && AllGranted(a)
      ensures committed == if out.Initiated? then Payout(old(committed), b, r, fee) else old(committed)
      ensures out.Initiated? ==>
                var bill := old(committed).bills[b];
                committed == old(committed).(
                  users := old(committed).users[caller := old(committed).users[caller] - bill.amount - fee],
                  bills := old(committed).bills[b := bill.(status := Processing)],
                  txns := old(committed).txns[r := Txn(kind := Debit, user := caller, bill := Some(b),
                                                       amount := bill.amount, fee := fee, status := TxnProcessing,
                                                       credited := 0)])
      ensures out == Refused(NotFound)
              <==> !(b in old(committed).bills && old(committed).bills[b].user == caller && caller in old(committed).users)
      ensures out == Refused(Conflict)
              <==> && b in old(committed).bills && old(committed).bills[b].user == caller && caller in old(committed).users
                   && old(committed).bills[b].status in {Paid, Cancelled, Processing}
      ensures out == Refused(PaymentRequired)
              <==> Presentable(old(committed), b, caller)
                   && old(committed).users[caller] < old(committed).bills[b].amount + fee
      ensures out == Refused(Unprocessable)
              <==> && Presentable(old(committed), b, caller) && r !in old(committed).txns
                   && old(committed).bills[b].amount + fee <= old(committed).users[caller]
                   && (!old(committed).bills[b].hasAccount || a.resolve == InvalidAccount
                       || (a.resolve == Granted && a.recipient == AccountNameMismatch))
      ensures out.Refused? ==> out.error in {NotFound, Conflict, PaymentRequired, Unprocessable, BadGateway}
    {
      if b !in view.bills || view.bills[b].user != caller {
        Rollback();
        return Refused(NotFound);
      }
      out := ExecutePayout(b, r, fee, a);
      if out.Initiated? {
        Commit();
      } else if IsHttp(out.error) {
        Rollback();
      } else {
        Rollback();
        out := Refused(BadGateway);
      }
    }

    method CancelBill(caller: UserId, b: BillId) returns (result: CancelResult)
      requires view == committed
      modifies this
      ensures view == committed == Cancel(old(committed), b, caller)
      ensures result == NowCancelled
              <==> && b in old(committed).bills && old(committed).bills[b].user == caller
                   && old(committed).bills[b].status in {Pending, Scheduled, Failed, Cancelled}
      ensures committed == if result == NowCancelled
                           then old(committed).(bills := old(committed).bills[b := old(committed).bills[b].(status := Cancelled)])
                           else old(committed)
      ensures result == NoSuchBill <==> b !in old(committed).bills || old(committed).bills[b].user != caller
    {
      if b !in view.bills || view.bills[b].user != caller {
        return NoSuchBill;
      }
      var bill := view.bills[b];
      if bill.status == Paid || bill.status == Processing {
        return NotCancellable;
      }
      view := view.(bills := view.bills[b := bill.(status := Cancelled)]);
      Commit();
      return NowCancelled;
    }

    /** `b` is the key the database gives the new row; `maxRetries` is the column default. */
    method CreateBill(caller: UserId, b: BillId, amount: nat, due: Time, hasAccount: bool, maxRetries: nat)
      requires view == committed && caller in view.users && b !in view.bills && 0 < maxRetries
      modifies this
      ensures view == committed
              == Apply(old(committed), AddBill(b, Bill(caller, amount, due, Pending, 0, maxRetries, hasAccount)))
      ensures committed == old(committed).(
                bills := old(committed).bills[b := Bill(user := caller, amount := amount, due := due,
                                                        status := Pending, retries := 0, maxRetries := maxRetries,
                                                        hasAccount := hasAccount)])
    {
      var bill := Bill(caller, amount, due, Pending, 0, maxRetries, hasAccount);
      view := view.(bills := view.bills[b := bill]);
      Commit();
    }

    // ----- app/api/webhooks.py -----

    method HandleChargeSuccess(e: Event)
      requires e.kind.ChargeSuccess?
      modifies this
      ensures var effect := ChargeEffect(old(view), e);
              && (effect.Dropped? ==> view == old(view) && committed == old(committed))
              && (!effect.Dropped? ==> committed == view == Act(old(view), e.reference, effect))
      ensures e.reference == "" || (e.reference in old(view).txns && old(view).txns[e.reference].status == TxnSuccess)
              ==> view == old(view) && committed == old(committed)
      ensures e.reference != "" && e.reference !in old(view).txns ==> view == committed == old(view)
      ensures e.reference != "" && e.reference in old(view).txns && old(view).txns[e.reference].status != TxnSuccess
              && old(view).txns[e.reference].user in old(view).users ==>
                var t := old(view).txns[e.reference];
                var amount := if e.amount == None then 0 else e.amount.value;
                committed == view == old(view).(
                  users := old(view).users[t.user := old(view).users[t.user] + amount],
                  txns := old(view).txns[e.reference := t.(status := TxnSuccess, credited := t.credited + amount)])
    {
      if e.reference == "" {
        return;
      }
      if e.reference !in view.txns {
        Commit();
        return;
      }
      var txn := view.txns[e.reference];
      if txn.status == TxnSuccess {
        return;
      }
      if txn.user !in view.users {
        return;
      }
      var amount := match e.amount case None => 0 case Some(n) => n;
      txn := txn.(status := TxnSuccess, credited := txn.credited + amount);
      view := view.(users := view.users[txn.user := view.users[txn.user] + amount],
                    txns := view.txns[e.reference := txn]);
      Commit();
    }

    method HandleTransferUpdate(e: Event)
      requires e.kind in {TransferSuccess, TransferFailed, TransferReversed}
      modifies this
      ensures committed == view == Settle(old(view), e.reference, e.kind.TransferSuccess?)
    {
      ConfirmPayout(e.reference, e.kind.TransferSuccess?);
      Commit();
    }

    /** One request with a valid signature, from an open session to a closed one. */
    method NombaWebhook(e: Event) returns (replay: bool)
      requires view == committed
      modifies this
      ensures replay <==> e.id in old(committed).seen
      ensures view == committed == Deliver(old(committed), e)
      ensures replay ==> committed == old(committed)
      ensures !replay && e.kind == TransferSuccess && Outcomes.Unsettled(old(committed), e.reference) ==>
                var t := old(committed).txns[e.reference];
                && committed.txns[e.reference].status == TxnSuccess
                && committed.bills[t.bill.value].status == Paid
                && committed.users == old(committed).users
      ensures !replay && e.kind in {TransferFailed, TransferReversed} && Outcomes.Unsettled(old(committed), e.reference) ==>
                var t := old(committed).txns[e.reference];
                var bill := old(committed).bills[t.bill.value];
                && committed.txns[e.reference].status == TxnFailed
                && committed.users == old(committed).users[t.user := old(committed).users[t.user] + t.amount + t.fee]
                && committed.bills[t.bill.value].retries == bill.retries + 1
                && committed.bills[t.bill.value].status
                   == (if bill.retries + 1 < bill.maxRetries then Scheduled else Failed)
      ensures !replay && e.kind in {AccountAssigned, Unmapped} ==>
                committed == old(committed).(seen := old(committed).seen + {e.id})
    {
      if e.id in view.seen {
        Rollback();
        Commit();
        return true;
      }
      view := view.(seen := view.seen + {e.id});
      if e.kind.ChargeSuccess? {
        HandleChargeSuccess(e);
      } else if e.kind == TransferSuccess || e.kind == TransferFailed || e.kind == TransferReversed {
        HandleTransferUpdate(e);
      } else {
        Commit();
      }
      Rollback();
      if Outcomes.Unsettled(old(committed), e.reference) && e.kind in {TransferFailed, TransferReversed} {
        Outcomes.FailureColumns(old(committed), e);
      }
      return false;
    }

    // ----- app/core/scheduler.py -----

    /** `dueIds` is what the job's first query returns: the due bills, in an order the database chooses. */
    method ProcessScheduledBills(now: Time, fee: nat, dueIds: seq<BillId>)
      requires view == committed
      requires forall b :: b in dueIds
                           <==> b in committed.bills && committed.bills[b].status == Scheduled
                                && committed.bills[b].due <= now
      modifies this
      ensures view == committed == Scheduler.Tick(old(committed), now, fee)
      ensures committed == old(committed).(bills := committed.bills) && committed.bills.Keys == old(committed).bills.Keys
      ensures forall b :: b in committed.bills ==>
                var bill := old(committed).bills[b];
                committed.bills[b] == if bill.status == Scheduled && bill.due <= now && bill.user in old(committed).users
                                         && bill.amount + fee <= old(committed).users[bill.user]
                                      then bill.(status := Pending) else bill
    {
      var rest := dueIds;
      ghost var start := committed;
      while rest != []
        invariant view == committed
        invariant Scheduler.ReevaluateAll(committed, rest, now, fee)
                  == Scheduler.ReevaluateAll(start, dueIds, now, fee)
        decreases |rest|
      {
        var b := rest[0];
        rest := rest[1..];
        if b !in view.bills || view.bills[b].status != Scheduled {
          continue;
        }
        var bill := view.bills[b];
        if bill.user !in view.users {
          continue;
        }
        var daysUntilDue := DaysUntil(bill.due, now);
        var decision := Decide(view.users[bill.user], bill.amount, fee, daysUntilDue);
        if decision == PayNow {
          view := view.(bills := view.bills[b := bill.(status := Pending)]);
          Commit();
        }
      }
      Scheduler.TickInAnyOrder(start, dueIds, now, fee);
    }
  }
}
