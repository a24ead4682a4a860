/** How often a bill can change status and be charged. */
module BillLifecycle {
  import opened Options
  import opened Ledger
  import opened LedgerTotals
  import opened LedgerInvariant

  function Rank(status: BillStatus): nat {
    match status
    case Scheduled => 4
    case Pending => 3
    case Processing => 2
    case Failed => 1
    case Paid => 0
    case Cancelled => 0
  }

  /** The pair (retries left, rank of the status) in one number: the ranks are below 5. */
  function Measure(bill: Bill): nat {
    (if bill.retries < bill.maxRetries then bill.maxRetries - bill.retries else 0) * 5 + Rank(bill.status)
  }

  predicate Changes(s: Store, st: Step, b: BillId) {
    b in s.bills && b in Apply(s, st).bills && Apply(s, st).bills[b].status != s.bills[b].status
  }

  predicate Charges(s: Store, st: Step, b: BillId) {
    st.Pay? && st.bill == b && CanPay(s, b, st.reference, st.fee)
  }

  /** A user paying a bill that has already used up its retries. */
  predicate Repays(s: Store, st: Step, b: BillId) {
    Charges(s, st, b) && s.bills[b].status == Failed
  }

  function CountChanges(s: Store, steps: seq<Step>, b: BillId): nat
    decreases |steps|
  {
    if steps == [] then 0
    else One(Changes(s, steps[0], b)) + CountChanges(Apply(s, steps[0]), steps[1..], b)
  }

  function CountRepays(s: Store, steps: seq<Step>, b: BillId): nat
    decreases |steps|
  {
    if steps == [] then 0
    else One(Repays(s, steps[0], b)) + CountRepays(Apply(s, steps[0]), steps[1..], b)
  }

  /** Only a repaid bill moves up; every other status change moves strictly down. */
  lemma StepMovesDown(s: Store, st: Step, b: BillId)
    requires Inv(s) && b in s.bills
    ensures b in Apply(s, st).bills
    ensures Apply(s, st).bills[b].maxRetries == s.bills[b].maxRetries
    ensures Measure(Apply(s, st).bills[b]) + One(Changes(s, st, b))
            <= Measure(s.bills[b]) + 2 * One(Repays(s, st, b))
  {
    if st.Webhook? && EffectOf(s, st.event).Settles? && s.txns[st.event.reference].bill == Some(b) {
      assert RowOk(s, s.txns[st.event.reference]);
      ProcessingDebitMeansProcessingBill(s, st.event.reference);
    }
  }

  /** A bill has a bounded number of status changes, plus two for every time it is paid again after failing. */
  lemma {:induction false} StatusChangesAreBounded(s: Store, steps: seq<Step>, b: BillId)
    requires Inv(s) && SafeRun(s, steps) && b in s.bills
    ensures b in Run(s, steps).bills
    ensures CountChanges(s, steps, b) + Measure(Run(s, steps).bills[b])
            <= Measure(s.bills[b]) + 2 * CountRepays(s, steps, b)
    decreases |steps|
  {
    if steps != [] {
      StepMovesDown(s, steps[0], b);
      StepKeepsInvIffSafe(s, steps[0]);
      StatusChangesAreBounded(Apply(s, steps[0]), steps[1..], b);
    }
  }

  /** Rows are never moved from one bill to another, so only a payout adds to a bill's debits. */
  lemma AttemptsAfterWrite(s: Store, s': Store, r: Ref, b: BillId)
    requires r in s'.txns && s'.txns == s.txns[r := s'.txns[r]]
    requires r in s.txns ==> s'.txns[r].bill == s.txns[r].bill
    ensures Total(s'.txns, AttemptsOn(b))
            == Total(s.txns, AttemptsOn(b)) + One(r !in s.txns && s'.txns[r].bill == Some(b))
  {
    BillTotalsAfterWrite(s.txns, r, s'.txns[r], b);
  }

  lemma AttemptsAfterDelivery(s: Store, e: Event, b: BillId)
    ensures Total(Deliver(s, e).txns, AttemptsOn(b)) == Total(s.txns, AttemptsOn(b))
  {
    if EffectOf(s, e).Credits? || EffectOf(s, e).Settles? {
      AttemptsAfterWrite(s, Deliver(s, e), e.reference, b);
    }
  }

  lemma AttemptsAfterStep(s: Store, st: Step, b: BillId)
    requires Inv(s) && b in s.bills
    ensures Total(Apply(s, st).txns, AttemptsOn(b)) == Total(s.txns, AttemptsOn(b)) + One(Charges(s, st, b))
  {
    var s' := Apply(s, st);
    match st {
      case AddCredit(r, u, _) =>
        if s' != s {
          AttemptsAfterWrite(s, s', r, b);
        }
      case Pay(b', r, fee) =>
        if CanPay(s, b', r, fee) {
          AttemptsAfterWrite(s, s', r, b);
        }
      case Webhook(e) =>
        AttemptsAfterDelivery(s, e, b);
      case _ =>
    }
  }

  lemma FirstAttemptsFit(s: Store, st: Step, b: BillId)
    requires Inv(s) && Charges(s, st, b)
    ensures !Repays(s, st, b) ==> Total(s.txns, AttemptsOn(b)) < s.bills[b].maxRetries
  {
  }

  /** At most `maxRetries` debits are ever committed for a bill, plus one for every time it is paid again
      after failing. */
  lemma {:induction false} AttemptsAreBounded(s: Store, steps: seq<Step>, b: BillId)
    requires Inv(s) && SafeRun(s, steps) && b in s.bills
    ensures Total(Run(s, steps).txns, AttemptsOn(b))
            <= CountRepays(s, steps, b)
               + if Total(s.txns, AttemptsOn(b)) <= s.bills[b].maxRetries then s.bills[b].maxRetries
                 else Total(s.txns, AttemptsOn(b))
    decreases |steps|
  {
    if steps != [] {
      AttemptsAfterStep(s, steps[0], b);
      StepMovesDown(s, steps[0], b);
      if Charges(s, steps[0], b) {
        FirstAttemptsFit(s, steps[0], b);
      }
      StepKeepsInvIffSafe(s, steps[0]);
      AttemptsAreBounded(Apply(s, steps[0]), steps[1..], b);
    }
  }
}
